/**
 * The event picker of the registration form: the pass chosen decides which
 * events are listed (and in what order), and a single-day pass allows at most
 * four of them to be checked.
 */
module Selection {
  import opened Wrappers
  import opened Text
  import opened JsValues
  import opened Schema
  import Bootstrap

  /** The options of the pass select. */
  const Day1Pass: string := "Day 1 Pass (\U{20B9}250)"
  const Day2Pass: string := "Day 2 Pass (\U{20B9}250)"
  const TwoDaysPass: string := "2 Days Pass (\U{20B9}400)"

  /** Which events the picker lists. */
  datatype FilterMode = DayOne | DayTwo | AllDays

  /** `(e.category || '').toLowerCase() === 'technical'`. */
  predicate IsTechnical(e: Event) {
    ToLower(e.category) == "technical"
  }

  /** The exact pass strings choose the mode; anything else falls back on the primary event's category. */
  function ModeFor(pass: string, primary: Event): (m: FilterMode)
    ensures m == AllDays <==> pass == TwoDaysPass
    ensures pass != Day1Pass && pass != Day2Pass && pass != TwoDaysPass ==>
      m == (if IsTechnical(primary) then DayOne else DayTwo)
  {
    if pass == Day2Pass then DayTwo
    else if pass == Day1Pass then DayOne
    else if pass == TwoDaysPass then AllDays
    else if IsTechnical(primary) then DayOne
    else DayTwo
  }

  /** The exact pass strings mean what they say, whatever the primary event. */
  lemma PassesChooseDays(primary: Event)
    ensures ModeFor(Day1Pass, primary) == DayOne
    ensures ModeFor(Day2Pass, primary) == DayTwo
    ensures ModeFor(TwoDaysPass, primary) == AllDays
  {
  }

  /** `filterMode.toLowerCase()`. */
  function Target(m: FilterMode): string
    requires m != AllDays
  {
    if m == DayOne then "day 1" else "day 2"
  }

  /** `(e.day || '').toLowerCase()`: the day the filter and the ALL-mode sort look at. */
  function DayKey(e: Event): string {
    ToLower(if Truthy(e.day) then e.day.value else "")
  }

  /** The filter predicate: the day column first, the category only when the day is missing. */
  predicate Keep(m: FilterMode, e: Event) {
    if m == AllDays then true
    else if DayKey(e) == Target(m) then true
    else if !Truthy(e.day) then (if m == DayTwo then !IsTechnical(e) else IsTechnical(e))
    else false
  }

  /** Both directions of the single-day filter. */
  lemma KeepMeaning(e: Event)
    ensures Keep(DayOne, e) <==>
      (Truthy(e.day) && ToLower(e.day.value) == "day 1") || (!Truthy(e.day) && IsTechnical(e))
    ensures Keep(DayTwo, e) <==>
      (Truthy(e.day) && ToLower(e.day.value) == "day 2") || (!Truthy(e.day) && !IsTechnical(e))
  {
  }

  /** No event is listed for both single days, and an event without a day is listed for exactly one of them. */
  lemma SingleDaysPartition(e: Event)
    ensures !(Keep(DayOne, e) && Keep(DayTwo, e))
    ensures !Truthy(e.day) ==> (Keep(DayOne, e) <==> !Keep(DayTwo, e))
  {
    if Truthy(e.day) && ToLower(e.day.value) == "day 1" {
      assert ToLower(e.day.value)[4] == '1';
    }
  }

  /** For a row without a day, the picker's category fallback agrees with the day the start-up backfill would write. */
  lemma FallbackAgreesWithBackfill(m: FilterMode, e: Event)
    requires e.day.None?
    ensures Keep(m, e) <==> Keep(m, e.(day := Bootstrap.BackfilledDay(e)))
  {
    var filled := e.(day := Bootstrap.BackfilledDay(e));
    assert DayKey(e) == [];
    if e.category == "technical" {
      assert IsTechnical(e);
      assert DayKey(filled) == "day 1";
    } else if e.category == "non-technical" || e.category == "sports" {
      assert !IsTechnical(e) by {
        assert ToLower(e.category)[0] != 't';
      }
      assert DayKey(filled) == "day 2";
    }
  }

  /** `allEvents.filter(...)`, order kept. */
  function Filter(m: FilterMode, s: seq<Event>): (r: seq<Event>)
    ensures |r| <= |s|
    ensures forall e :: e in r <==> e in s && Keep(m, e)
  {
    if s == [] then []
    else
      var init := Filter(m, s[..|s| - 1]);
      var last := s[|s| - 1];
      assert forall e :: e in s <==> e in s[..|s| - 1] || e == last;
      if Keep(m, last) then init + [last] else init
  }

  /**
   * The comparator does not put `b` before `a`: in ALL mode by day, then by
   * title; otherwise by title. Days and titles are compared by code point.
   */
  predicate KeyLe(m: FilterMode, a: Event, b: Event) {
    if m == AllDays && DayKey(a) != DayKey(b) then LexLe(DayKey(a), DayKey(b))
    else LexLe(a.title, b.title)
  }

  lemma KeyLeTotal(m: FilterMode, a: Event, b: Event)
    ensures KeyLe(m, a, b) || KeyLe(m, b, a)
  {
    LexLeTotal(DayKey(a), DayKey(b));
    LexLeTotal(a.title, b.title);
  }

  lemma KeyLeTransitive(m: FilterMode, a: Event, b: Event, c: Event)
    requires KeyLe(m, a, b) && KeyLe(m, b, c)
    ensures KeyLe(m, a, c)
  {
    if m == AllDays {
      if DayKey(a) != DayKey(b) && DayKey(b) != DayKey(c) {
        LexLeTransitive(DayKey(a), DayKey(b), DayKey(c));
        if DayKey(a) == DayKey(c) {
          LexLeAntisymmetric(DayKey(a), DayKey(b));
        }
      } else if DayKey(a) == DayKey(b) && DayKey(b) == DayKey(c) {
        LexLeTransitive(a.title, b.title, c.title);
      }
    } else {
      LexLeTransitive(a.title, b.title, c.title);
    }
  }

  predicate Sorted(m: FilterMode, s: seq<Event>) {
    forall i, j :: 0 <= i < j < |s| ==> KeyLe(m, s[i], s[j])
  }

  /** Puts `x` after every element that does not sort after it, so equal keys keep their order. */
  function Insert(m: FilterMode, x: Event, s: seq<Event>): seq<Event> {
    if s == [] then [x]
    else if !KeyLe(m, s[0], x) then [x] + s
    else [s[0]] + Insert(m, x, s[1..])
  }

  lemma {:induction false} InsertPermutes(m: FilterMode, x: Event, s: seq<Event>)
    ensures multiset(Insert(m, x, s)) == multiset(s) + multiset{x}
    ensures |Insert(m, x, s)| == |s| + 1
  {
    if s != [] && KeyLe(m, s[0], x) {
      InsertPermutes(m, x, s[1..]);
      assert s == [s[0]] + s[1..];
    }
  }

  lemma {:induction false} InsertSorted(m: FilterMode, x: Event, s: seq<Event>)
    requires Sorted(m, s)
    ensures Sorted(m, Insert(m, x, s))
  {
    var r := Insert(m, x, s);
    if s == [] {
    } else if !KeyLe(m, s[0], x) {
      KeyLeTotal(m, s[0], x);
      forall j | 1 <= j < |r| ensures KeyLe(m, r[0], r[j]) {
        if j > 1 {
          KeyLeTransitive(m, x, s[0], s[j - 1]);
        }
      }
    } else {
      InsertSorted(m, x, s[1..]);
      InsertPermutes(m, x, s[1..]);
      var rest := Insert(m, x, s[1..]);
      forall j | 0 <= j < |rest| ensures KeyLe(m, s[0], rest[j]) {
        assert rest[j] in multiset(rest);
        assert rest[j] in multiset(s[1..]) + multiset{x};
        if rest[j] != x {
          assert rest[j] in s[1..];
          var k :| 0 <= k < |s[1..]| && s[1..][k] == rest[j];
          assert s[k + 1] == rest[j];
        }
      }
    }
  }

  /**
   * `filteredEvents.sort(cmp)`, as an insertion sort: the result is ordered by
   * the comparator and holds every element as often as the input does.
   */
  function Sort(m: FilterMode, s: seq<Event>): (r: seq<Event>)
    ensures Sorted(m, r)
    ensures multiset(r) == multiset(s)
    decreases |s|
  {
    if s == [] then []
    else
      var rest := Sort(m, s[..|s| - 1]);
      InsertSorted(m, s[|s| - 1], rest);
      InsertPermutes(m, s[|s| - 1], rest);
      assert s == s[..|s| - 1] + [s[|s| - 1]];
      Insert(m, s[|s| - 1], rest)
  }

  /** The events the picker lists, in order. */
  function Listing(events: seq<Event>, m: FilterMode): (r: seq<Event>)
    ensures Sorted(m, r)
    ensures forall e :: e in r <==> e in events && Keep(m, e)
    ensures multiset(r) == multiset(Filter(m, events))
  {
    var r := Sort(m, Filter(m, events));
    assert forall e :: e in r <==> e in multiset(r);
    r
  }

  /** In ALL mode every event is listed. */
  lemma AllModeListsEverything(events: seq<Event>)
    ensures multiset(Listing(events, AllDays)) == multiset(events)
  {
    FilterAll(events);
  }

  lemma {:induction false} FilterAll(s: seq<Event>)
    ensures Filter(AllDays, s) == s
  {
    if s != [] {
      FilterAll(s[..|s| - 1]);
    }
  }

  /** How many events of `s` have the id `id`. */
  function CountId(s: seq<Event>, id: int): nat {
    if s == [] then 0 else CountId(s[..|s| - 1], id) + (if s[|s| - 1].id == id then 1 else 0)
  }

  /** Primary keys: no two events share an id. */
  predicate DistinctIds(s: seq<Event>) {
    forall i, j :: 0 <= i < j < |s| ==> s[i].id != s[j].id
  }

  lemma {:induction false} DistinctCountsOnce(s: seq<Event>, id: int)
    requires DistinctIds(s)
    ensures CountId(s, id) <= 1
  {
    if s != [] {
      var init := s[..|s| - 1];
      DistinctCountsOnce(init, id);
      if s[|s| - 1].id == id && CountId(init, id) > 0 {
        var k := SomeWithId(init, id);
        assert false;
      }
    }
  }

  /** An event of `s` with that id, when one is counted. */
  lemma {:induction false} SomeWithId(s: seq<Event>, id: int) returns (k: int)
    requires CountId(s, id) > 0
    ensures 0 <= k < |s| && s[k].id == id
  {
    if s[|s| - 1].id == id {
      k := |s| - 1;
    } else {
      k := SomeWithId(s[..|s| - 1], id);
    }
  }

  lemma {:induction false} FilterCountsFewer(m: FilterMode, s: seq<Event>, id: int)
    ensures CountId(Filter(m, s), id) <= CountId(s, id)
  {
    if s != [] {
      FilterCountsFewer(m, s[..|s| - 1], id);
    }
  }

  lemma {:induction false} CountIdPrepend(x: Event, s: seq<Event>, id: int)
    ensures CountId([x] + s, id) == CountId(s, id) + (if x.id == id then 1 else 0)
    decreases |s|
  {
    if s != [] {
      CountIdPrepend(x, s[..|s| - 1], id);
      assert ([x] + s)[..|s|] == [x] + s[..|s| - 1];
    }
  }

  lemma {:induction false} InsertCounts(m: FilterMode, x: Event, s: seq<Event>, id: int)
    ensures CountId(Insert(m, x, s), id) == CountId(s, id) + (if x.id == id then 1 else 0)
  {
    if s == [] {
      assert CountId([x], id) == CountId([], id) + (if x.id == id then 1 else 0);
    } else if !KeyLe(m, s[0], x) {
      CountIdPrepend(x, s, id);
    } else {
      InsertCounts(m, x, s[1..], id);
      CountIdPrepend(s[0], Insert(m, x, s[1..]), id);
      CountIdPrepend(s[0], s[1..], id);
      assert [s[0]] + s[1..] == s;
    }
  }

  lemma {:induction false} SortCounts(m: FilterMode, s: seq<Event>, id: int)
    ensures CountId(Sort(m, s), id) == CountId(s, id)
    decreases |s|
  {
    if s != [] {
      SortCounts(m, s[..|s| - 1], id);
      InsertCounts(m, s[|s| - 1], Sort(m, s[..|s| - 1]), id);
    }
  }

  /** How many boxes are checked. */
  function Count(s: seq<bool>): nat {
    if s == [] then 0 else Count(s[..|s| - 1]) + (if s[|s| - 1] then 1 else 0)
  }

  /** Changing one box changes the count by that box alone. */
  lemma {:induction false} CountUpdate(s: seq<bool>, i: int, b: bool)
    requires 0 <= i < |s|
    ensures Count(s[i := b]) == Count(s) - (if s[i] then 1 else 0) + (if b then 1 else 0)
  {
    if i < |s| - 1 {
      CountUpdate(s[..|s| - 1], i, b);
      assert s[i := b][..|s| - 1] == s[..|s| - 1][i := b];
    } else {
      assert s[i := b][..|s| - 1] == s[..|s| - 1];
    }
  }

  /** Boxes checked exactly for the events with one id are as many as those events. */
  lemma {:induction false} CountMarks(items: seq<Event>, marks: seq<bool>, id: int)
    requires |marks| == |items|
    requires forall k :: 0 <= k < |items| ==> (marks[k] <==> items[k].id == id)
    ensures Count(marks) == CountId(items, id)
  {
    if items != [] {
      CountMarks(items[..|items| - 1], marks[..|marks| - 1], id);
    }
  }

  /** The checkbox list built by `setupEventSelection`. */
  class EventChecklist {
    const mode: FilterMode
    const items: seq<Event>
    const checked: array<bool>

    /** A single-day pass never has more than four boxes checked. */
    ghost predicate Valid()
      reads this, checked
    {
      checked.Length == |items| && (mode != AllDays ==> Count(checked[..]) <= 4)
    }

    /** The list for a pass and a primary event: the primary event, if listed, is pre-checked. */
    constructor (events: seq<Event>, pass: string, primary: Event)
      requires DistinctIds(events)
      ensures Valid() && fresh(checked)
      ensures mode == ModeFor(pass, primary) && items == Listing(events, mode)
      ensures forall k :: 0 <= k < |items| ==> (checked[k] <==> items[k].id == primary.id)
    {
      var m := ModeFor(pass, primary);
      var list := Listing(events, m);
      mode, items := m, list;
      checked := new bool[|list|](k requires 0 <= k < |list| => list[k].id == primary.id);
      new;
      CountMarks(items, checked[..], primary.id);
      SortCounts(m, Filter(m, events), primary.id);
      FilterCountsFewer(m, events, primary.id);
      DistinctCountsOnce(events, primary.id);
    }

    /** `list.querySelectorAll('input[type="checkbox"]:checked').length`. */
    method CheckedCount() returns (n: nat)
      ensures n == Count(checked[..])
    {
      n := 0;
      for j := 0 to checked.Length
        invariant n == Count(checked[..j])
      {
        assert checked[..j + 1][..j] == checked[..j];
        if checked[j] {
          n := n + 1;
        }
      }
      assert checked[..checked.Length] == checked[..];
    }

    /**
     * A click on box `i` and its `onchange`: unchecking always works; checking
     * works in ALL mode, and otherwise only while fewer than four are checked.
     */
    method Click(i: int)
      requires 0 <= i < checked.Length
      modifies checked
      ensures checked[..] == old(checked[..])[i := !old(checked[i]) && (mode == AllDays || Count(old(checked[..])) < 4)]
      ensures old(Valid()) ==> Valid()
    {
      ghost var before := checked[..];
      checked[i] := !checked[i];
      assert checked[..] == before[i := !before[i]];
      CountUpdate(before, i, !before[i]);
      var n := CheckedCount();
      if mode != AllDays && n > 4 {
        checked[i] := false;
      }
      CountUpdate(before, i, !before[i] && (mode == AllDays || Count(before) < 4));
    }
  }

  /** The positions of the checked boxes, top to bottom: each checked position once, in increasing order. */
  function Marked(marks: seq<bool>): (idx: seq<int>)
    ensures |idx| == Count(marks)
    ensures forall j :: 0 <= j < |idx| ==> 0 <= idx[j] < |marks| && marks[idx[j]]
    ensures forall j, k :: 0 <= j < k < |idx| ==> idx[j] < idx[k]
    ensures forall k :: 0 <= k < |marks| && marks[k] ==> k in idx
  {
    if marks == [] then []
    else
      var n := |marks| - 1;
      var init := Marked(marks[..n]);
      assert forall j :: 0 <= j < |init| ==> marks[..n][init[j]] == marks[init[j]];
      if marks[n] then init + [n] else init
  }

  /** `Array.from(checkedBoxes).map(cb => cb.value)`: the titles of the checked boxes, in list order. */
  function ChosenTitles(items: seq<Event>, marks: seq<bool>): (r: seq<string>)
    requires |marks| == |items|
    ensures |r| == |Marked(marks)| == Count(marks)
    ensures forall j :: 0 <= j < |r| ==> r[j] == items[Marked(marks)[j]].title
    ensures forall t :: t in r <==> exists k :: 0 <= k < |items| && marks[k] && items[k].title == t
  {
    if items == [] then []
    else
      var init := ChosenTitles(items[..|items| - 1], marks[..|marks| - 1]);
      var n := |items| - 1;
      assert forall k :: 0 <= k < n ==> items[..n][k] == items[k] && marks[..n][k] == marks[k];
      if marks[n] then init + [items[n].title] else init
  }

  /** A single-day pass submits at most four titles. */
  lemma SingleDayChoosesAtMostFour(c: EventChecklist)
    requires c.Valid() && c.mode != AllDays
    ensures |ChosenTitles(c.items, c.checked[..])| <= 4
  {
  }
}
