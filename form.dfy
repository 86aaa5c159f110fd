/**
 * The rest of the client: the event panels of the home page, the
 * registration modal (pass, fee, team members) and the request body it
 * posts to the registration endpoint.
 */
module Form {
  import opened Wrappers
  import opened Text
  import opened JsValues
  import opened Schema
  import opened Store
  import opened Http
  import opened Registration
  import opened Selection

  /** The category headings of a day panel, in display order. */
  const DisplayOrder: seq<string> := ["Technical", "Non-Technical", "Sports"]

  /** A heading followed by the cards of its events. */
  datatype Section = Section(heading: string, events: seq<Event>)

  /** A day panel: the "no events" note, or the non-empty category sections. */
  datatype DayPanel = NoEventsNote | Sections(sections: seq<Section>)

  /** `events.filter(e => e.day === day)`. */
  function OnDay(events: seq<Event>, day: string): (r: seq<Event>)
    ensures forall e :: e in r <==> e in events && e.day == Some(day)
  {
    if events == [] then []
    else
      var init := OnDay(events[..|events| - 1], day);
      var last := events[|events| - 1];
      assert forall e :: e in events <==> e in events[..|events| - 1] || e == last;
      if last.day == Some(day) then init + [last] else init
  }

  /** The events of one category, compared without case. */
  function InCategory(events: seq<Event>, cat: string): (r: seq<Event>)
    ensures forall e :: e in r <==> e in events && ToLower(e.category) == ToLower(cat)
  {
    if events == [] then []
    else
      var init := InCategory(events[..|events| - 1], cat);
      var last := events[|events| - 1];
      assert forall e :: e in events <==> e in events[..|events| - 1] || e == last;
      if ToLower(last.category) == ToLower(cat) then init + [last] else init
  }

  /** The sections of the categories among `cats` that have events. */
  function SectionsFor(dayEvents: seq<Event>, cats: seq<string>): seq<Section> {
    if cats == [] then []
    else
      var init := SectionsFor(dayEvents, cats[..|cats| - 1]);
      var cat := cats[|cats| - 1];
      var evs := InCategory(dayEvents, cat);
      if |evs| > 0 then init + [Section(cat + " Events", evs)] else init
  }

  /** What `renderEvents` puts in one day's container. */
  function DayView(events: seq<Event>, day: string): DayPanel {
    var dayEvents := OnDay(events, day);
    if dayEvents == [] then NoEventsNote else Sections(SectionsFor(dayEvents, DisplayOrder))
  }

  /** Every section holds events of its own category, and none is empty. */
  lemma {:induction false} SectionsMeaning(dayEvents: seq<Event>, cats: seq<string>)
    ensures |SectionsFor(dayEvents, cats)| <= |cats|
    ensures forall s :: s in SectionsFor(dayEvents, cats) ==>
      s.events != [] &&
      exists c :: c in cats && s.heading == c + " Events" && s.events == InCategory(dayEvents, c)
  {
    if cats != [] {
      SectionsMeaning(dayEvents, cats[..|cats| - 1]);
    }
  }

  /** An event whose category has a heading is shown in that heading's section. */
  lemma {:induction false} SectionsCover(dayEvents: seq<Event>, cats: seq<string>, e: Event, i: int)
    requires e in dayEvents && 0 <= i < |cats| && ToLower(e.category) == ToLower(cats[i])
    ensures exists s :: s in SectionsFor(dayEvents, cats) && s.heading == cats[i] + " Events" && e in s.events
  {
    if i < |cats| - 1 {
      SectionsCover(dayEvents, cats[..|cats| - 1], e, i);
    } else {
      var evs := InCategory(dayEvents, cats[i]);
      assert e in evs;
      var sections := SectionsFor(dayEvents, cats);
      assert sections[|sections| - 1] == Section(cats[i] + " Events", evs);
    }
  }

  /** Whether the home page shows `e` in some section of the panel. */
  predicate Shown(panel: DayPanel, e: Event) {
    panel.Sections? && exists s :: s in panel.sections && e in s.events
  }

  /** The categories the headings `cats` show, compared without case. */
  predicate Headed(category: string, cats: seq<string>) {
    exists i :: 0 <= i < |cats| && ToLower(category) == ToLower(cats[i])
  }

  /** The sections for `cats` show exactly the events of the headed categories. */
  lemma SectionsShow(dayEvents: seq<Event>, cats: seq<string>, e: Event)
    requires e in dayEvents
    ensures (exists s :: s in SectionsFor(dayEvents, cats) && e in s.events) <==> Headed(e.category, cats)
  {
    if Headed(e.category, cats) {
      var i :| 0 <= i < |cats| && ToLower(e.category) == ToLower(cats[i]);
      SectionsCover(dayEvents, cats, e, i);
    }
    if exists s :: s in SectionsFor(dayEvents, cats) && e in s.events {
      SectionsMeaning(dayEvents, cats);
      var s :| s in SectionsFor(dayEvents, cats) && e in s.events;
      var c :| c in cats && s.heading == c + " Events" && s.events == InCategory(dayEvents, c);
      var i :| 0 <= i < |cats| && cats[i] == c;
    }
  }

  /**
   * The home page shows an event under a day exactly when its day is that
   * exact text and its category is one of the three headings, in any case.
   */
  lemma DayViewShows(events: seq<Event>, day: string, e: Event)
    requires e in events
    ensures Shown(DayView(events, day), e) <==> e.day == Some(day) && Headed(e.category, DisplayOrder)
  {
    var dayEvents := OnDay(events, day);
    if e.day == Some(day) {
      SectionsShow(dayEvents, DisplayOrder, e);
    } else if dayEvents != [] {
      SectionsMeaning(dayEvents, DisplayOrder);
      forall s | s in SectionsFor(dayEvents, DisplayOrder) ensures e !in s.events {
        var c :| c in DisplayOrder && s.heading == c + " Events" && s.events == InCategory(dayEvents, c);
      }
    }
  }

  /** The note is shown exactly when no event has that day. */
  lemma NoteMeansEmptyDay(events: seq<Event>, day: string)
    ensures DayView(events, day) == NoEventsNote <==> forall e :: e in events ==> e.day != Some(day)
  {
    var dayEvents := OnDay(events, day);
    if dayEvents != [] {
      assert dayEvents[0] in dayEvents;
    }
  }

  /**
   * The home page matches the day exactly, the picker without case: an event
   * whose day is "day 1" is offered with a Day 1 pass but shown on neither panel.
   */
  lemma PickerListsWhatHomeHides(events: seq<Event>, e: Event)
    requires e in events && e.day == Some("day 1")
    ensures Keep(DayOne, e)
    ensures !Shown(DayView(events, "Day 1"), e) && !Shown(DayView(events, "Day 2"), e)
  {
    assert ToLower("day 1") == "day 1";
    DayViewShows(events, "Day 1", e);
    DayViewShows(events, "Day 2", e);
  }

  /** One pass over the headings, appending a section for each one that has events. */
  method AppendSections(dayEvents: seq<Event>, cats: seq<string>) returns (sections: seq<Section>)
    ensures sections == SectionsFor(dayEvents, cats)
  {
    sections := [];
    for i := 0 to |cats|
      invariant sections == SectionsFor(dayEvents, cats[..i])
    {
      assert cats[..i + 1][..i] == cats[..i];
      var evs := InCategory(dayEvents, cats[i]);
      if |evs| > 0 {
        sections := sections + [Section(cats[i] + " Events", evs)];
      }
    }
    assert cats[..|cats|] == cats;
  }

  /** `renderEvents` for one day's container. */
  method RenderDay(events: seq<Event>, day: string) returns (panel: DayPanel)
    ensures panel == DayView(events, day)
  {
    var dayEvents := OnDay(events, day);
    if dayEvents == [] {
      panel := NoEventsNote;
    } else {
      var sections := AppendSections(dayEvents, DisplayOrder);
      panel := Sections(sections);
    }
  }

  /** The pass `openModal` selects for an event: Day 1 for technical events, Day 2 otherwise. */
  function AutoPass(e: Event): (pass: string)
    ensures pass == Day1Pass || pass == Day2Pass
  {
    if IsTechnical(e) then Day1Pass else Day2Pass
  }

  /**
   * The selected pass filters as the category fallback would, and lists the
   * event itself when its day is missing or agrees with its category.
   */
  lemma AutoPassListsPrimary(events: seq<Event>, e: Event)
    requires e in events
    requires Truthy(e.day) ==> DayKey(e) == (if IsTechnical(e) then "day 1" else "day 2")
    ensures ModeFor(AutoPass(e), e) == ModeFor("", e)
    ensures e in Listing(events, ModeFor(AutoPass(e), e))
  {
    assert Day1Pass != "" && Day2Pass != "";
    assert Day1Pass != Day2Pass;
  }

  /** Whether `e.id == key` holds in JavaScript's loose comparison of a number with the text of an input. */
  predicate IdMatches(e: Event, key: string) {
    var p := ParseId(key);
    p.Some? && p.value == e.id
  }

  /** `allEvents.find(e => e.id == key)`: the first event with that id. */
  function FindEvent(events: seq<Event>, key: string): (r: Option<Event>)
    ensures r.None? <==> forall e :: e in events ==> !IdMatches(e, key)
    ensures r.Some? ==> exists i :: (0 <= i < |events| && events[i] == r.value && IdMatches(r.value, key)
      && forall j :: 0 <= j < i ==> !IdMatches(events[j], key))
  {
    if events == [] then None
    else if IdMatches(events[0], key) then
      assert events[0] == events[0];
      Some(events[0])
    else
      var r := FindEvent(events[1..], key);
      assert forall e :: e in events <==> e == events[0] || e in events[1..];
      if r.Some? then
        var i :| 0 <= i < |events[1..]| && events[1..][i] == r.value && IdMatches(r.value, key)
          && forall j :: 0 <= j < i ==> !IdMatches(events[1..][j], key);
        assert events[i + 1] == r.value;
        r
      else r
  }

  /** Under distinct ids the event found is the one with that id. */
  lemma FindsTheEvent(events: seq<Event>, e: Event)
    requires DistinctIds(events) && e in events && e.id >= 0
    ensures FindEvent(events, ShowNat(e.id)) == Some(e)
  {
    ParseShow(e.id);
    var r := FindEvent(events, ShowNat(e.id));
    var k :| 0 <= k < |events| && events[k] == e;
    assert IdMatches(e, ShowNat(e.id));
    var i :| 0 <= i < |events| && events[i] == r.value && IdMatches(r.value, ShowNat(e.id));
    if i < k {
      assert events[i].id != events[k].id;
    } else if k < i {
      assert events[i].id != events[k].id;
    }
  }

  /** The event field of the request: the checked titles joined by ", ", else the title of the event with the form's id. */
  function EventString(chosen: seq<string>, events: seq<Event>, key: string): (r: string)
    ensures |chosen| > 0 && (forall i :: 0 <= i < |chosen| ==> FreeOfSeparator(chosen[i])) ==> SplitList(r) == chosen
    ensures chosen == [] ==>
      r == (if FindEvent(events, key).Some? then FindEvent(events, key).value.title else "Unknown Event")
    ensures chosen == [] && (forall e :: e in events ==> !IdMatches(e, key)) ==> r == "Unknown Event"
  {
    if |chosen| > 0 then
      assert (forall i :: 0 <= i < |chosen| ==> FreeOfSeparator(chosen[i])) ==> SplitList(Join(chosen, ListSeparator)) == chosen by {
        if forall i :: 0 <= i < |chosen| ==> FreeOfSeparator(chosen[i]) {
          SplitJoin(chosen);
        }
      }
      Join(chosen, ListSeparator)
    else match FindEvent(events, key)
      case Some(e) => e.title
      case None => "Unknown Event"
  }

  /** With no box checked, the form's own event id names its event in the request. */
  lemma NoBoxNamesFormEvent(events: seq<Event>, e: Event)
    requires DistinctIds(events) && e in events && e.id >= 0
    ensures EventString([], events, ShowNat(e.id)) == e.title
  {
    FindsTheEvent(events, e);
  }

  /** `passType.includes('400') ? 400 : 250`: the amount posted. */
  function SubmittedAmount(pass: string): (amount: int)
    ensures amount == 400 <==> Includes(pass, "400")
    ensures amount == 250 <==> !Includes(pass, "400")
  {
    if Includes(pass, "400") then 400 else 250
  }

  /** The fee shown next to the pass select. */
  function FeeLabel(pass: string): string {
    if Includes(pass, "250") then "\U{20B9}250"
    else if Includes(pass, "400") then "\U{20B9}400"
    else "\U{20B9}0"
  }

  function Rupees(n: nat): string {
    "\U{20B9}" + ShowNat(n)
  }

  lemma {:induction false} IncludesAt(s: string, sub: string, i: int)
    requires OccursAt(s, sub, i)
    ensures Includes(s, sub)
  {
    IncludesIffOccurs(s, sub);
  }

  /** The fee shown is the amount charged exactly when the pass names one of the two amounts and not the other. */
  lemma FeeShownIsCharged(pass: string)
    ensures FeeLabel(pass) == Rupees(SubmittedAmount(pass)) <==> (Includes(pass, "250") != Includes(pass, "400"))
  {
    assert ShowNat(250) == "250" && ShowNat(400) == "400";
    assert Rupees(250) == "\U{20B9}250" && Rupees(400) == "\U{20B9}400";
    assert Rupees(400)[1] == '4';
    assert Rupees(250)[1] == '2';
    assert "\U{20B9}0"[1] == '0';
  }

  /** A single-day pass shows and charges 250. */
  lemma SingleDayPassFee(pass: string)
    requires pass == Day1Pass || pass == Day2Pass
    ensures FeeLabel(pass) == Rupees(SubmittedAmount(pass))
    ensures SubmittedAmount(pass) == 250
  {
    assert pass[13..16] == "250";
    IncludesAt(pass, "250", 13);
    NotIncludes(pass, "400");
    FeeShownIsCharged(pass);
  }

  /** The two-day pass shows and charges 400. */
  lemma TwoDaysPassFee()
    ensures FeeLabel(TwoDaysPass) == Rupees(SubmittedAmount(TwoDaysPass))
    ensures SubmittedAmount(TwoDaysPass) == 400
  {
    assert TwoDaysPass[14..17] == "400";
    IncludesAt(TwoDaysPass, "400", 14);
    NotIncludes(TwoDaysPass, "250");
    FeeShownIsCharged(TwoDaysPass);
  }

  /** With no pass chosen the form shows nothing to pay but posts 250. */
  lemma EmptyPassFee()
    ensures FeeLabel("") != Rupees(SubmittedAmount(""))
    ensures SubmittedAmount("") == 250
  {
    NotIncludes("", "400");
    NotIncludes("", "250");
    FeeShownIsCharged("");
  }

  /** A three-digit amount with one of its first two digits missing from the text is not in it. */
  lemma NotIncludes(s: string, sub: string)
    requires |sub| == 3 && (sub[0] !in s || sub[1] !in s)
    ensures !Includes(s, sub)
  {
    IncludesIffOccurs(s, sub);
    forall i ensures !OccursAt(s, sub, i) {
      if 0 <= i && i + 3 <= |s| {
        assert s[i..i + 3][0] == s[i] && s[i..i + 3][1] == s[i + 1];
        assert s[i] in s && s[i + 1] in s;
      }
    }
  }

  /** The most inputs the add button creates. */
  const MaxTeamInputs: nat := 4

  /** The submitted team: each input trimmed, blank ones dropped, in input order. */
  function NonBlank(values: seq<string>): (r: seq<string>)
    ensures |r| <= |values|
  {
    if values == [] then []
    else
      var init := NonBlank(values[..|values| - 1]);
      var trimmed := Trim(values[|values| - 1]);
      if trimmed != [] then init + [trimmed] else init
  }

  /** Each member posted is non-blank and already trimmed. */
  lemma {:induction false} NonBlankTrimmed(values: seq<string>)
    ensures forall m :: m in NonBlank(values) ==> m != [] && Trim(m) == m
  {
    if values != [] {
      NonBlankTrimmed(values[..|values| - 1]);
      TrimIdempotent(values[|values| - 1]);
    }
  }

  /** The last input is posted after the earlier ones exactly when it has a visible character. */
  lemma NonBlankLast(values: seq<string>)
    requires values != []
    ensures var n := |values| - 1;
      NonBlank(values) == NonBlank(values[..n]) + (if Trim(values[n]) != [] then [Trim(values[n])] else [])
  {
  }

  /** Every input with a visible character is posted, trimmed. */
  lemma {:induction false} NonBlankKeeps(values: seq<string>, i: int)
    requires 0 <= i < |values| && Trim(values[i]) != []
    ensures Trim(values[i]) in NonBlank(values)
  {
    var n := |values| - 1;
    var x := Trim(values[i]);
    var init := NonBlank(values[..n]);
    var tail := if Trim(values[n]) != [] then [Trim(values[n])] else [];
    NonBlankLast(values);
    assert NonBlank(values) == init + tail;
    if i < n {
      assert values[..n][i] == values[i];
      NonBlankKeeps(values[..n], i);
      assert x in init;
    } else {
      assert i == n && x != [];
      assert x in tail;
    }
  }

  /** Every member posted comes from an input. */
  lemma {:induction false} NonBlankFromInputs(values: seq<string>, m: string)
    requires m in NonBlank(values)
    ensures exists i :: 0 <= i < |values| && Trim(values[i]) == m
  {
    var n := |values| - 1;
    if m in NonBlank(values[..n]) {
      NonBlankFromInputs(values[..n], m);
      var i :| 0 <= i < n && Trim(values[..n][i]) == m;
      assert values[..n][i] == values[i];
    } else {
      assert Trim(values[n]) == m;
    }
  }

  /** The team-member inputs of the modal. */
  class TeamInputs {
    var values: seq<string>

    /** The add button never makes more than four inputs. */
    ghost predicate Valid()
      reads this
    {
      |values| <= MaxTeamInputs
    }

    /** The modal opens with no inputs. */
    constructor ()
      ensures Valid() && values == []
    {
      values := [];
    }

    /** The add button: a new empty input, unless four are already there. */
    method Add() returns (added: bool)
      modifies this
      ensures added <==> |old(values)| < MaxTeamInputs
      ensures values == if added then old(values) + [""] else old(values)
      ensures old(Valid()) ==> Valid()
    {
      var count := |values| + 1;
      if count > MaxTeamInputs {
        return false;
      }
      values := values + [""];
      added := true;
    }

    /** The cross next to input `i`. */
    method Remove(i: int)
      requires 0 <= i < |values|
      modifies this
      ensures values == old(values)[..i] + old(values)[i + 1..]
      ensures old(Valid()) ==> Valid()
    {
      values := values[..i] + values[i + 1..];
    }

    /** Typing into input `i`. */
    method Enter(i: int, text: string)
      requires 0 <= i < |values|
      modifies this
      ensures values == old(values)[i := text]
      ensures old(Valid()) ==> Valid()
    {
      values := values[i := text];
    }

    /** `resetForm` when the modal closes: every input removed. */
    method Clear()
      modifies this
      ensures values == [] && Valid()
    {
      values := [];
    }

    /** The team posted: the non-blank trimmed inputs when the team section is shown, else none. */
    method Collect(visible: bool) returns (members: seq<string>)
      ensures members == if visible then NonBlank(values) else []
      ensures Valid() ==> |members| <= MaxTeamInputs
    {
      members := [];
      if visible {
        for i := 0 to |values|
          invariant members == NonBlank(values[..i])
        {
          assert values[..i + 1][..i] == values[..i];
          var trimmed := Trim(values[i]);
          if trimmed != [] {
            members := members + [trimmed];
          }
        }
        assert values[..|values|] == values;
      }
    }
  }

  /** The team section is shown for team events. */
  predicate TeamVisible(e: Event) {
    e.kind == "TEAM" || e.kind == "BOTH"
  }

  /** The text inputs of the form. */
  datatype FormFields = FormFields(
    name: string, email: string, department: string, year: string,
    rollNo: string, college: string, phone: string)

  /** The body the form posts; the id input's text reaches the server as the number it spells. */
  function Submission(f: FormFields, pass: string, chosen: seq<string>, events: seq<Event>, key: string,
                      members: seq<string>): (b: RegisterBody)
    ensures b.amount == Some(SubmittedAmount(pass)) && b.passType == Some(pass)
    ensures b.event == Some(EventString(chosen, events, key)) && b.teamMembers == Some(members)
  {
    var id := ParseId(key);
    RegisterBody(Some(f.name), Some(f.email), Some(f.phone), Some(f.year),
                 Some(EventString(chosen, events, key)), if id.Some? then Some(id.value) else None,
                 Some(members), Some(pass), Some(SubmittedAmount(pass)),
                 Some(f.department), Some(f.rollNo), Some(f.college))
  }

  /**
   * When the server accepts a submission with checked titles, the stored
   * registration lists those titles, charges what the pass names, and starts
   * PENDING.
   */
  lemma SubmissionRecordsChoice(t: Tables, f: FormFields, pass: string, chosen: seq<string>,
                                events: seq<Event>, key: string, members: seq<string>)
    requires Consistent(t)
    requires |chosen| > 0 && chosen[0] != []
    requires forall i :: 0 <= i < |chosen| ==> FreeOfSeparator(chosen[i])
    ensures var b := Submission(f, pass, chosen, events, key, members);
      var s := Register(t, b);
      s.response.status == 200 ==>
      && var row := s.after.registrations[t.nextRegistrationId];
         && SplitList(row.event) == chosen
         && row.amount == SubmittedAmount(pass)
         && row.status == Pending
         && row.teamMembers == Some(members)
  {
    var b := Submission(f, pass, chosen, events, key, members);
    var text := EventString(chosen, events, key);
    JoinNonEmpty(chosen);
    assert Truthy(b.event);
  }

  lemma {:induction false} JoinNonEmpty(parts: seq<string>)
    requires |parts| > 0 && parts[0] != []
    ensures Join(parts, ListSeparator) != []
  {
  }

  /** The slide shown after slide `i` of `n`. */
  function NextSlide(i: nat, n: nat): (j: nat)
    requires i < n
    ensures j < n
  {
    (i + 1) % n
  }

  /** The slide shown after `k` ticks from the first. */
  function SlideAfter(k: nat, n: nat): (j: nat)
    requires n > 0
    ensures j < n
  {
    if k == 0 then 0 else NextSlide(SlideAfter(k - 1, n), n)
  }

  /** The first `n` ticks show the slides in order. */
  lemma {:induction false} SlidesInOrder(k: nat, n: nat)
    requires k < n
    ensures SlideAfter(k, n) == k
  {
    if k > 0 {
      SlidesInOrder(k - 1, n);
      ModSmall(k, n);
    }
  }

  lemma ModSmall(a: nat, n: nat)
    requires a < n
    ensures a % n == a
  {
  }

  /** After `n` ticks the slider is back where it was. */
  lemma {:induction false} SlidesRepeat(k: nat, n: nat)
    requires n > 0
    ensures SlideAfter(k + n, n) == SlideAfter(k, n)
  {
    if k == 0 {
      SlidesInOrder(n - 1, n);
    } else {
      SlidesRepeat(k - 1, n);
    }
  }
}
