/**
 * The two tables of the festival database, their column constraints, and
 * the registration status that moves from PENDING to PAID.
 */
module Schema {
  import opened Wrappers
  import opened JsValues

  /** The values the CHECK constraint on `events.category` admits. */
  const Categories: set<string> := {"technical", "non-technical", "day1", "day2", "sports"}

  /** The values the CHECK constraint on `events.type` admits. */
  const EventTypes: set<string> := {"SOLO", "TEAM", "BOTH"}

  /** The bounds of PostgreSQL's four-byte `INTEGER`, the type of every id and of `registrations.amount`. */
  const MinInteger: int := -0x8000_0000
  const MaxInteger: int := 0x7fff_ffff

  /**
   * A parameter bound to an `INTEGER` column or compared with one must lie in
   * range; any other value makes the query fail ("out of range for type integer").
   */
  predicate IsInteger(n: int) {
    MinInteger <= n <= MaxInteger
  }

  /** The column default of `events.fee`. */
  const DefaultEventFee: int := 500

  /** The fee every event created from the admin panel gets. */
  const AdminEventFee: int := 250

  /** A row of `events`; `kind` is the `type` column. */
  datatype Event = Event(
    id: int,
    title: string,
    description: Option<string>,
    category: string,
    kind: string,
    fee: int,
    imageColor: Option<string>,
    icon: Option<string>,
    ruleBook: Option<string>,
    coordinators: Option<string>,
    day: Option<string>)

  /** The CHECK constraints of `events`. */
  predicate SatisfiesChecks(e: Event) {
    e.category in Categories && e.kind in EventTypes
  }

  /** The nine columns an admin request writes: title, description, day, category, type, image_color, icon, rule_book, coordinators. */
  datatype EventFields = EventFields(
    title: Option<string>,
    description: Option<string>,
    day: Option<string>,
    category: Option<string>,
    kind: Option<string>,
    imageColor: Option<string>,
    icon: Option<string>,
    ruleBook: JsValue,
    coordinators: JsValue)

  /** The nine columns satisfy NOT NULL on title, category and type and both CHECK constraints. */
  predicate Admissible(f: EventFields) {
    f.title.Some? && f.category.Some? && f.category.value in Categories && f.kind.Some? && f.kind.value in EventTypes
  }

  /** The row that the nine columns make with the given id and fee. */
  function EventRow(f: EventFields, id: int, fee: int): (e: Event)
    requires Admissible(f)
    ensures SatisfiesChecks(e)
  {
    Event(id, f.title.value, f.description, f.category.value, f.kind.value, fee, f.imageColor,
          f.icon, ColumnText(f.ruleBook), ColumnText(f.coordinators), f.day)
  }

  /** `registrations.status`; the column default is PENDING. */
  datatype Status = Pending | Paid

  /** A row of `registrations` (the creation timestamp is not modelled). */
  datatype Registration = Registration(
    id: int,
    name: string,
    email: string,
    phone: string,
    year: string,
    event: string,
    teamMembers: Option<seq<string>>,
    status: Status,
    paymentId: Option<string>,
    amount: int,
    passType: string,
    department: string,
    rollNo: string,
    college: string)

  /** Two rows agree on everything but the (status, payment_id) pair. */
  predicate SameApplicant(a: Registration, b: Registration) {
    a.(status := Pending, paymentId := None) == b.(status := Pending, paymentId := None)
  }

  /**
   * How the registrations table may evolve: no row disappears, a row changes
   * only in its (status, payment_id) pair, and a PAID row stays PAID.
   */
  predicate RegistrationsProgress(before: map<int, Registration>, after: map<int, Registration>) {
    forall id :: id in before ==>
      id in after && SameApplicant(before[id], after[id]) && (before[id].status == Paid ==> after[id].status == Paid)
  }

  /** Progress is a preorder: it composes over a sequence of requests. */
  lemma ProgressTransitive(a: map<int, Registration>, b: map<int, Registration>, c: map<int, Registration>)
    requires RegistrationsProgress(a, b) && RegistrationsProgress(b, c)
    ensures RegistrationsProgress(a, c)
  {
  }
}

/**
 * The database as the handlers see it: both tables keyed by id, the two
 * SERIAL sequences, and whether queries reach the server at all.
 */
module Store {
  import opened Wrappers
  import opened Schema

  /** A snapshot of the database. */
  datatype Tables = Tables(
    events: map<int, Event>,
    registrations: map<int, Registration>,
    nextEventId: int,
    nextRegistrationId: int,
    online: bool)

  /** Primary keys come from the sequences, each row carries its key, and events satisfy their CHECK constraints. */
  predicate Consistent(t: Tables) {
    1 <= t.nextEventId && 1 <= t.nextRegistrationId
    && (forall id :: id in t.events ==> 1 <= id < t.nextEventId && t.events[id].id == id && SatisfiesChecks(t.events[id]))
    && (forall id :: id in t.registrations ==> 1 <= id < t.nextRegistrationId && t.registrations[id].id == id)
  }

  /** `INSERT INTO registrations ... RETURNING id`: the row gets the next sequence value. */
  function AddRegistration(t: Tables, r: Registration): Tables {
    var id := t.nextRegistrationId;
    t.(registrations := t.registrations[id := r.(id := id)], nextRegistrationId := id + 1)
  }

  /** `UPDATE registrations SET status = 'PAID', payment_id = $1 WHERE id = $2`. */
  function MarkPaid(regs: map<int, Registration>, id: int, paymentId: Option<string>): (r: map<int, Registration>)
    ensures r.Keys == regs.Keys
    ensures id in regs ==> r[id].status == Paid && r[id].paymentId == paymentId && SameApplicant(regs[id], r[id])
    ensures forall k :: k in regs && k != id ==> r[k] == regs[k]
    ensures RegistrationsProgress(regs, r)
  {
    if id in regs then regs[id := regs[id].(status := Paid, paymentId := paymentId)] else regs
  }

  /**
   * `INSERT INTO events ... RETURNING id`. The sequence value is taken even when
   * a constraint rejects the row, so a failed insert leaves a gap in the ids.
   */
  function AddEvent(t: Tables, f: EventFields, fee: int): Tables {
    var id := t.nextEventId;
    t.(events := if Admissible(f) then t.events[id := EventRow(f, id, fee)] else t.events, nextEventId := id + 1)
  }

  /**
   * The INSERT always advances the sequence; it adds one row, under the old
   * sequence value, exactly when the columns pass the constraints, and keeps
   * every existing row and the consistency of the tables.
   */
  lemma AddEventMeaning(t: Tables, f: EventFields, fee: int)
    requires Consistent(t)
    ensures var r := AddEvent(t, f, fee);
      && r == t.(events := r.events, nextEventId := t.nextEventId + 1)
      && r.events.Keys == t.events.Keys + (if Admissible(f) then {t.nextEventId} else {})
      && (Admissible(f) ==> t.nextEventId !in t.events && r.events[t.nextEventId] == EventRow(f, t.nextEventId, fee))
      && (forall k :: k in t.events ==> r.events[k] == t.events[k])
      && Consistent(r)
  {
  }

  /** The row that `UPDATE events SET <nine columns> WHERE id` leaves: id and fee are kept. */
  function Rewritten(e: Event, f: EventFields): (r: Event)
    requires Admissible(f)
    ensures r.id == e.id && r.fee == e.fee && SatisfiesChecks(r)
  {
    EventRow(f, e.id, e.fee)
  }

  /** The nine-column UPDATE: None when the matched row would break a constraint; no match changes nothing. */
  function RewriteEvent(events: map<int, Event>, id: int, f: EventFields): (r: Option<map<int, Event>>)
    ensures r.Some? <==> id !in events || Admissible(f)
    ensures r.Some? ==> r.value.Keys == events.Keys && forall k :: k in events && k != id ==> r.value[k] == events[k]
    ensures id !in events ==> r == Some(events)
    ensures r.Some? && id in events ==>
      r.value[id].id == events[id].id && r.value[id].fee == events[id].fee && SatisfiesChecks(r.value[id])
  {
    if id !in events then Some(events)
    else if Admissible(f) then Some(events[id := Rewritten(events[id], f)])
    else None
  }

  /** Ids of `ids` in [1, hi), largest first. */
  function IdsDescending(ids: set<int>, hi: int): (r: seq<int>)
    ensures forall i, j :: 0 <= i < j < |r| ==> r[i] > r[j]
    ensures forall k :: k in r <==> k in ids && 1 <= k < hi
    decreases hi
  {
    if hi <= 1 then []
    else
      var rest := IdsDescending(ids, hi - 1);
      assert forall j :: 0 <= j < |rest| ==> rest[j] in rest && rest[j] < hi - 1;
      if hi - 1 in ids then [hi - 1] + rest else rest
  }

  /** Ids of `ids` in [1, hi), smallest first. */
  function IdsAscending(ids: set<int>, hi: int): (r: seq<int>)
    ensures forall i, j :: 0 <= i < j < |r| ==> r[i] < r[j]
    ensures forall k :: k in r <==> k in ids && 1 <= k < hi
    decreases hi
  {
    if hi <= 1 then []
    else
      var rest := IdsAscending(ids, hi - 1);
      assert forall j :: 0 <= j < |rest| ==> rest[j] in rest && rest[j] < hi - 1;
      if hi - 1 in ids then rest + [hi - 1] else rest
  }

  predicate NewestFirst(rows: seq<Registration>) {
    forall i, j :: 0 <= i < j < |rows| ==> rows[i].id > rows[j].id
  }

  /** `SELECT * FROM registrations ORDER BY id DESC`: every row once, newest first. */
  function RegistrationsNewestFirst(t: Tables): (rows: seq<Registration>)
    requires Consistent(t)
    ensures NewestFirst(rows)
    ensures forall r :: r in rows <==> r in t.registrations.Values
  {
    var ids := IdsDescending(t.registrations.Keys, t.nextRegistrationId);
    var rows := seq(|ids|, i requires 0 <= i < |ids| => t.registrations[ids[i]]);
    assert forall r :: r in t.registrations.Values ==> r in rows by {
      forall r | r in t.registrations.Values ensures r in rows {
        var k :| k in t.registrations && t.registrations[k] == r;
        var i :| 0 <= i < |ids| && ids[i] == k;
        assert rows[i] == r;
      }
    }
    rows
  }

  /** `SELECT * FROM events ORDER BY id ASC`: every row once, oldest first. */
  function EventsOldestFirst(t: Tables): (rows: seq<Event>)
    requires Consistent(t)
    ensures forall i, j :: 0 <= i < j < |rows| ==> rows[i].id < rows[j].id
    ensures forall e :: e in rows <==> e in t.events.Values
  {
    var ids := IdsAscending(t.events.Keys, t.nextEventId);
    var rows := seq(|ids|, i requires 0 <= i < |ids| => t.events[ids[i]]);
    assert forall e :: e in t.events.Values ==> e in rows by {
      forall e | e in t.events.Values ensures e in rows {
        var k :| k in t.events && t.events[k] == e;
        var i :| 0 <= i < |ids| && ids[i] == k;
        assert rows[i] == e;
      }
    }
    rows
  }

  /** The newest-first order determines the listing: two newest-first sequences of the same rows are equal. */
  lemma {:induction false} NewestFirstUnique(a: seq<Registration>, b: seq<Registration>)
    requires NewestFirst(a) && NewestFirst(b)
    requires forall r :: r in a <==> r in b
    ensures a == b
  {
    if a != [] || b != [] {
      var x := if a != [] then a[0] else b[0];
      assert x in a && x in b;
      assert |a| > 0 && |b| > 0;
      HeadsAgree(a, b);
      TailsAgree(a, b);
      NewestFirstUnique(a[1..], b[1..]);
      assert a == [a[0]] + a[1..];
      assert b == [b[0]] + b[1..];
    }
  }

  /** The newest row comes first in both. */
  lemma HeadsAgree(a: seq<Registration>, b: seq<Registration>)
    requires |a| > 0 && |b| > 0
    requires NewestFirst(a) && NewestFirst(b)
    requires forall r :: r in a <==> r in b
    ensures a[0] == b[0]
  {
    assert a[0] in b;
    var k :| 0 <= k < |b| && b[k] == a[0];
    assert b[0] in a;
    var m :| 0 <= m < |a| && a[m] == b[0];
    assert a[0].id >= a[m].id;
    assert b[0].id >= b[k].id;
  }

  /** With equal heads, the rest of the two listings hold the same rows. */
  lemma TailsAgree(a: seq<Registration>, b: seq<Registration>)
    requires |a| > 0 && |b| > 0 && a[0] == b[0]
    requires NewestFirst(a) && NewestFirst(b)
    requires forall r :: r in a <==> r in b
    ensures forall r :: r in a[1..] <==> r in b[1..]
  {
    forall r | r in a[1..] ensures r in b[1..] {
      var i :| 1 <= i < |a| && a[i] == r;
      assert r in a;
      var j :| 0 <= j < |b| && b[j] == r;
      assert a[0].id > a[i].id;
      assert j != 0;
      assert b[1..][j - 1] == r;
    }
    forall r | r in b[1..] ensures r in a[1..] {
      var j :| 1 <= j < |b| && b[j] == r;
      assert r in b;
      var i :| 0 <= i < |a| && a[i] == r;
      assert b[0].id > b[j].id;
      assert i != 0;
      assert a[1..][i - 1] == r;
    }
  }

  /** The database connection pool, with the two tables behind it. */
  class Database {
    var events: map<int, Event>
    var registrations: map<int, Registration>
    var nextEventId: int
    var nextRegistrationId: int
    var online: bool

    /** The current contents. */
    function State(): Tables
      reads this
    {
      Tables(events, registrations, nextEventId, nextRegistrationId, online)
    }

    ghost predicate Valid()
      reads this
    {
      Consistent(State())
    }

    /** A freshly created database: both tables empty, both sequences at 1. */
    constructor (online: bool)
      ensures Valid() && State() == Tables(map[], map[], 1, 1, online)
    {
      events, registrations := map[], map[];
      nextEventId, nextRegistrationId := 1, 1;
      this.online := online;
    }

    /** `INSERT INTO registrations (...) VALUES (...) RETURNING id`. */
    method InsertRegistration(r: Registration) returns (id: int)
      requires Valid() && online
      modifies this
      ensures Valid()
      ensures id == old(nextRegistrationId)
      ensures State() == AddRegistration(old(State()), r)
    {
      id := nextRegistrationId;
      registrations := registrations[id := r.(id := id)];
      nextRegistrationId := id + 1;
    }

    /** `SELECT * FROM registrations WHERE id = $1`. */
    method FindRegistration(id: int) returns (row: Option<Registration>)
      requires online
      ensures row.Some? <==> id in registrations
      ensures row.Some? ==> row.value == registrations[id]
    {
      row := if id in registrations then Some(registrations[id]) else None;
    }

    /** `UPDATE registrations SET status = 'PAID', payment_id = $1 WHERE id = $2`. */
    method UpdatePaid(id: int, paymentId: Option<string>)
      requires Valid() && online
      modifies this
      ensures Valid()
      ensures State() == old(State()).(registrations := MarkPaid(old(registrations), id, paymentId))
    {
      registrations := MarkPaid(registrations, id, paymentId);
    }

    /** `SELECT title FROM events WHERE id = $1`. */
    method FindEventTitle(id: int) returns (title: Option<string>)
      requires online
      ensures title.Some? <==> id in events
      ensures title.Some? ==> title.value == events[id].title
    {
      title := if id in events then Some(events[id].title) else None;
    }

    /** `INSERT INTO events (...) VALUES (...) RETURNING id`; `id` is None when a constraint rejects the row. */
    method InsertEvent(f: EventFields, fee: int) returns (id: Option<int>)
      requires Valid() && online
      modifies this
      ensures Valid()
      ensures State() == AddEvent(old(State()), f, fee)
      ensures id == if Admissible(f) then Some(old(nextEventId)) else None
    {
      var n := nextEventId;
      nextEventId := n + 1;
      if Admissible(f) {
        events := events[n := EventRow(f, n, fee)];
        id := Some(n);
      } else {
        id := None;
      }
    }

    /** `UPDATE events SET <nine columns> WHERE id = $10`; false when a constraint rejects the new values. */
    method UpdateEvent(id: int, f: EventFields) returns (ok: bool)
      requires Valid() && online
      modifies this
      ensures Valid()
      ensures ok == RewriteEvent(old(events), id, f).Some?
      ensures State() == if ok then old(State()).(events := RewriteEvent(old(events), id, f).value) else old(State())
    {
      var r := RewriteEvent(events, id, f);
      ok := r.Some?;
      if ok {
        events := r.value;
      }
    }

    /** `DELETE FROM events WHERE id = $1`: removing an id that is not there is not an error. */
    method DeleteEvent(id: int)
      requires Valid() && online
      modifies this
      ensures Valid()
      ensures State() == old(State()).(events := old(events) - {id})
    {
      events := events - {id};
    }
  }
}
