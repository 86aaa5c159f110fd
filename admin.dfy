/**
 * The admin operations on the events table, shared by the Netlify
 * `admin-events` function and the Express admin routes: create with the
 * fixed fee, rewrite the nine editable columns, delete, and the two listings.
 */
module Admin {
  import opened Wrappers
  import opened JsValues
  import opened Schema
  import opened Store
  import opened Http

  const MissingId: Response := Response(400, ErrorMessage("Missing event id in query params"))
  const InvalidJson: Response := Response(400, ErrorMessage("Invalid JSON"))

  /**
   * The id an UPDATE or DELETE is given, as PostgreSQL reads the text parameter
   * against the `INTEGER` column: None is a query error, for text that is not
   * a number and for a number beyond the column's range.
   */
  function IdParam(s: string): (r: Option<int>)
    ensures r.Some? <==> ParseId(s).Some? && ParseId(s).value <= MaxInteger
    ensures r.Some? ==> 0 <= r.value <= MaxInteger && IsInteger(r.value)
    ensures forall n: nat :: s == ShowNat(n) ==> r == (if n <= MaxInteger then Some(n) else None)
  {
    ParseShowAll(s);
    match ParseId(s)
    case Some(n) => if n <= MaxInteger then Some(n) else None
    case None => None
  }

  /** Every decimal rendering of a number parses back to it. */
  lemma ParseShowAll(s: string)
    ensures forall n: nat :: s == ShowNat(n) ==> ParseId(s) == Some(n)
  {
    forall n: nat | s == ShowNat(n)
      ensures ParseId(s) == Some(n)
    {
      ParseShow(n);
    }
  }

  /** An admin creates an event: fee 250 whatever the request says, and an id taken even when a constraint refuses the row. */
  function CreateEvent(t: Tables, f: EventFields): (s: Step)
    requires Consistent(t)
    ensures Consistent(s.after)
    ensures s.after.registrations == t.registrations && s.after.nextRegistrationId == t.nextRegistrationId
    ensures s.after.online == t.online
    ensures forall k :: k in t.events ==> k in s.after.events && s.after.events[k] == t.events[k]
    ensures s.response.status == 200 <==> t.online && Admissible(f)
    ensures s.response.status == 200 ==>
      var id := t.nextEventId;
      && s.response == Response(200, EventCreated(id))
      && s.after.events.Keys == t.events.Keys + {id}
      && s.after.events[id].fee == AdminEventFee
      && s.after.events[id] == EventRow(f, id, AdminEventFee)
    ensures s.response.status != 200 ==> s.response == StoreFailure && s.after.events == t.events
    ensures t.online ==> s.after.nextEventId == t.nextEventId + 1
    ensures !t.online ==> s.after == t
  {
    if !t.online then Step(StoreFailure, t)
    else
      var after := AddEvent(t, f, AdminEventFee);
      if Admissible(f) then Step(Response(200, EventCreated(t.nextEventId)), after)
      else Step(StoreFailure, after)
  }

  /**
   * An admin rewrites the event with the given id. The fee and every other row
   * are kept; no matching row is still a success.
   */
  function UpdateEvent(t: Tables, id: int, f: EventFields): (s: Step)
    requires Consistent(t)
    ensures Consistent(s.after)
    ensures s.after == t.(events := s.after.events)
    ensures s.after.events.Keys == t.events.Keys
    ensures forall k :: k in t.events ==> s.after.events[k].fee == t.events[k].fee
    ensures forall k :: k in t.events && k != id ==> s.after.events[k] == t.events[k]
    ensures s.response == Response(200, Done) <==> t.online && (id !in t.events || Admissible(f))
    ensures s.response != Response(200, Done) ==> s.response == StoreFailure && s.after == t
    ensures id !in t.events ==> s.after == t
    ensures s.response == Response(200, Done) && id in t.events ==>
      s.after.events[id] == EventRow(f, id, t.events[id].fee)
  {
    if !t.online then Step(StoreFailure, t)
    else match RewriteEvent(t.events, id, f)
      case None => Step(StoreFailure, t)
      case Some(events) => Step(Response(200, Done), t.(events := events))
  }

  /** An admin deletes the event with the given id; an id with no row is still a success. */
  function DeleteEvent(t: Tables, id: int): (s: Step)
    requires Consistent(t)
    ensures Consistent(s.after)
    ensures s.after == t.(events := s.after.events)
    ensures s.response == (if t.online then Response(200, Done) else StoreFailure)
    ensures t.online ==> id !in s.after.events && s.after.events.Keys == t.events.Keys - {id}
    ensures forall k :: k in s.after.events ==> k in t.events && s.after.events[k] == t.events[k]
    ensures !t.online ==> s.after == t
  {
    if !t.online then Step(StoreFailure, t)
    else Step(Response(200, Done), t.(events := t.events - {id}))
  }

  /** UPDATE with the id as the request gives it, as text: an id PostgreSQL cannot read as an `INTEGER` is a query error. */
  function UpdateEventById(t: Tables, idText: string, f: EventFields): (s: Step)
    requires Consistent(t)
    ensures Consistent(s.after) && s.after == t.(events := s.after.events)
    ensures IdParam(idText).None? ==> s == Step(StoreFailure, t)
    ensures ParseId(idText).Some? && ParseId(idText).value > MaxInteger ==> s == Step(StoreFailure, t)
    ensures IdParam(idText).Some? ==> s == UpdateEvent(t, IdParam(idText).value, f)
  {
    match IdParam(idText)
    case None => Step(StoreFailure, t)
    case Some(id) => UpdateEvent(t, id, f)
  }

  /** DELETE with the id as the request gives it, as text: an id PostgreSQL cannot read as an `INTEGER` is a query error. */
  function DeleteEventById(t: Tables, idText: string): (s: Step)
    requires Consistent(t)
    ensures Consistent(s.after) && s.after == t.(events := s.after.events)
    ensures IdParam(idText).None? ==> s == Step(StoreFailure, t)
    ensures ParseId(idText).Some? && ParseId(idText).value > MaxInteger ==> s == Step(StoreFailure, t)
    ensures IdParam(idText).Some? ==> s == DeleteEvent(t, IdParam(idText).value)
  {
    match IdParam(idText)
    case None => Step(StoreFailure, t)
    case Some(id) => DeleteEvent(t, id)
  }

  /** Deleting twice is deleting once. */
  lemma DeleteIdempotent(t: Tables, id: int)
    requires Consistent(t)
    ensures DeleteEvent(DeleteEvent(t, id).after, id) == DeleteEvent(t, id)
  {
  }

  /** A created event keeps its fee of 250 through every later rewrite. */
  lemma CreatedFeeSurvivesUpdates(t: Tables, f: EventFields, id: int, g: EventFields)
    requires Consistent(t)
    requires CreateEvent(t, f).response.status == 200
    ensures var t1 := CreateEvent(t, f).after;
      var t2 := UpdateEvent(t1, id, g).after;
      t2.events[t.nextEventId].fee == AdminEventFee
  {
  }

  /** `SELECT * FROM events ORDER BY id ASC`: every event, oldest first. */
  function ListEvents(t: Tables): (r: Response)
    requires Consistent(t)
    ensures r.status == 200 <==> t.online
    ensures r.status == 200 ==>
      && r.body.EventList?
      && (forall e :: e in r.body.events <==> e in t.events.Values)
      && (forall i, j :: 0 <= i < j < |r.body.events| ==> r.body.events[i].id < r.body.events[j].id)
    ensures r.status != 200 ==> r == StoreFailure
  {
    if t.online then Response(200, EventList(EventsOldestFirst(t))) else StoreFailure
  }

  /** `SELECT * FROM registrations ORDER BY id DESC`: every registration, newest first. */
  function ListRegistrations(t: Tables): (r: Response)
    requires Consistent(t)
    ensures r.status == 200 <==> t.online
    ensures r.status == 200 ==>
      && r.body.RegistrationList?
      && NewestFirst(r.body.registrations)
      && (forall x :: x in r.body.registrations <==> x in t.registrations.Values)
    ensures r.status != 200 ==> r == StoreFailure
  {
    if t.online then Response(200, RegistrationList(RegistrationsNewestFirst(t))) else StoreFailure
  }

  /** The listing is the only newest-first sequence of the table's rows. */
  lemma RegistrationListingDetermined(t: Tables, rows: seq<Registration>)
    requires Consistent(t) && t.online
    requires NewestFirst(rows) && (forall x :: x in rows <==> x in t.registrations.Values)
    ensures ListRegistrations(t) == Response(200, RegistrationList(rows))
  {
    NewestFirstUnique(RegistrationsNewestFirst(t), rows);
  }
}
