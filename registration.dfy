/**
 * Registration and payment confirmation, the logic shared by the Netlify
 * functions `register` and `verify-payment` and the matching Express routes:
 * a registration is inserted as PENDING and becomes PAID once the gateway's
 * signature on the payment checks out.
 */
module Registration {
  import opened Wrappers
  import opened JsValues
  import opened Schema
  import opened Store
  import opened Payment
  import opened Http

  /** The fields of a registration request; each may be missing. */
  datatype RegisterBody = RegisterBody(
    name: Option<string>,
    email: Option<string>,
    phone: Option<string>,
    year: Option<string>,
    event: Option<string>,
    eventId: Option<int>,
    teamMembers: Option<seq<string>>,
    passType: Option<string>,
    amount: Option<int>,
    department: Option<string>,
    rollNo: Option<string>,
    college: Option<string>)

  const MissingFields: Response := Response(400, ErrorMessage("Please fill all required fields."))
  const UnknownEvent: Response := Response(400, ErrorMessage("Invalid Event ID"))

  /** Every required field is truthy, and the event is named or identified. */
  predicate HasRequiredFields(b: RegisterBody) {
    Truthy(b.name) && Truthy(b.email) && Truthy(b.phone) && Truthy(b.year)
    && (Truthy(b.event) || TruthyNumber(b.eventId))
    && Truthy(b.passType) && TruthyNumber(b.amount)
    && Truthy(b.department) && Truthy(b.rollNo) && Truthy(b.college)
  }

  /** The event title stored with the registration: the given name, else the title of the event with the given id. */
  function ResolveTitle(b: RegisterBody, events: map<int, Event>): Option<string>
    requires HasRequiredFields(b)
  {
    if Truthy(b.event) then b.event
    else if b.eventId.value in events then Some(events[b.eventId.value].title)
    else None
  }

  /** A supplied name is used unchanged, and then the events table plays no part. */
  lemma SuppliedNameWins(b: RegisterBody, e1: map<int, Event>, e2: map<int, Event>)
    requires HasRequiredFields(b) && Truthy(b.event)
    ensures ResolveTitle(b, e1) == ResolveTitle(b, e2) == b.event
  {
  }

  /** Without a name the id decides: the title of that event, or nothing when no event has it. */
  lemma IdLookupWithoutName(b: RegisterBody, events: map<int, Event>)
    requires HasRequiredFields(b) && !Truthy(b.event)
    ensures TruthyNumber(b.eventId)
    ensures ResolveTitle(b, events).Some? <==> b.eventId.value in events
    ensures ResolveTitle(b, events).Some? ==> ResolveTitle(b, events).value == events[b.eventId.value].title
  {
  }

  /** The row the INSERT writes before the sequence assigns its id: PENDING, no payment id, team members as given. */
  function PendingRow(b: RegisterBody, title: string): Registration
    requires HasRequiredFields(b)
  {
    Registration(0, b.name.value, b.email.value, b.phone.value, b.year.value, title, b.teamMembers,
                 Pending, None, b.amount.value, b.passType.value, b.department.value, b.rollNo.value, b.college.value)
  }

  /**
   * The event id is only sent to the database when no title is given; the
   * SELECT then binds it to the `INTEGER` column, which fails out of range.
   */
  predicate LookupBinds(b: RegisterBody)
    requires HasRequiredFields(b)
  {
    Truthy(b.event) || IsInteger(b.eventId.value)
  }

  /** Whether a registration request gets through to the INSERT, whose `amount` must fit the `INTEGER` column. */
  predicate Accepted(t: Tables, b: RegisterBody) {
    && HasRequiredFields(b) && t.online && LookupBinds(b)
    && ResolveTitle(b, t.events).Some? && IsInteger(b.amount.value)
  }

  /**
   * A registration request after method and body gating: validation, title
   * resolution and the PENDING insert. Only an accepted request changes the
   * database, by exactly one new row holding the request's fields.
   */
  function Register(t: Tables, b: RegisterBody): (s: Step)
    requires Consistent(t)
    ensures s.after.events == t.events && s.after.nextEventId == t.nextEventId && s.after.online == t.online
    ensures RegistrationsProgress(t.registrations, s.after.registrations)
    ensures Consistent(s.after)
    ensures s.response.status == 200 <==> Accepted(t, b)
    ensures !Accepted(t, b) ==> s.after == t
    ensures !HasRequiredFields(b) ==> s.response == MissingFields
    ensures HasRequiredFields(b) && !t.online ==> s.response == StoreFailure
    ensures HasRequiredFields(b) && t.online && !LookupBinds(b) ==> s.response == StoreFailure
    ensures HasRequiredFields(b) && t.online && LookupBinds(b) && ResolveTitle(b, t.events).None? ==> s.response == UnknownEvent
    ensures HasRequiredFields(b) && t.online && LookupBinds(b) && ResolveTitle(b, t.events).Some? && !IsInteger(b.amount.value) ==>
      s.response == StoreFailure
    ensures Accepted(t, b) ==>
      var id := t.nextRegistrationId;
      && s.after.registrations.Keys == t.registrations.Keys + {id}
      && (forall k :: k in t.registrations ==> s.after.registrations[k] == t.registrations[k])
      && s.response == Response(200, Registered(id, b.amount.value))
      && var row := s.after.registrations[id];
         && row.id == id && row.status == Pending && row.paymentId == None
         && Some(row.event) == ResolveTitle(b, t.events) && row.teamMembers == b.teamMembers
         && row.amount == b.amount.value && row.passType == b.passType.value
         && row.name == b.name.value && row.email == b.email.value && row.phone == b.phone.value && row.year == b.year.value
         && row.department == b.department.value && row.rollNo == b.rollNo.value && row.college == b.college.value
  {
    if !HasRequiredFields(b) then Step(MissingFields, t)
    else if !t.online || !LookupBinds(b) then Step(StoreFailure, t)
    else match ResolveTitle(b, t.events)
      case None => Step(UnknownEvent, t)
      case Some(title) =>
        if !IsInteger(b.amount.value) then Step(StoreFailure, t)
        else Step(Response(200, Registered(t.nextRegistrationId, b.amount.value)), AddRegistration(t, PendingRow(b, title)))
  }

  /** The fields of a payment confirmation. */
  datatype VerifyBody = VerifyBody(
    orderId: Option<string>,
    paymentId: Option<string>,
    signature: Option<string>,
    registrationId: Option<int>)

  const InvalidSignature: Response := Response(400, SignatureRejected)
  const NotFound: Response := Response(500, ErrorMessage("Registration not found."))
  const Verified: Response := Response(200, PaymentVerified)

  /** The gateway's signature over the order and payment ids checks out under the shared secret. */
  predicate Genuine(b: VerifyBody, hmac: Hmac, secret: string) {
    SignatureValid(hmac, secret, b.orderId, b.paymentId, b.signature)
  }

  /** The registration id, when given, binds to the `INTEGER` column; an absent one is NULL and matches no row. */
  predicate IdBinds(b: VerifyBody) {
    b.registrationId.None? || IsInteger(b.registrationId.value)
  }

  /** The registration the confirmation names exists. */
  predicate Names(t: Tables, b: VerifyBody) {
    b.registrationId.Some? && IsInteger(b.registrationId.value) && b.registrationId.value in t.registrations
  }

  /**
   * A payment confirmation after method and body gating. The signature is
   * checked first and decides alone; only a genuine confirmation of an
   * existing registration changes anything, and then only that row's
   * (status, payment_id). The current status is not consulted.
   */
  function VerifyPayment(t: Tables, b: VerifyBody, hmac: Hmac, secret: string): (s: Step)
    ensures !Genuine(b, hmac, secret) ==> s == Step(InvalidSignature, t)
    ensures s.response == Verified <==> Genuine(b, hmac, secret) && t.online && Names(t, b)
    ensures Genuine(b, hmac, secret) && t.online && IdBinds(b) && !Names(t, b) ==> s.response == NotFound
    ensures Genuine(b, hmac, secret) && (!t.online || !IdBinds(b)) ==> s.response == StoreFailure
    ensures s.response != Verified ==> s.after == t
    ensures s.response == Verified ==>
      var id := b.registrationId.value;
      && s.after == t.(registrations := s.after.registrations)
      && s.after.registrations.Keys == t.registrations.Keys
      && (forall k :: k in t.registrations && k != id ==> s.after.registrations[k] == t.registrations[k])
      && s.after.registrations[id] == t.registrations[id].(status := Paid, paymentId := b.paymentId)
    ensures RegistrationsProgress(t.registrations, s.after.registrations)
    ensures Consistent(t) ==> Consistent(s.after)
  {
    if !Genuine(b, hmac, secret) then Step(InvalidSignature, t)
    else if !t.online || !IdBinds(b) then Step(StoreFailure, t)
    else if !Names(t, b) then Step(NotFound, t)
    else Step(Verified, t.(registrations := MarkPaid(t.registrations, b.registrationId.value, b.paymentId)))
  }

  /**
   * There is no guard on the current status: confirming an already PAID
   * registration again succeeds and replaces its payment id.
   */
  lemma ReverificationOverwrites(t: Tables, b1: VerifyBody, b2: VerifyBody, hmac: Hmac, secret: string)
    requires VerifyPayment(t, b1, hmac, secret).response == Verified
    requires Genuine(b2, hmac, secret) && b2.registrationId == b1.registrationId
    ensures var t1 := VerifyPayment(t, b1, hmac, secret).after;
      var s2 := VerifyPayment(t1, b2, hmac, secret);
      var id := b1.registrationId.value;
      && t1.registrations[id].status == Paid
      && s2.response == Verified
      && s2.after.registrations[id].status == Paid
      && s2.after.registrations[id].paymentId == b2.paymentId
  {
  }

  /** The arguments of the confirmation e-mail; sending it cannot change the response or the tables. */
  datatype Notice = Notice(to: string, name: string, eventTitle: string, registrationId: int, amount: int, passType: string)

  /** The e-mail for a confirmed registration, from the row as read before the update. */
  function TicketNotice(row: Registration, registrationId: int): (n: Notice)
    ensures n.to == row.email && n.eventTitle == row.event && n.registrationId == registrationId
  {
    Notice(row.email, row.name, row.event, registrationId, row.amount, row.passType)
  }

  /** The row read before the update and the row after it give the same e-mail. */
  lemma NoticeUnaffectedByUpdate(t: Tables, b: VerifyBody, hmac: Hmac, secret: string)
    requires VerifyPayment(t, b, hmac, secret).response == Verified
    ensures var id := b.registrationId.value;
      TicketNotice(VerifyPayment(t, b, hmac, secret).after.registrations[id], id) == TicketNotice(t.registrations[id], id)
  {
  }

  /** `handler` of `register` (and `/api/register`) once the body is parsed, against the live database. */
  method CreateRegistration(db: Database, b: RegisterBody) returns (resp: Response)
    requires db.Valid()
    modifies db
    ensures db.Valid()
    ensures Step(resp, db.State()) == Register(old(db.State()), b)
  {
    if !HasRequiredFields(b) {
      return MissingFields;
    }
    if !db.online {
      return StoreFailure;
    }
    var title := b.event;
    if !Truthy(title) {
      if !IsInteger(b.eventId.value) {
        return StoreFailure;
      }
      title := db.FindEventTitle(b.eventId.value);
      if title.None? {
        return UnknownEvent;
      }
    }
    if !IsInteger(b.amount.value) {
      return StoreFailure;
    }
    var id := db.InsertRegistration(PendingRow(b, title.value));
    resp := Response(200, Registered(id, b.amount.value));
  }

  /**
   * `handler` of `verify-payment` (and `/api/verify-payment`) once the body is
   * parsed: the response, and the e-mail to send when the payment is confirmed.
   */
  method ConfirmPayment(db: Database, b: VerifyBody, hmac: Hmac, secret: string) returns (resp: Response, notice: Option<Notice>)
    requires db.Valid()
    modifies db
    ensures db.Valid()
    ensures Step(resp, db.State()) == VerifyPayment(old(db.State()), b, hmac, secret)
    ensures notice.Some? <==> resp == Verified
    ensures notice.Some? ==> notice.value == TicketNotice(old(db.registrations)[b.registrationId.value], b.registrationId.value)
  {
    notice := None;
    if ExpectedSignature(hmac, secret, b.orderId, b.paymentId) != b.signature.GetOr("") || b.signature.None? {
      return InvalidSignature, None;
    }
    if !db.online || !IdBinds(b) {
      return StoreFailure, None;
    }
    if b.registrationId.None? {
      return NotFound, None;
    }
    var id := b.registrationId.value;
    var row := db.FindRegistration(id);
    if row.None? {
      return NotFound, None;
    }
    db.UpdatePaid(id, b.paymentId);
    resp := Verified;
    notice := Some(TicketNotice(row.value, id));
  }
}
