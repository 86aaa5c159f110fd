/**
 * The Netlify functions: each answers a preflight, refuses the wrong method
 * and an unparseable body, and then hands the request to the shared logic.
 */
module Netlify {
  import opened Wrappers
  import opened JsValues
  import opened Schema
  import opened Store
  import opened Payment
  import opened Http
  import opened Auth
  import opened Registration
  import opened Admin

  const InvalidJsonBody: Response := Response(400, ErrorMessage("Invalid JSON body"))

  /**
   * The gating of the POST-only functions (`register`, `verify-payment`,
   * `create-order`); the body is None when `JSON.parse` throws. None lets
   * the request through.
   */
  function PostGate<T>(m: Method, body: Option<T>): (r: Option<Response>)
    ensures r.None? <==> m == Post && body.Some?
    ensures m == Options ==> r == Some(Preflight)
    ensures m != Options && m != Post ==> r == Some(MethodNotAllowed)
    ensures m == Post && body.None? ==> r == Some(InvalidJsonBody)
  {
    if m == Options then Some(Preflight)
    else if m != Post then Some(MethodNotAllowed)
    else if body.None? then Some(InvalidJsonBody)
    else None
  }

  /** `register`: a gated request leaves the database as it was; an admitted one is a registration. */
  function RegisterHandler(t: Tables, m: Method, body: Option<RegisterBody>): (s: Step)
    requires Consistent(t)
    ensures PostGate(m, body).Some? ==> s == Step(PostGate(m, body).value, t)
    ensures PostGate(m, body).None? ==> s == Register(t, body.value)
    ensures Consistent(s.after) && RegistrationsProgress(t.registrations, s.after.registrations)
  {
    match PostGate(m, body)
    case Some(r) => Step(r, t)
    case None => Register(t, body.value)
  }

  /** `verify-payment`: a gated request reads nothing and changes nothing; an admitted one is a confirmation. */
  function VerifyPaymentHandler(t: Tables, m: Method, body: Option<VerifyBody>, hmac: Hmac, secret: string): (s: Step)
    ensures PostGate(m, body).Some? ==> s == Step(PostGate(m, body).value, t)
    ensures PostGate(m, body).None? ==> s == VerifyPayment(t, body.value, hmac, secret)
    ensures RegistrationsProgress(t.registrations, s.after.registrations)
    ensures s.after.registrations != t.registrations ==> m == Post && body.Some? && Genuine(body.value, hmac, secret)
  {
    match PostGate(m, body)
    case Some(r) => Step(r, t)
    case None => VerifyPayment(t, body.value, hmac, secret)
  }

  /**
   * `create-order`: the gateway is asked once, for the rupee amount in paise,
   * and its order or its error message is the answer; nothing is retried.
   */
  function CreateOrderHandler(m: Method, body: Option<OrderBody>, gateway: Gateway): (r: Response)
    ensures PostGate(m, body).Some? ==> r == PostGate(m, body).value
    ensures PostGate(m, body).None? ==>
      match gateway(OrderRequestFor(body.value))
      case Success(order) => r == Response(200, GatewayOrder(order))
      case Failure(e) => r == Response(500, ErrorMessage(e))
  {
    match PostGate(m, body)
    case Some(refusal) => refusal
    case None =>
      match gateway(OrderRequestFor(body.value))
      case Success(order) => Response(200, GatewayOrder(order))
      case Failure(e) => Response(500, ErrorMessage(e))
  }

  /** An `admin-events` request: the body is None when it does not parse, `id` is the query parameter. */
  datatype AdminEventsRequest = AdminEventsRequest(verb: Method, headers: Headers, body: Option<EventFields>, id: Option<string>)

  /**
   * `admin-events`: preflight, then the token for every method, then the
   * dispatch. Existing fees never change and every new event costs 250.
   */
  function AdminEvents(t: Tables, q: AdminEventsRequest, verify: TokenVerifier): (s: Step)
    requires Consistent(t)
    ensures Consistent(s.after)
    ensures s.after == t.(events := s.after.events, nextEventId := s.after.nextEventId)
    ensures forall k :: k in s.after.events ==>
      if k in t.events then s.after.events[k].fee == t.events[k].fee else s.after.events[k].fee == AdminEventFee
    ensures q.verb == Options ==> s == Step(Preflight, t)
    ensures q.verb != Options && VerifyAdminToken(q.headers, verify).Unauthorized? ==>
      s == Step(NetlifyRefusal(VerifyAdminToken(q.headers, verify)), t)
    ensures VerifyAdminToken(q.headers, verify) == Authorized ==>
      match q.verb
      case Get => s == Step(ListEvents(t), t)
      case Post => s == if q.body.None? then Step(InvalidJson, t) else CreateEvent(t, q.body.value)
      case Put => s == if q.body.None? then Step(InvalidJson, t)
                       else if !Truthy(q.id) then Step(MissingId, t)
                       else UpdateEventById(t, q.id.value, q.body.value)
      case Delete => s == if !Truthy(q.id) then Step(MissingId, t) else DeleteEventById(t, q.id.value)
      case Options => true
      case OtherMethod(_) => s == Step(MethodNotAllowed, t)
  {
    if q.verb == Options then Step(Preflight, t)
    else
      var auth := VerifyAdminToken(q.headers, verify);
      if auth.Unauthorized? then Step(NetlifyRefusal(auth), t)
      else match q.verb
        case Get => Step(ListEvents(t), t)
        case Post => if q.body.None? then Step(InvalidJson, t) else CreateEvent(t, q.body.value)
        case Put =>
          if q.body.None? then Step(InvalidJson, t)
          else if !Truthy(q.id) then Step(MissingId, t)
          else UpdateEventById(t, q.id.value, q.body.value)
        case Delete => if !Truthy(q.id) then Step(MissingId, t) else DeleteEventById(t, q.id.value)
        case Options => Step(Preflight, t)
        case OtherMethod(_) => Step(MethodNotAllowed, t)
  }

  /** A PUT or DELETE without an id answers 400 and leaves the table alone, whatever else the request holds. */
  lemma MissingIdChangesNothing(t: Tables, q: AdminEventsRequest, verify: TokenVerifier)
    requires Consistent(t)
    requires VerifyAdminToken(q.headers, verify) == Authorized
    requires q.verb == Delete || (q.verb == Put && q.body.Some?)
    requires !Truthy(q.id)
    ensures AdminEvents(t, q, verify) == Step(MissingId, t)
  {
  }

  /** `admin-registrations`: method first, then the token, then the read-only listing. */
  function AdminRegistrations(t: Tables, m: Method, h: Headers, verify: TokenVerifier): (r: Response)
    requires Consistent(t)
    ensures m == Options ==> r == Preflight
    ensures m != Options && m != Get ==> r == MethodNotAllowed
    ensures m == Get && VerifyAdminToken(h, verify).Unauthorized? ==> r == NetlifyRefusal(VerifyAdminToken(h, verify))
    ensures r.body.RegistrationList? <==> m == Get && VerifyAdminToken(h, verify) == Authorized && t.online
    ensures r.body.RegistrationList? ==> r == ListRegistrations(t)
    ensures m == Get && VerifyAdminToken(h, verify) == Authorized ==> r == ListRegistrations(t)
  {
    if m == Options then Preflight
    else if m != Get then MethodNotAllowed
    else
      var auth := VerifyAdminToken(h, verify);
      if auth.Unauthorized? then NetlifyRefusal(auth)
      else ListRegistrations(t)
  }

  /** `register` against the live database. */
  method HandleRegister(db: Database, m: Method, body: Option<RegisterBody>) returns (resp: Response)
    requires db.Valid()
    modifies db
    ensures db.Valid()
    ensures Step(resp, db.State()) == RegisterHandler(old(db.State()), m, body)
  {
    var refusal := PostGate(m, body);
    if refusal.Some? {
      return refusal.value;
    }
    resp := CreateRegistration(db, body.value);
  }

  /** `verify-payment` against the live database; also the e-mail to send. */
  method HandleVerifyPayment(db: Database, m: Method, body: Option<VerifyBody>, hmac: Hmac, secret: string)
    returns (resp: Response, notice: Option<Notice>)
    requires db.Valid()
    modifies db
    ensures db.Valid()
    ensures Step(resp, db.State()) == VerifyPaymentHandler(old(db.State()), m, body, hmac, secret)
    ensures notice.Some? <==> resp == Verified
  {
    var refusal := PostGate(m, body);
    if refusal.Some? {
      return refusal.value, None;
    }
    resp, notice := ConfirmPayment(db, body.value, hmac, secret);
  }

  /** `admin-events` against the live database. */
  method HandleAdminEvents(db: Database, q: AdminEventsRequest, verify: TokenVerifier) returns (resp: Response)
    requires db.Valid()
    modifies db
    ensures db.Valid()
    ensures Step(resp, db.State()) == AdminEvents(old(db.State()), q, verify)
  {
    if q.verb == Options {
      return Preflight;
    }
    var auth := VerifyAdminToken(q.headers, verify);
    if auth.Unauthorized? {
      return NetlifyRefusal(auth);
    }
    match q.verb {
      case Get =>
        resp := ListEvents(db.State());
      case Post =>
        if q.body.None? {
          return InvalidJson;
        }
        if !db.online {
          return StoreFailure;
        }
        var id := db.InsertEvent(q.body.value, AdminEventFee);
        resp := if id.Some? then Response(200, EventCreated(id.value)) else StoreFailure;
      case Put =>
        if q.body.None? {
          return InvalidJson;
        }
        if !Truthy(q.id) {
          return MissingId;
        }
        var id := IdParam(q.id.value);
        if id.None? || !db.online {
          return StoreFailure;
        }
        var ok := db.UpdateEvent(id.value, q.body.value);
        resp := if ok then Response(200, Done) else StoreFailure;
      case Delete =>
        if !Truthy(q.id) {
          return MissingId;
        }
        var id := IdParam(q.id.value);
        if id.None? || !db.online {
          return StoreFailure;
        }
        db.DeleteEvent(id.value);
        resp := Response(200, Done);
      case Options =>
        resp := Preflight;
      case OtherMethod(_) =>
        resp := MethodNotAllowed;
    }
  }
}
