/**
 * The Express server's copies of the same endpoints. Its routes fix the
 * method and parse the body before the handler runs, so only the handler
 * logic is modelled; the admin routes sit behind `requireAdminAuth`.
 */
module Express {
  import opened Wrappers
  import opened JsValues
  import opened Schema
  import opened Store
  import opened Payment
  import opened Http
  import opened Auth
  import opened Registration
  import opened Admin
  import opened Netlify

  /** `ADMIN_USERNAME` and `ADMIN_PASSWORD` from the environment; either may be unset. */
  datatype Credentials = Credentials(username: Option<string>, password: Option<string>)

  /** `jwt.sign({ username, role: 'admin' }, JWT_SECRET, { expiresIn: '8h' })`. */
  type Signer = Option<string> -> string

  const InvalidCredentials: Response := Response(401, Refused("Invalid credentials"))

  /** `/api/admin/login`: a token exactly when both fields are strictly equal to the configured values. */
  function Login(username: Option<string>, password: Option<string>, configured: Credentials, sign: Signer): (r: Response)
    ensures r.status == 200 <==> username == configured.username && password == configured.password
    ensures r.status == 200 ==> r.body == LoggedIn(sign(username))
    ensures r.status != 200 ==> r == InvalidCredentials
  {
    if username == configured.username && password == configured.password then Response(200, LoggedIn(sign(username)))
    else InvalidCredentials
  }

  /**
   * Strict equality makes an unset value match an omitted field: with neither
   * variable configured, a request that sends neither field gets a token.
   */
  lemma UnconfiguredLoginAdmitsEmptyRequest(sign: Signer)
    ensures Login(None, None, Credentials(None, None), sign).status == 200
  {
  }

  /** A configured login is refused to anyone who omits a field. */
  lemma ConfiguredLoginNeedsBothFields(username: Option<string>, password: Option<string>, configured: Credentials, sign: Signer)
    requires configured.username.Some? && configured.password.Some?
    requires username.None? || password.None?
    ensures Login(username, password, configured, sign) == InvalidCredentials
  {
  }

  /** `/api/create-order`: the same gateway request as the Netlify function, without the method and body gating. */
  function CreateOrderRoute(b: OrderBody, gateway: Gateway): (r: Response)
    ensures r.status == 200 <==> gateway(OrderRequestFor(b)).Success?
    ensures r.status == 200 ==> r.body == GatewayOrder(gateway(OrderRequestFor(b)).value)
    ensures r.status != 200 ==> r == Response(500, ErrorMessage(gateway(OrderRequestFor(b)).error))
  {
    match gateway(OrderRequestFor(b))
    case Success(order) => Response(200, GatewayOrder(order))
    case Failure(e) => Response(500, ErrorMessage(e))
  }

  /**
   * Past their gating, the Netlify functions `register`, `verify-payment` and
   * `create-order` behave as the Express routes.
   */
  lemma PublicEndpointsAgree(t: Tables, rb: RegisterBody, vb: VerifyBody, ob: OrderBody, hmac: Hmac, secret: string, gateway: Gateway)
    requires Consistent(t)
    ensures RegisterHandler(t, Post, Some(rb)) == Register(t, rb)
    ensures VerifyPaymentHandler(t, Post, Some(vb), hmac, secret) == VerifyPayment(t, vb, hmac, secret)
    ensures CreateOrderHandler(Post, Some(ob), gateway) == CreateOrderRoute(ob, gateway)
  {
  }

  /** An admin route behind `requireAdminAuth`: a refused request leaves the database as it was. */
  function Guarded(t: Tables, h: Headers, verify: TokenVerifier, route: Step): (s: Step)
    ensures RequireAdminAuth(h, verify).Some? ==> s == Step(RequireAdminAuth(h, verify).value, t)
    ensures RequireAdminAuth(h, verify).None? ==> s == route
  {
    match RequireAdminAuth(h, verify)
    case Some(refusal) => Step(refusal, t)
    case None => route
  }

  /** `requireAdminAuth` passes the request on to the route. */
  predicate Admitted(h: Headers, verify: TokenVerifier) {
    RequireAdminAuth(h, verify).None?
  }

  /**
   * `POST /api/admin/events`: behind the gate, the INSERT with the fixed fee.
   * A new row appears exactly when the request is admitted, the database is
   * reachable and the columns pass the constraints; nothing else changes.
   */
  function AddEventRoute(t: Tables, h: Headers, verify: TokenVerifier, f: EventFields): (s: Step)
    requires Consistent(t)
    ensures Consistent(s.after)
    ensures s.after.registrations == t.registrations && s.after.nextRegistrationId == t.nextRegistrationId
    ensures !Admitted(h, verify) ==> s.after == t && s.response.status in {401, 403}
    ensures s.response.status == 200 <==> Admitted(h, verify) && t.online && Admissible(f)
    ensures s.response.status == 200 ==>
      var id := t.nextEventId;
      && id !in t.events
      && s.response.body == EventCreated(id)
      && s.after.events == t.events[id := EventRow(f, id, AdminEventFee)]
      && s.after.events[id].fee == AdminEventFee
    ensures Admitted(h, verify) && s.response.status != 200 ==> s.response == StoreFailure && s.after.events == t.events
  {
    var s := Guarded(t, h, verify, CreateEvent(t, f));
    assert s.response.status == 200 ==> s.after.events == t.events[t.nextEventId := EventRow(f, t.nextEventId, AdminEventFee)];
    s
  }

  /**
   * `PUT /api/admin/events/:id`: behind the gate, the nine-column UPDATE of
   * the row the path names. No row is added or removed and no fee changes;
   * an id PostgreSQL cannot read is a 500 that changes nothing.
   */
  function UpdateEventRoute(t: Tables, h: Headers, verify: TokenVerifier, id: string, f: EventFields): (s: Step)
    requires Consistent(t) && id != ""
    ensures Consistent(s.after)
    ensures s.after == t.(events := s.after.events) && s.after.events.Keys == t.events.Keys
    ensures !Admitted(h, verify) ==> s.after == t && s.response.status in {401, 403}
    ensures s.response == Response(200, Done) <==>
      Admitted(h, verify) && t.online && IdParam(id).Some? && (IdParam(id).value !in t.events || Admissible(f))
    ensures Admitted(h, verify) && s.response != Response(200, Done) ==> s == Step(StoreFailure, t)
    ensures forall k :: k in t.events ==> s.after.events[k].fee == t.events[k].fee
    ensures forall k :: k in t.events && IdParam(id) != Some(k) ==> s.after.events[k] == t.events[k]
    ensures s.response == Response(200, Done) && IdParam(id).value in t.events ==>
      var k := IdParam(id).value;
      s.after.events[k] == EventRow(f, k, t.events[k].fee)
  {
    Guarded(t, h, verify, UpdateEventById(t, id, f))
  }

  /**
   * `DELETE /api/admin/events/:id`: behind the gate, the row the path names
   * disappears, whether or not it existed, and no other row changes.
   */
  function DeleteEventRoute(t: Tables, h: Headers, verify: TokenVerifier, id: string): (s: Step)
    requires Consistent(t) && id != ""
    ensures Consistent(s.after)
    ensures s.after == t.(events := s.after.events)
    ensures !Admitted(h, verify) ==> s.after == t && s.response.status in {401, 403}
    ensures s.response == Response(200, Done) <==> Admitted(h, verify) && t.online && IdParam(id).Some?
    ensures Admitted(h, verify) && s.response != Response(200, Done) ==> s == Step(StoreFailure, t)
    ensures s.response == Response(200, Done) ==> s.after.events == t.events - {IdParam(id).value}
  {
    Guarded(t, h, verify, DeleteEventById(t, id))
  }

  /** `GET /api/admin/registrations`. */
  function RegistrationsRoute(t: Tables, h: Headers, verify: TokenVerifier): (r: Response)
    requires Consistent(t)
    ensures RequireAdminAuth(h, verify).Some? ==> r == RequireAdminAuth(h, verify).value
    ensures RequireAdminAuth(h, verify).None? ==> r == ListRegistrations(t)
  {
    match RequireAdminAuth(h, verify)
    case Some(refusal) => refusal
    case None => ListRegistrations(t)
  }

  /** The Netlify `id` as an Express path segment: present, not empty and without a '/'. */
  predicate PathSegment(id: Option<string>) {
    Truthy(id) && '/' !in id.value
  }

  /**
   * The Express answer to an `admin-events` request sent to `/api/admin/events`,
   * with the Netlify `id` as the path segment of a PUT or DELETE. Only POST on
   * the collection and PUT and DELETE on `/:id` are routes; anything else
   * falls through to Express's 404 page and leaves the database alone.
   * (OPTIONS is answered by Express's router itself and is not modelled.)
   */
  function EventsRoute(t: Tables, q: AdminEventsRequest, verify: TokenVerifier): (s: Step)
    requires Consistent(t) && q.verb != Options
    requires q.verb == Post || q.verb == Put ==> q.body.Some?
    ensures Consistent(s.after)
    ensures s.response == NoRoute <==>
      !(q.verb == Post || ((q.verb == Put || q.verb == Delete) && PathSegment(q.id)))
    ensures s.response == NoRoute ==> s.after == t
  {
    match q.verb
    case Post => AddEventRoute(t, q.headers, verify, q.body.value)
    case Put => if PathSegment(q.id) then UpdateEventRoute(t, q.headers, verify, q.id.value, q.body.value) else Step(NoRoute, t)
    case Delete => if PathSegment(q.id) then DeleteEventRoute(t, q.headers, verify, q.id.value) else Step(NoRoute, t)
    case _ => Step(NoRoute, t)
  }

  /**
   * The admin event endpoints of both deployments admit the same requests and
   * then do the same thing. A refused request changes nothing in either and
   * carries the same message; the status is 401 on Netlify, and on Express
   * 403 when the token itself is bad.
   */
  lemma AdminEndpointsAgree(t: Tables, q: AdminEventsRequest, verify: TokenVerifier)
    requires Consistent(t)
    requires "Authorization" !in q.headers
    requires q.verb == Post || ((q.verb == Put || q.verb == Delete) && PathSegment(q.id))
    requires q.verb == Post || q.verb == Put ==> q.body.Some?
    ensures VerifyAdminToken(q.headers, verify) == Authorized ==> AdminEvents(t, q, verify) == EventsRoute(t, q, verify)
    ensures VerifyAdminToken(q.headers, verify).Unauthorized? ==>
      var n, e := AdminEvents(t, q, verify), EventsRoute(t, q, verify);
      var error := VerifyAdminToken(q.headers, verify).error;
      && n.after == t && e.after == t
      && n.response == Response(401, Refused(error))
      && e.response == Response(if error == BadTokenMessage then 403 else 401, Refused(error))
  {
    GatesAgree(q.headers, verify);
  }

  /**
   * Where the two deployments part ways: Netlify lists the events on GET and
   * answers 400 to a PUT or DELETE without an id, while Express has no such
   * route and answers with its 404 page whatever the token.
   */
  lemma AdminEndpointsDiffer(t: Tables, q: AdminEventsRequest, verify: TokenVerifier)
    requires Consistent(t)
    requires q.verb == Get || (q.verb == Put && q.body.Some? && !Truthy(q.id)) || (q.verb == Delete && !Truthy(q.id))
    ensures EventsRoute(t, q, verify) == Step(NoRoute, t)
    ensures VerifyAdminToken(q.headers, verify) == Authorized ==>
      AdminEvents(t, q, verify) == if q.verb == Get then Step(ListEvents(t), t) else Step(MissingId, t)
    ensures VerifyAdminToken(q.headers, verify) == Authorized && q.verb == Get && t.online ==>
      AdminEvents(t, q, verify).response.status == 200
  {
  }

  /** Both registration listings admit the same requests and then list the same rows in the same order. */
  lemma RegistrationListingsAgree(t: Tables, h: Headers, verify: TokenVerifier)
    requires Consistent(t)
    requires "Authorization" !in h
    ensures AdminRegistrations(t, Get, h, verify).body.RegistrationList? <==> RegistrationsRoute(t, h, verify).body.RegistrationList?
    ensures VerifyAdminToken(h, verify) == Authorized ==> AdminRegistrations(t, Get, h, verify) == RegistrationsRoute(t, h, verify)
    ensures VerifyAdminToken(h, verify).Unauthorized? ==>
      AdminRegistrations(t, Get, h, verify).body == RegistrationsRoute(t, h, verify).body
  {
    GatesAgree(h, verify);
  }

  const MissingContactFields: Response := Response(400, ErrorMessage("Please fill all fields."))
  const ContactFailed: Response := Response(500, ErrorMessage("Failed to send message."))

  /** `/api/contact`: all three fields must be truthy; `delivered` is the mail transport's outcome. */
  function Contact(name: Option<string>, email: Option<string>, message: Option<string>, delivered: bool): (r: Response)
    ensures r.status == 200 <==> Truthy(name) && Truthy(email) && Truthy(message) && delivered
    ensures !(Truthy(name) && Truthy(email) && Truthy(message)) ==> r == MissingContactFields
    ensures Truthy(name) && Truthy(email) && Truthy(message) && !delivered ==> r == ContactFailed
    ensures r.status == 200 ==> r.body == MessageSent
  {
    if !Truthy(name) || !Truthy(email) || !Truthy(message) then MissingContactFields
    else if !delivered then ContactFailed
    else Response(200, MessageSent)
  }
}
