/**
 * The admin gate: the Bearer scheme of section 2.1 of RFC 6750 as the Netlify
 * helper and the Express middleware read it. Token verification (a JSON Web
 * Token, RFC 7519, signed with the server secret and valid for 8 hours) is a
 * given predicate.
 */
module Auth {
  import opened Wrappers
  import opened Text
  import opened JsValues
  import opened Http

  /** Request headers by name. */
  type Headers = map<string, string>

  /** `jwt.verify(token, JWT_SECRET)` returns instead of throwing. */
  type TokenVerifier = string -> bool

  const BearerPrefix: string := "Bearer "
  const NoTokenMessage: string := "No token provided."
  const BadTokenMessage: string := "Invalid or expired token."

  /** `{ valid: true, admin }` or `{ valid: false, error }`. */
  datatype AuthResult = Authorized | Unauthorized(error: string)

  /** `headers['authorization'] || headers['Authorization']`: an empty lower-case value falls back too. */
  function AuthorizationHeader(h: Headers): Option<string> {
    if "authorization" in h && h["authorization"] != "" then Some(h["authorization"])
    else if "Authorization" in h then Some(h["Authorization"])
    else None
  }

  /** `header.split(' ')[1]`: the second space-separated field. */
  function BearerToken(header: string): string
    requires StartsWith(header, BearerPrefix)
  {
    assert header == "Bearer" + [' '] + header[7..];
    SplitOnAfterWord("Bearer", ' ', header[7..]);
    SplitOn(header, ' ')[1]
  }

  /** The token is what follows "Bearer " up to the next space. */
  lemma BearerTokenIsNextWord(rest: string)
    ensures BearerToken(BearerPrefix + rest) == UpTo(rest, ' ')
  {
    var header := BearerPrefix + rest;
    assert header == "Bearer" + [' '] + rest;
    SplitOnAfterWord("Bearer", ' ', rest);
    SplitOnFirstField(rest, ' ');
  }

  /** The header carries the Bearer scheme with its exact, case-sensitive prefix. */
  predicate HasBearer(header: Option<string>) {
    Truthy(header) && StartsWith(header.value, BearerPrefix)
  }

  /** `verifyAdminToken(headers)` of the Netlify functions. */
  function VerifyAdminToken(h: Headers, verify: TokenVerifier): (r: AuthResult)
    ensures r == Authorized <==> HasBearer(AuthorizationHeader(h)) && verify(BearerToken(AuthorizationHeader(h).value))
    ensures !HasBearer(AuthorizationHeader(h)) ==> r == Unauthorized(NoTokenMessage)
    ensures HasBearer(AuthorizationHeader(h)) && r != Authorized ==> r == Unauthorized(BadTokenMessage)
  {
    var header := AuthorizationHeader(h);
    if !HasBearer(header) then Unauthorized(NoTokenMessage)
    else if verify(BearerToken(header.value)) then Authorized
    else Unauthorized(BadTokenMessage)
  }

  /** The lower-case header is read first; `Authorization` matters only when it is missing or empty. */
  lemma LowerCaseHeaderFirst(h: Headers, verify: TokenVerifier)
    ensures "authorization" in h && h["authorization"] != "" ==>
      VerifyAdminToken(h, verify) == VerifyAdminToken(h - {"Authorization"}, verify)
    ensures !("authorization" in h && h["authorization"] != "") && "Authorization" in h ==>
      VerifyAdminToken(h, verify) == VerifyAdminToken(map["authorization" := h["Authorization"]], verify)
  {
  }

  /** How the Netlify admin functions answer a failed check. */
  function NetlifyRefusal(r: AuthResult): Response
    requires r.Unauthorized?
  {
    Response(401, Refused(r.error))
  }

  /**
   * `requireAdminAuth` of the Express server: None passes the request on to
   * the route; otherwise the refusal, 401 without a Bearer header and 403 when
   * the token does not verify.
   */
  function RequireAdminAuth(h: Headers, verify: TokenVerifier): (r: Option<Response>)
    ensures r.None? <==> HasBearer(if "authorization" in h then Some(h["authorization"]) else None)
                         && verify(BearerToken(h["authorization"]))
    ensures r.Some? ==> r.value.status in {401, 403}
  {
    var header := if "authorization" in h then Some(h["authorization"]) else None;
    if !HasBearer(header) then Some(Response(401, Refused(NoTokenMessage)))
    else if verify(BearerToken(header.value)) then None
    else Some(Response(403, Refused(BadTokenMessage)))
  }

  /**
   * The two gates admit the same requests and refuse with the same message;
   * they differ only in the status of a bad token, 401 on Netlify and 403 on
   * the Express server. (Node delivers header names in lower case, so only
   * the lower-case name is considered.)
   */
  lemma GatesAgree(h: Headers, verify: TokenVerifier)
    requires "Authorization" !in h
    ensures RequireAdminAuth(h, verify).None? <==> VerifyAdminToken(h, verify) == Authorized
    ensures VerifyAdminToken(h, verify).Unauthorized? ==>
      var e := VerifyAdminToken(h, verify).error;
      RequireAdminAuth(h, verify) == Some(Response(if e == BadTokenMessage then 403 else 401, Refused(e)))
      && NetlifyRefusal(VerifyAdminToken(h, verify)) == Response(401, Refused(e))
  {
    var header := if "authorization" in h then Some(h["authorization"]) else None;
    assert HasBearer(AuthorizationHeader(h)) <==> HasBearer(header);
  }
}
