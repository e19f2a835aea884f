/**
 * `AuthMiddleware` of goapi/authorization.go: the gate every API request
 * passes. It admits a request only when its `Authorization` header is
 * `Bearer <token>`, the token verifies with the pinned HMAC method, its `id`
 * claim is a string, and that id is in the configured registry. Every
 * rejection answers 401; an admitted request reaches the next handler once,
 * with the `userID` header set to the id.
 */
module GoapiAuthorization {
  import opened GoStrings
  import opened Results
  import opened TokenVerification
  import ConfigRecord

  const StatusUnauthorized := 401

  /** What the gate does with a request: call `next` with a `userID`, or answer with an error. */
  datatype Outcome = Admit(userID: string) | Reject(status: int, message: string)

  /** The registry of authorized identities, keyed by id. */
  type Registry = map<string, ConfigRecord.Auth>

  /** The scheme test of the header: `strings.ToLower(scheme) == "bearer"`. */
  predicate IsBearer(scheme: string) {
    ToLower(scheme) == "bearer"
  }

  /**
   * The gate's decision for one request, given its `Authorization` header,
   * the token oracle, the configured secret and the registry.
   */
  function AuthMiddleware(header: string, decode: string -> Unverified, secret: string, auths: Registry): (r: Outcome)
    ensures r.Reject? ==> r.status == StatusUnauthorized
    ensures r.Admit? ==>
      && |Fields(header)| == 2
      && IsBearer(Fields(header)[0])
      && Accepted(Fields(header)[1], decode, secret)
      && r.userID in auths
  {
    if header == "" then Reject(StatusUnauthorized, "No Authorization Header")
    else
      var parts := Fields(header);
      if |parts| != 2 || !IsBearer(parts[0]) then Reject(StatusUnauthorized, "Invalid Authorization Header")
      else
        match VerifyToken(parts[1], decode, secret)
        case Failure(e) => Reject(StatusUnauthorized, e)
        case Success(claims) => Admission(claims, auths)
  }

  /** The last stage of the gate: the verified claims must carry a registered string `id`. */
  function Admission(claims: Claims, auths: Registry): Outcome
  {
    if "id" in claims && claims["id"].Str? then
      var id := claims["id"].s;
      if id !in auths then Reject(StatusUnauthorized, "id " + id + " is not authorized")
      else Admit(id)
    else Reject(StatusUnauthorized, "unauthorized")
  }

  /**
   * Who may pass, stated without the gate's order of checks: the header is
   * exactly two fields, a `bearer` scheme in any case and a token; the token
   * verifies; its `id` claim is the string `user`; and `user` is registered.
   */
  ghost predicate Authorized(header: string, decode: string -> Unverified, secret: string, auths: Registry, user: string) {
    exists scheme, token, claims ::
      && Fields(header) == [scheme, token]
      && IsBearer(scheme)
      && VerifyToken(token, decode, secret) == Success(claims)
      && "id" in claims && claims["id"] == Str(user)
      && user in auths
  }

  /** The gate admits `user` exactly when `user` is authorized. */
  lemma AdmitsExactlyAuthorized(header: string, decode: string -> Unverified, secret: string, auths: Registry, user: string)
    ensures AuthMiddleware(header, decode, secret, auths) == Admit(user) <==> Authorized(header, decode, secret, auths, user)
  {
    var parts := Fields(header);
    if AuthMiddleware(header, decode, secret, auths) == Admit(user) {
      var claims := VerifyToken(parts[1], decode, secret).value;
      assert parts == [parts[0], parts[1]];
      assert Fields(header) == [parts[0], parts[1]] && VerifyToken(parts[1], decode, secret) == Success(claims);
    }
    if Authorized(header, decode, secret, auths, user) {
      var scheme, token, claims :|
        && Fields(header) == [scheme, token]
        && IsBearer(scheme)
        && VerifyToken(token, decode, secret) == Success(claims)
        && "id" in claims && claims["id"] == Str(user)
        && user in auths;
      assert header != [];
    }
  }

  /** The stage a rejected request failed at, and what the gate answers there. */
  lemma RejectionAtEachStage(header: string, decode: string -> Unverified, secret: string, auths: Registry)
    ensures header == "" ==>
      AuthMiddleware(header, decode, secret, auths) == Reject(StatusUnauthorized, "No Authorization Header")
    ensures header != "" && (|Fields(header)| != 2 || !IsBearer(Fields(header)[0])) ==>
      AuthMiddleware(header, decode, secret, auths) == Reject(StatusUnauthorized, "Invalid Authorization Header")
    ensures header != "" && |Fields(header)| == 2 && IsBearer(Fields(header)[0]) ==>
      var token := Fields(header)[1];
      && (!Accepted(token, decode, secret) ==>
            AuthMiddleware(header, decode, secret, auths) == Reject(StatusUnauthorized, Parse(token, decode, secret).err))
      && (Accepted(token, decode, secret) ==>
            var claims := decode(token).claims;
            && (("id" !in claims || !claims["id"].Str?) ==>
                  AuthMiddleware(header, decode, secret, auths) == Reject(StatusUnauthorized, "unauthorized"))
            && ("id" in claims && claims["id"].Str? && claims["id"].s !in auths ==>
                  AuthMiddleware(header, decode, secret, auths)
                  == Reject(StatusUnauthorized, "id " + claims["id"].s + " is not authorized")))
  {
  }

  /** The header a client normally sends, `Bearer <token>`, splits into the scheme and the token. */
  lemma {:induction false} StandardHeaderFields(scheme: string, token: string)
    requires IsField(scheme) && IsField(token)
    ensures Fields(scheme + " " + token) == [scheme, token]
  {
    var seps := ["", " ", ""];
    assert Separators(seps, 2);
    assert Spell([scheme, token], seps) == scheme + " " + token by {
      assert Spell([], seps[2..]) == "";
      assert Spell([token], seps[1..]) == " " + token + "";
    }
    FieldsOfSpell([scheme, token], seps);
  }

  /** The scheme is matched in any letter case. */
  lemma BearerAnyCase(scheme: string)
    ensures IsBearer(scheme) <==>
      |scheme| == 6 && forall i :: 0 <= i < 6 ==> scheme[i] == "bearer"[i] || scheme[i] == "BEARER"[i]
  {
    ToLowerMatches(scheme, "bearer", "BEARER");
  }

  /** A registered id in a valid token sent as `Bearer <token>` is admitted. */
  lemma StandardRequestAdmitted(token: string, decode: string -> Unverified, secret: string, auths: Registry, user: string)
    requires IsField(token)
    requires Accepted(token, decode, secret)
    requires "id" in decode(token).claims
    requires decode(token).claims["id"] == Str(user)
    requires user in auths
    ensures AuthMiddleware("Bearer " + token, decode, secret, auths) == Admit(user)
  {
    BearerHeader(token);
  }

  /** The scheme clients usually send, `Bearer`, is accepted. */
  lemma CapitalisedBearer()
    ensures IsBearer("Bearer")
  {
    BearerAnyCase("Bearer");
  }

  /** A header with a third field is refused before the token is looked at. */
  lemma ExtraFieldRejected(a: string, b: string, decode: string -> Unverified, secret: string, auths: Registry)
    requires IsField(a) && IsField(b)
    ensures AuthMiddleware("Bearer " + a + " " + b, decode, secret, auths)
            == Reject(StatusUnauthorized, "Invalid Authorization Header")
  {
    var h := "Bearer " + a + " " + b;
    var seps := ["", " ", " ", ""];
    assert Separators(seps, 3);
    assert Spell(["Bearer", a, b], seps) == h by {
      assert Spell([], seps[3..]) == "";
      assert Spell([b], seps[2..]) == " " + b + "";
      assert Spell([a, b], seps[1..]) == " " + a + Spell([b], seps[2..]);
    }
    FieldsOfSpell(["Bearer", a, b], seps);
  }

  /**
   * The gate as written, over the as-written `verifyToken`: `None` is the
   * run-time panic of reading the claims of a nil token.
   */
  function AuthMiddlewareAsWritten(header: string, decode: string -> Unverified, secret: string, auths: Registry): (r: Option<Outcome>)
    ensures r.Some? && r.value.Reject? ==> r.value.status == StatusUnauthorized
    ensures r.Some? && r.value.Admit? ==> r.value.userID in auths
  {
    if header == "" then Some(Reject(StatusUnauthorized, "No Authorization Header"))
    else
      var parts := Fields(header);
      if |parts| != 2 || !IsBearer(parts[0]) then Some(Reject(StatusUnauthorized, "Invalid Authorization Header"))
      else
        match VerifyTokenAsWritten(parts[1], decode, secret)
        case NilDereference => None
        case Rejected(e) => Some(Reject(StatusUnauthorized, e))
        case Verified(claims) => Some(Admission(claims, auths))
  }

  /**
   * The written gate panics exactly when a well-formed `bearer` header
   * carries a token that is not three segments; on every other request it
   * answers as the corrected gate does.
   */
  lemma AsWrittenPanicsOnSegmentCount(header: string, decode: string -> Unverified, secret: string, auths: Registry)
    ensures AuthMiddlewareAsWritten(header, decode, secret, auths).None? <==>
      header != "" && |Fields(header)| == 2 && IsBearer(Fields(header)[0]) && Dots(Fields(header)[1]) != 2
    ensures AuthMiddlewareAsWritten(header, decode, secret, auths).Some? ==>
      AuthMiddlewareAsWritten(header, decode, secret, auths).value == AuthMiddleware(header, decode, secret, auths)
  {
    if header != "" && |Fields(header)| == 2 && IsBearer(Fields(header)[0]) {
      var token := Fields(header)[1];
      SegmentErrorDereferencesNil(token, decode, secret);
      if Dots(token) == 2 {
        VerifyTokenAgrees(token, decode, secret);
      }
    }
  }

  /**
   * `Bearer <token>` with a token of fewer or more than three segments (no
   * `.` at all, say) crashes the written gate, while the corrected gate
   * refuses it with jwt-go's segment error.
   */
  lemma BareTokenPanics(token: string, decode: string -> Unverified, secret: string, auths: Registry)
    requires IsField(token) && Dots(token) != 2
    ensures AuthMiddlewareAsWritten("Bearer " + token, decode, secret, auths).None?
    ensures AuthMiddleware("Bearer " + token, decode, secret, auths) == Reject(StatusUnauthorized, SegmentsError)
  {
    var h := "Bearer " + token;
    BearerHeader(token);
    AsWrittenPanicsOnSegmentCount(h, decode, secret, auths);
    SegmentErrorRejected(token, decode, secret);
    RejectionAtEachStage(h, decode, secret, auths);
  }

  /** `Bearer <token>` is a non-empty header of a `bearer` scheme and the token. */
  lemma BearerHeader(token: string)
    requires IsField(token)
    ensures "Bearer " + token != ""
    ensures Fields("Bearer " + token) == ["Bearer", token] && IsBearer("Bearer")
  {
    StandardHeaderFields("Bearer", token);
    assert "Bearer " + token == "Bearer" + " " + token;
    CapitalisedBearer();
  }

  /** The header `Bearer abc` is one such request. */
  lemma BearerAbcPanics(decode: string -> Unverified, secret: string, auths: Registry)
    ensures AuthMiddlewareAsWritten("Bearer abc", decode, secret, auths).None?
  {
    var token := "abc";
    assert IsField(token) && '.' !in token;
    BareTokenPanics(token, decode, secret, auths);
    assert "Bearer " + token == "Bearer abc";
  }
}
