/**
 * `authMiddleware` of go-api/authorization.go: the same header and token
 * checks as the goapi gate, without a registry. Every verified token is
 * admitted, and `userID` is the `%v` rendering of its `user_id` claim,
 * whatever that claim holds, `<nil>` when it is missing.
 */
module GoApiAuthorization {
  import opened GoStrings
  import opened Results
  import opened TokenVerification
  import GoapiAuthorization

  const StatusUnauthorized := 401

  /** What the gate does with a request: call `next` with a `userID`, or answer with an error. */
  datatype Outcome = Admit(userID: string) | Reject(status: int, message: string)

  /** `fmt.Sprintf("%v", v)` of a claim value; a missing claim is a nil interface. */
  function Render(v: Option<Claim>): (s: string)
    ensures v.None? || v == Some(Null) ==> s == "<nil>"
    ensures v.Some? && v.value.Str? ==> s == v.value.s
  {
    match v
    case None => "<nil>"
    case Some(Str(s)) => s
    case Some(Null) => "<nil>"
    case Some(Other(rendered)) => rendered
  }

  function Lookup(claims: Claims, key: string): Option<Claim> {
    if key in claims then Some(claims[key]) else None
  }

  /** The gate's decision for one request. */
  function AuthMiddleware(header: string, decode: string -> Unverified, secret: string): (r: Outcome)
    ensures r.Reject? ==> r.status == StatusUnauthorized
    ensures r.Admit? ==>
      && |Fields(header)| == 2
      && GoapiAuthorization.IsBearer(Fields(header)[0])
      && Accepted(Fields(header)[1], decode, secret)
  {
    if header == "" then Reject(StatusUnauthorized, "unauthorized")
    else
      var parts := Fields(header);
      if |parts| != 2 || !GoapiAuthorization.IsBearer(parts[0]) then
        Reject(StatusUnauthorized, "Invalid Authorization Header")
      else
        match VerifyToken(parts[1], decode, secret)
        case Failure(_) => Reject(StatusUnauthorized, "unauthorized")
        case Success(claims) => Admit(Render(Lookup(claims, "user_id")))
  }

  /**
   * There is no allow-list: a request is admitted exactly when its header is
   * two fields with a `bearer` scheme and its token verifies, and the `userID`
   * is then the rendering of the token's `user_id` claim.
   */
  lemma AdmitsEveryVerifiedToken(header: string, decode: string -> Unverified, secret: string)
    ensures AuthMiddleware(header, decode, secret).Admit? <==>
      exists scheme, token ::
        && Fields(header) == [scheme, token]
        && GoapiAuthorization.IsBearer(scheme)
        && Accepted(token, decode, secret)
    ensures AuthMiddleware(header, decode, secret).Admit? ==>
      var claims := VerifyToken(Fields(header)[1], decode, secret).value;
      AuthMiddleware(header, decode, secret).userID == Render(Lookup(claims, "user_id"))
  {
    var parts := Fields(header);
    if AuthMiddleware(header, decode, secret).Admit? {
      assert parts == [parts[0], parts[1]];
    }
    if exists scheme, token ::
        && Fields(header) == [scheme, token]
        && GoapiAuthorization.IsBearer(scheme)
        && Accepted(token, decode, secret)
    {
      assert header != [];
    }
  }

  /** A verified token whose `user_id` claim is a string is admitted as that user. */
  lemma StringUserIdAdmitted(header: string, decode: string -> Unverified, secret: string, user: string)
    requires |Fields(header)| == 2 && GoapiAuthorization.IsBearer(Fields(header)[0])
    requires Accepted(Fields(header)[1], decode, secret)
    requires "user_id" in decode(Fields(header)[1]).claims
    requires decode(Fields(header)[1]).claims["user_id"] == Str(user)
    ensures AuthMiddleware(header, decode, secret) == Admit(user)
  {
  }

  /** A verified token without a `user_id` claim is still admitted, as user `<nil>`. */
  lemma MissingUserIdAdmitted(header: string, decode: string -> Unverified, secret: string)
    requires |Fields(header)| == 2 && GoapiAuthorization.IsBearer(Fields(header)[0])
    requires Accepted(Fields(header)[1], decode, secret)
    requires "user_id" !in decode(Fields(header)[1]).claims
    ensures AuthMiddleware(header, decode, secret) == Admit("<nil>")
  {
  }

  /** The stage a rejected request failed at, and what the gate answers there. */
  lemma RejectionAtEachStage(header: string, decode: string -> Unverified, secret: string)
    ensures header == "" ==> AuthMiddleware(header, decode, secret) == Reject(StatusUnauthorized, "unauthorized")
    ensures header != "" && (|Fields(header)| != 2 || !GoapiAuthorization.IsBearer(Fields(header)[0])) ==>
      AuthMiddleware(header, decode, secret) == Reject(StatusUnauthorized, "Invalid Authorization Header")
    ensures header != "" && |Fields(header)| == 2 && GoapiAuthorization.IsBearer(Fields(header)[0])
            && !Accepted(Fields(header)[1], decode, secret) ==>
      AuthMiddleware(header, decode, secret) == Reject(StatusUnauthorized, "unauthorized")
  {
  }

  /**
   * The go-api gate is more permissive than the goapi one: every request the
   * goapi gate admits, it admits too (possibly under a different `userID`,
   * taken from `user_id` instead of `id`).
   */
  lemma MorePermissiveThanRegistryGate(header: string, decode: string -> Unverified, secret: string,
                                        auths: GoapiAuthorization.Registry)
    requires GoapiAuthorization.AuthMiddleware(header, decode, secret, auths).Admit?
    ensures AuthMiddleware(header, decode, secret).Admit?
  {
  }

  /**
   * The converse fails: a verified token whose `id` is not registered is
   * refused by the goapi gate and admitted here.
   */
  lemma RegistryMatters(header: string, decode: string -> Unverified, secret: string,
                        auths: GoapiAuthorization.Registry, id: string)
    requires |Fields(header)| == 2 && GoapiAuthorization.IsBearer(Fields(header)[0])
    requires Accepted(Fields(header)[1], decode, secret)
    requires decode(Fields(header)[1]).claims == map["id" := Str(id)]
    requires id !in auths
    ensures GoapiAuthorization.AuthMiddleware(header, decode, secret, auths).Reject?
    ensures AuthMiddleware(header, decode, secret) == Admit("<nil>")
  {
  }
}
