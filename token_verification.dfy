/**
 * `verifyToken` (goapi/authorization.go and its identical copy in
 * go-api/authorization.go): parse a bearer token with jwt-go, pinning the
 * signing method to HMAC, and hand back its claims when the token is valid.
 *
 * The cryptography and the base64/JSON decoding inside jwt-go are not
 * modelled. What jwt-go v3's `ParseUnverified` makes of a string of three
 * segments is an oracle (`decode`); the steps of `jwt.Parse` around it are
 * modelled: the segment count, the key callback `getKey`, the check of the
 * registered claims and the signature check against the key the callback
 * supplied.
 */
module TokenVerification {
  import opened Results

  /** A claim value as decoded from the token's JSON payload. */
  datatype Claim =
    | Str(s: string)            // a JSON string
    | Null                      // JSON null: a nil interface value in Go
    | Other(rendered: string)   // a number, boolean, array or object, with its `%v` rendering

  /** `jwt.MapClaims`. */
  type Claims = map<string, Claim>

  /** The number of `.` in a token string; `strings.Split(s, ".")` gives one segment more. */
  function Dots(s: string): (n: nat)
    ensures n <= |s|
    ensures n == 0 <==> '.' !in s
  {
    if s == [] then 0 else (if s[0] == '.' then 1 else 0) + Dots(s[1..])
  }

  /** What jwt-go's `ParseUnverified` makes of a token string of three segments. */
  datatype Unverified =
    | Malformed(err: string, partial: Option<Claims>)
      // the header, the claims or the `alg` could not be decoded; `partial` is
      // what `token.Claims` holds at that point, if anything
    | Decoded(hmac: bool, alg: string, claims: Claims, claimsError: Option<string>, signingKey: string)
      // `hmac`: `token.Method` is a `*jwt.SigningMethodHMAC`; `alg`: `token.Header["alg"]`;
      // `claimsError`: what `MapClaims.Valid` reports (`exp`, `nbf`, `iat`);
      // `signingKey`: the key the signature was made with, the only key it verifies under

  /** The token `jwt.Parse` returns: `token.Valid`, and `token.Claims` when it is a `jwt.MapClaims`. */
  datatype Token = Token(valid: bool, claims: Option<Claims>)

  /** What `jwt.Parse` returns: a possibly nil token and the text of its error ("" for nil). */
  datatype Parsed = Parsed(token: Option<Token>, err: string)

  const SegmentsError := "token contains an invalid number of segments"
  const SignatureInvalid := "signature is invalid"

  /** The key callback passed to `jwt.Parse`: the secret for HMAC tokens, an error otherwise. */
  function GetKey(hmac: bool, alg: string, secret: string): Result<string>
  {
    if hmac then Success(secret) else Failure("Unexpected signing method: " + alg)
  }

  /**
   * `jwt.Parse(tokenString, getKey)`: a string that does not split into three
   * segments gives a nil token; otherwise the token comes back with the first
   * error among decoding, the key callback, the signature and the registered
   * claims (a bad signature is reported over a bad claim), and it is valid
   * only when there is none.
   */
  function Parse(s: string, decode: string -> Unverified, secret: string): (r: Parsed)
    ensures r.token.None? <==> Dots(s) != 2
    ensures r.token.Some? ==> (r.token.value.valid <==> Accepted(s, decode, secret))
    ensures r.token.Some? && r.token.value.valid ==>
      r.err == "" && r.token.value.claims == Some(decode(s).claims)
  {
    if Dots(s) != 2 then Parsed(None, SegmentsError)
    else
      match decode(s)
      case Malformed(e, cl) => Parsed(Some(Token(false, cl)), e)
      case Decoded(hmac, alg, cl, claimsError, signingKey) =>
        match GetKey(hmac, alg, secret)
        case Failure(e) => Parsed(Some(Token(false, Some(cl))), e)
        case Success(key) =>
          if key != signingKey then Parsed(Some(Token(false, Some(cl))), SignatureInvalid)
          else if claimsError.Some? then Parsed(Some(Token(false, Some(cl))), claimsError.value)
          else Parsed(Some(Token(true, Some(cl))), "")
  }

  /**
   * Which token strings `verifyToken` is meant to accept, stated without
   * jwt-go's order of checks: three segments, an HMAC signature made with
   * the configured secret, and registered claims that check out.
   */
  predicate Accepted(s: string, decode: string -> Unverified, secret: string) {
    && Dots(s) == 2
    && decode(s).Decoded?
    && decode(s).hmac
    && decode(s).signingKey == secret
    && decode(s).claimsError.None?
  }

  /** The outcomes of `verifyToken` as written, including the crash of a nil dereference. */
  datatype Verification = Verified(claims: Claims) | Rejected(err: string) | NilDereference

  /**
   * `verifyToken` as written: `token.Claims` is read without checking that
   * `jwt.Parse` returned a token at all.
   */
  function VerifyTokenAsWritten(s: string, decode: string -> Unverified, secret: string): (r: Verification)
    ensures r.Verified? <==> Accepted(s, decode, secret)
    ensures r.Rejected? ==> r.err == Parse(s, decode, secret).err
  {
    var p := Parse(s, decode, secret);
    match p.token
    case None => NilDereference
    case Some(t) =>
      if t.claims.Some? && t.valid then Verified(t.claims.value) else Rejected(p.err)
  }

  /**
   * As written, `verifyToken` crashes exactly on the token strings that do
   * not split into three segments: `abc` or `a.b` make it read a nil token
   * instead of rejecting it.
   */
  lemma SegmentErrorDereferencesNil(s: string, decode: string -> Unverified, secret: string)
    ensures VerifyTokenAsWritten(s, decode, secret).NilDereference? <==> Dots(s) != 2
    ensures '.' !in s ==> VerifyTokenAsWritten(s, decode, secret) == NilDereference
  {
  }

  /**
   * `verifyToken` as intended: a missing token is rejected with the parse
   * error, like any other token that is not valid.
   */
  function VerifyToken(s: string, decode: string -> Unverified, secret: string): (r: Result<Claims>)
    ensures r.Success? <==> Accepted(s, decode, secret)
    ensures r.Success? ==> r.value == decode(s).claims
    ensures r.Failure? ==> r.error == Parse(s, decode, secret).err
  {
    var p := Parse(s, decode, secret);
    if p.token.Some? && p.token.value.claims.Some? && p.token.value.valid
    then Success(p.token.value.claims.value)
    else Failure(p.err)
  }

  /**
   * The corrected `verifyToken` agrees with the written one wherever the
   * written one does not crash.
   */
  lemma VerifyTokenAgrees(s: string, decode: string -> Unverified, secret: string)
    requires Dots(s) == 2
    ensures VerifyTokenAsWritten(s, decode, secret) ==
      match VerifyToken(s, decode, secret)
      case Success(c) => Verified(c)
      case Failure(e) => Rejected(e)
  {
  }

  /** A token string that is not three segments is rejected with jwt-go's segment error. */
  lemma SegmentErrorRejected(s: string, decode: string -> Unverified, secret: string)
    requires Dots(s) != 2
    ensures VerifyToken(s, decode, secret) == Failure(SegmentsError)
  {
  }

  /**
   * No token signed with a method other than HMAC is accepted, whatever key
   * signed it: the key callback's error is the rejection.
   */
  lemma NonHmacRejected(s: string, decode: string -> Unverified, secret: string)
    requires Dots(s) == 2 && decode(s).Decoded? && !decode(s).hmac
    ensures VerifyToken(s, decode, secret) == Failure("Unexpected signing method: " + decode(s).alg)
  {
  }

  /** An HMAC token signed with another key than the configured secret is rejected. */
  lemma WrongSecretRejected(s: string, decode: string -> Unverified, secret: string)
    requires Dots(s) == 2 && decode(s).Decoded? && decode(s).hmac
    requires decode(s).signingKey != secret
    ensures VerifyToken(s, decode, secret) == Failure(SignatureInvalid)
  {
  }
}
