/**
 * Signed bearer tokens (RFC 7519 JSON Web Tokens) as the users service issues them and the
 * gateway checks them. Signature computation, base64 segments and JSON parsing belong to the
 * golang-jwt library; they appear here only through the `Library` oracle.
 */
module Tokens {
  import opened Wrappers
  import opened Numeric

  /** The "alg" header values the library knows. */
  datatype Alg = HS256 | HS384 | HS512 | RS256 | RS384 | RS512 | ES256 | ES384 | ES512
               | PS256 | PS384 | PS512 | EdDSA | NoneAlg

  /** The algorithms whose signing method is a *jwt.SigningMethodHMAC. */
  predicate IsHmac(alg: Alg) {
    alg == HS256 || alg == HS384 || alg == HS512
  }

  /** A JSON value inside the claims object of a token. */
  datatype ClaimValue = Text(s: string) | Number(n: int) | JsonNull | OtherJson

  type ClaimSet = map<string, ClaimValue>

  /** What the library's parser makes of a token string before any key is looked at. */
  datatype Parse = Malformed | Decoded(alg: Alg, claims: ClaimSet)

  /**
   * The library, as three oracles: SignedString(key) over a claim set, the parser, and the
   * signature check of a token under a key.
   */
  datatype Library = Library(
    sign: (Alg, ClaimSet, string) -> Result<string>,
    parse: string -> Parse,
    signatureValid: (string, string) -> bool)

  /**
   * The library is coherent when a token it signed is not empty (it has three dot-separated
   * segments), parses back to the algorithm and claims it was signed with, and its signature
   * checks under the key that signed it.
   */
  ghost predicate Coherent(lib: Library) {
    forall alg, m, key, t :: lib.sign(alg, m, key) == Ok(t) ==>
      t != "" && lib.parse(t) == Decoded(alg, m) && lib.signatureValid(t, key)
  }

  /** The gateway's Claims struct: its three private claims (the registered ones are checked by TimeValid). */
  datatype Claims = Claims(login: string, password: string, userID: Int64)

  /** JSON decoding of one string field: absent or null keeps "", a non-string is an error. */
  function DecodeString(m: ClaimSet, key: string): (r: Result<string>)
    ensures key !in m ==> r == Ok("")
    ensures key in m && m[key].Text? ==> r == Ok(m[key].s)
    ensures key in m && m[key].JsonNull? ==> r == Ok("")
    ensures key in m && !m[key].Text? && !m[key].JsonNull? ==> r.Err?
  {
    if key !in m then Ok("")
    else match m[key]
      case Text(s) => Ok(s)
      case JsonNull => Ok("")
      case _ => Err(Message("json: cannot unmarshal into string field " + key))
  }

  /** A JSON number within the range of a 64-bit Go int. */
  predicate InInt64Number(v: ClaimValue) {
    v.Number? && -0x8000_0000_0000_0000 <= v.n < 0x8000_0000_0000_0000
  }

  /** JSON decoding of one `int` field: absent or null keeps 0, a non-integer or out-of-range number is an error. */
  function DecodeInt(m: ClaimSet, key: string): (r: Result<Int64>)
    ensures key !in m ==> r == Ok(0)
    ensures key in m && m[key].Number? && -0x8000_0000_0000_0000 <= m[key].n < 0x8000_0000_0000_0000 ==>
      r == Ok(m[key].n)
    ensures key in m && m[key].JsonNull? ==> r == Ok(0)
    ensures key in m && !m[key].JsonNull? && !InInt64Number(m[key]) ==> r.Err?
  {
    if key !in m then Ok(0)
    else match m[key]
      case Number(n) =>
        if -0x8000_0000_0000_0000 <= n < 0x8000_0000_0000_0000 then Ok(n)
        else Err(Message("json: number out of range for int field " + key))
      case JsonNull => Ok(0)
      case _ => Err(Message("json: cannot unmarshal into int field " + key))
  }

  /** Decoding a claim set into the gateway's Claims (json tags login, password and user_id). */
  function DecodeClaims(m: ClaimSet): (r: Result<Claims>)
    ensures r.Ok? ==>
      && DecodeString(m, "login") == Ok(r.value.login)
      && DecodeString(m, "password") == Ok(r.value.password)
      && DecodeInt(m, "user_id") == Ok(r.value.userID)
    ensures r.Err? ==>
      || DecodeString(m, "login") == Err(r.error)
      || (DecodeString(m, "login").Ok? && DecodeString(m, "password") == Err(r.error))
      || (DecodeString(m, "login").Ok? && DecodeString(m, "password").Ok? && DecodeInt(m, "user_id") == Err(r.error))
  {
    match DecodeString(m, "login")
    case Err(e) => Err(e)
    case Ok(login) =>
      match DecodeString(m, "password")
      case Err(e) => Err(e)
      case Ok(password) =>
        match DecodeInt(m, "user_id")
        case Err(e) => Err(e)
        case Ok(id) => Ok(Claims(login, password, id))
  }

  /**
   * The library's validation of the registered time claims at clock reading `now` (seconds):
   * "exp", when present, must lie after now; "nbf", when present, must not lie after now.
   * Both decode into *jwt.NumericDate fields, so a JSON null leaves the field nil, the same as
   * an absent claim. A token with neither claim is valid at every instant.
   */
  predicate TimeValid(m: ClaimSet, now: int) {
    && (TimeClaim(m, "exp") ==> m["exp"].Number? && now < m["exp"].n)
    && (TimeClaim(m, "nbf") ==> m["nbf"].Number? && m["nbf"].n <= now)
  }

  /** The time claim `key` is set: present and not null. */
  predicate TimeClaim(m: ClaimSet, key: string) {
    key in m && !m[key].JsonNull?
  }

  /** A null "exp" or "nbf" counts as no claim at all. */
  lemma NullTimeClaimIsAbsent(m: ClaimSet, key: string, now: int)
    requires key == "exp" || key == "nbf"
    ensures TimeValid(m[key := JsonNull], now) <==> TimeValid(m - {key}, now)
  {
  }
}
