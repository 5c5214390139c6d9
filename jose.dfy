/**
 * The JSON Web Token operations the proxy calls, `jwt.encode` and
 * `jwt.decode` of python-jose, as an abstract codec. A token keeps the parts
 * of a compact JWS (section 3.1 of RFC 7515): the `alg` header parameter, the
 * claim set and the signature. The HMAC of section 3.2 of RFC 7518 is an
 * uninterpreted, unforgeable tag: two tags are equal only when they were made
 * from the same algorithm, key and claims. Base64url and JSON serialisation
 * are not modelled; text that is not a JWS at all is `Malformed`.
 */
module Jose {
  import opened Wrappers
  import opened Json

  /** The signature over a header algorithm and a claim set, made with a key. */
  datatype Mac = Mac(alg: string, key: string, claims: Object)

  datatype Token =
    | Jws(alg: string, claims: Object, signature: Mac)
    | Malformed(text: string)

  /** Why `jwt.decode` raised JWTError. */
  datatype JwtError = NotAJws | AlgorithmNotAllowed | SignatureMismatch | Expired | BadExpiry

  /** The token carries a signature made with `key` over its own header algorithm and claims. */
  predicate SignedWith(t: Token, key: string) {
    t.Jws? && t.signature == Mac(t.alg, key, t.claims)
  }

  /**
   * The time check `jwt.decode` applies to every token it accepts: there is no
   * `exp` claim, or `exp` is an integer not before `now` (section 4.1.4 of
   * RFC 7519; the token is still valid in the second `exp` names).
   */
  predicate Unexpired(claims: Object, now: int) {
    "exp" !in claims || (claims["exp"].Num? && now <= claims["exp"].n)
  }

  /** `jwt.encode(claims, key, algorithm=alg)`. */
  function Encode(claims: Object, key: string, alg: string): (t: Token)
    ensures t.Jws? && t.alg == alg && t.claims == claims
    ensures SignedWith(t, key)
  {
    Jws(alg, claims, Mac(alg, key, claims))
  }

  /** The claims check shared by both forms of decoding. */
  function CheckExpiry(claims: Object, now: int): (r: Result<Object, JwtError>)
    ensures r.Success? <==> Unexpired(claims, now)
    ensures r.Success? ==> r.value == claims
  {
    if "exp" !in claims then Success(claims)
    else match claims["exp"]
      case Num(exp) => if exp < now then Failure(Expired) else Success(claims)
      case _ => Failure(BadExpiry)
  }

  /** `jwt.decode(token, key, algorithms=algorithms)` at time `now`. */
  function Decode(t: Token, key: string, algorithms: seq<string>, now: int): (r: Result<Object, JwtError>)
    ensures r.Success? <==> t.Jws? && t.alg in algorithms && SignedWith(t, key) && Unexpired(t.claims, now)
    ensures r.Success? ==> r.value == t.claims
  {
    match t
    case Malformed(_) => Failure(NotAJws)
    case Jws(alg, claims, signature) =>
      if alg !in algorithms then Failure(AlgorithmNotAllowed)
      else if signature != Mac(alg, key, claims) then Failure(SignatureMismatch)
      else CheckExpiry(claims, now)
  }

  /**
   * `jwt.decode(token, options={"verify_signature": False})`: neither the
   * signature nor the algorithm is checked, but the time check still applies.
   */
  function DecodeUnverified(t: Token, now: int): (r: Result<Object, JwtError>)
    ensures r.Success? <==> t.Jws? && Unexpired(t.claims, now)
    ensures r.Success? ==> r.value == t.claims
  {
    match t
    case Malformed(_) => Failure(NotAJws)
    case Jws(_, claims, _) => CheckExpiry(claims, now)
  }

  /** Decoding with the signing key gives back the encoded claims for as long as they are unexpired. */
  lemma DecodeEncode(claims: Object, key: string, alg: string, algorithms: seq<string>, now: int)
    requires alg in algorithms
    ensures Unexpired(claims, now) ==> Decode(Encode(claims, key, alg), key, algorithms, now) == Success(claims)
    ensures !Unexpired(claims, now) ==> Decode(Encode(claims, key, alg), key, algorithms, now).Failure?
  {
  }

  /** A token signed with another key never verifies. */
  lemma DecodeRejectsOtherKey(claims: Object, signer: string, key: string, alg: string, algorithms: seq<string>, now: int)
    requires signer != key
    ensures Decode(Encode(claims, signer, alg), key, algorithms, now).Failure?
  {
  }

  /** Claims swapped under a valid signature never verify. */
  lemma DecodeRejectsTampering(claims: Object, forged: Object, key: string, alg: string, algorithms: seq<string>, now: int)
    requires forged != claims
    ensures Decode(Jws(alg, forged, Encode(claims, key, alg).signature), key, algorithms, now) == Failure(SignatureMismatch)
      || Decode(Jws(alg, forged, Encode(claims, key, alg).signature), key, algorithms, now) == Failure(AlgorithmNotAllowed)
  {
  }

  /** Every token the verifying decode accepts, the unverified decode accepts with the same claims. */
  lemma VerifiedIsUnverified(t: Token, key: string, algorithms: seq<string>, now: int)
    requires Decode(t, key, algorithms, now).Success?
    ensures DecodeUnverified(t, now) == Decode(t, key, algorithms, now)
  {
  }
}
