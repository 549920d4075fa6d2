/** Password hashing and access tokens, reduced to the two laws the
    services rely on. A bcrypt digest is represented by the password it was
    made from and the empty stored string by `Blank`; checking a password
    against a digest succeeds exactly for that password. A signed token
    carries its claims and the key that signed it; decoding checks the key
    and the expiry. Hash rounds, salts, encodings and signature bytes are
    not modelled. */
module Crypto {
  import opened Wrappers

  datatype Digest = Blank | BcryptOf(password: string)

  /** `pwd_context.hash(password)`. */
  function HashPassword(password: string): (d: Digest)
    ensures d != Blank
    ensures VerifyPassword(password, d)
  {
    BcryptOf(password)
  }

  /** `pwd_context.verify(plain, digest)`. */
  predicate VerifyPassword(plain: string, digest: Digest) {
    digest.BcryptOf? && digest.password == plain
  }

  /** A digest accepts the password it was made from and no other. */
  lemma VerifyHash(plain: string, password: string)
    ensures VerifyPassword(plain, HashPassword(password)) <==> plain == password
  {
  }

  /** The claims of an access token: the subject (`sub`, possibly absent)
      and the expiry time (`exp`, in seconds). */
  datatype Claims = Claims(sub: Option<string>, exp: int)

  /** A bearer token as a client presents it: one this model signed, or any
      other text. */
  datatype Token = Signed(claims: Claims, key: string) | Opaque(text: string)

  /** `jwt.encode(claims, key)`. */
  function Encode(claims: Claims, key: string): Token {
    Signed(claims, key)
  }

  /** `jwt.decode(token, key)` at time `now`: the claims of a token signed
      with `key` that has not expired (`exp` is not before `now`); anything
      else is a decoding error. */
  function Decode(token: Token, key: string, now: int): (r: Option<Claims>)
    ensures r.Some? ==> token.Signed? && token.key == key && now <= r.value.exp
  {
    if token.Signed? && token.key == key && now <= token.claims.exp then Some(token.claims) else None
  }

  /** Decoding gives back what was encoded with the same key, until it
      expires. */
  lemma DecodeEncode(claims: Claims, key: string, now: int)
    ensures Decode(Encode(claims, key), key, now) == (if now <= claims.exp then Some(claims) else None)
  {
  }
}
