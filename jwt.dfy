/**
 * Token claims and their issuance (internal/auth/jwt.go). Signing with
 * HMAC-SHA256 and parsing with signature and expiry checks belong to the JWT
 * library; they are an abstract codec here, a pair of functions together
 * with the laws (Sound) the model relies on.
 */
module Jwt {
  import opened Wrappers
  import opened Models

  /** Token lifetime: 24 hours, in seconds. */
  const TokenLifetime: int := 24 * 60 * 60

  /** The payload of a token. Times are whole seconds, as JWT NumericDate
      values are. */
  datatype Claims = Claims(
    userId: Uuid,
    role: string,
    permissions: seq<string>,
    securityVersion: Uuid,
    issuedAt: int,
    expiresAt: int)

  /** Why parsing a token string fails. */
  datatype ParseError = Malformed | BadSignature | Expired

  /** Signing (claims, secret) to a token string, and parsing (token, secret,
      now) back to claims. */
  datatype Codec = Codec(
    sign: (Claims, string) -> Result<string, string>,
    parse: (string, string, int) -> Result<Claims, ParseError>)

  /** The laws of a signed-token codec: a token parses with the secret it
      was signed with to exactly its claims until it expires, and to
      Expired from then on; with any other secret it does not parse; a
      string parses with a secret only if it is the one token `sign` makes
      from some claims with that secret (the model has one encoding per
      claims and secret); and a signed token is never empty (it has a
      header, a payload and a signature). */
  ghost predicate Sound(codec: Codec)
  {
    && (forall cl, secret, now :: codec.sign(cl, secret).Success? ==>
          codec.parse(codec.sign(cl, secret).value, secret, now) ==
            if now < cl.expiresAt then Success(cl) else Failure(Expired))
    && (forall cl, secret, other, now :: codec.sign(cl, secret).Success? && other != secret ==>
          codec.parse(codec.sign(cl, secret).value, other, now).Failure?)
    && (forall t, secret, now :: codec.parse(t, secret, now).Success? ==>
          exists cl :: codec.sign(cl, secret) == Success(t))
    && (forall cl, secret :: codec.sign(cl, secret).Success? ==> codec.sign(cl, secret).value != "")
  }

  /** The claims GenerateToken builds, AS WRITTEN: the security version is
      never assigned, so it keeps the zero UUID. */
  function GenerateClaims(uid: Uuid, role: string, permissions: seq<string>, now: int): (c: Claims)
    ensures c.userId == uid && c.role == role && c.permissions == permissions
    ensures c.issuedAt == now && c.expiresAt == now + TokenLifetime
    ensures c.issuedAt < c.expiresAt
    ensures c.securityVersion == NilUuid
  {
    Claims(uid, role, permissions, NilUuid, now, now + TokenLifetime)
  }

  /** The claims as they were evidently meant to be built: stamped with the
      user's current security version. */
  function VersionedClaims(uid: Uuid, role: string, permissions: seq<string>, version: Uuid, now: int): (c: Claims)
    ensures c == GenerateClaims(uid, role, permissions, now).(securityVersion := version)
    ensures c.issuedAt < c.expiresAt
  {
    Claims(uid, role, permissions, version, now, now + TokenLifetime)
  }

  /** GenerateToken: sign the claims with the process-wide secret. The token
      it returns carries exactly GenerateClaims' payload: with that secret
      it parses back to them when issued, and is refused as expired 24 hours
      later. */
  function GenerateToken(codec: Codec, secret: string, uid: Uuid, role: string, permissions: seq<string>, now: int): (r: Result<string, string>)
    ensures Sound(codec) && r.Success? ==>
              codec.parse(r.value, secret, now) == Success(GenerateClaims(uid, role, permissions, now))
    ensures Sound(codec) && r.Success? ==>
              codec.parse(r.value, secret, now + TokenLifetime) == Failure(Expired)
  {
    codec.sign(GenerateClaims(uid, role, permissions, now), secret)
  }

  /** A generated token parses back, with the same secret and at any time
      before it expires, to the identity it was generated for. */
  lemma GeneratedTokenParses(codec: Codec, secret: string, uid: Uuid, role: string, permissions: seq<string>, now: int, later: int)
    requires Sound(codec)
    requires GenerateToken(codec, secret, uid, role, permissions, now).Success?
    requires later < now + TokenLifetime
    ensures var parsed := codec.parse(GenerateToken(codec, secret, uid, role, permissions, now).value, secret, later);
            parsed.Success? && parsed.value.userId == uid && parsed.value.role == role &&
            parsed.value.permissions == permissions && parsed.value.securityVersion == NilUuid
  {
  }

  /** From 24 hours after issuance on, the token is refused as expired. */
  lemma GeneratedTokenExpires(codec: Codec, secret: string, uid: Uuid, role: string, permissions: seq<string>, now: int, later: int)
    requires Sound(codec)
    requires GenerateToken(codec, secret, uid, role, permissions, now).Success?
    requires now + TokenLifetime <= later
    ensures codec.parse(GenerateToken(codec, secret, uid, role, permissions, now).value, secret, later) == Failure(Expired)
  {
  }
}
