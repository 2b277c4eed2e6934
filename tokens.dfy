/**
 * The collaborators the controller calls for credentials: three JSON Web
 * Token domains (access, refresh and password reset, each with its own key)
 * and password hashing.  Signing, HMAC, expiry clocks and bcrypt are not
 * modelled: each domain is a pair of functions supplied by the caller.
 */
module Tokens {
  import opened Wrappers
  import opened UserTypes

  /** A token payload: `{userId, role}` for sessions, `{userId}` alone for reset links. */
  datatype Payload = Payload(userId: Id, role: Option<Role>)

  /**
   * One signing domain: `sign(payload, expiresIn)` with the domain's key, and
   * verification with the same key, `None` when the token is malformed, has a
   * bad signature or has expired.
   */
  datatype Domain = Domain(sign: (Payload, string) -> string, verify: string -> Option<Payload>)

  datatype Keys = Keys(access: Domain, refresh: Domain, reset: Domain)

  const AccessTtl: string := "1d"
  const RefreshTtl: string := "30d"
  const ResetTtl: string := "15m"

  /** bcrypt as the controller uses it; the random salt is folded into `encrypt`. */
  datatype Hasher = Hasher(encrypt: string -> string, compare: (string, string) -> bool)

  function GenerateAccessToken(keys: Keys, payload: Payload): string {
    keys.access.sign(payload, AccessTtl)
  }

  function GenerateRefreshToken(keys: Keys, payload: Payload): string {
    keys.refresh.sign(payload, RefreshTtl)
  }

  datatype TokenPair = TokenPair(accessToken: string, refreshToken: string)

  /** Both tokens of a session, for the same payload. */
  function GenerateTokens(keys: Keys, payload: Payload): (pair: TokenPair)
    ensures pair.accessToken == keys.access.sign(payload, AccessTtl)
    ensures pair.refreshToken == keys.refresh.sign(payload, RefreshTtl)
  {
    TokenPair(GenerateAccessToken(keys, payload), GenerateRefreshToken(keys, payload))
  }

  /**
   * What jsonwebtoken guarantees of a domain within the validity window: a
   * signed token is a non-empty string that verifies back to its payload.
   */
  ghost predicate SignsAndVerifies(d: Domain) {
    forall p: Payload, ttl: string {:trigger d.sign(p, ttl)} ::
      d.sign(p, ttl) != "" && d.verify(d.sign(p, ttl)) == Some(p)
  }
}
