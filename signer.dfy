/** The signer the transformer calls: `queryDigest` and `syncSignQueryDigest`.
    The cryptography itself (HMAC-SHA256 from `crypto`, RS256 signing from
    `jsonwebtoken`) and the process environment are outside the model; they
    come in as a `Config`. */
module Signer {
  import opened Results

  /** The claim set handed to the JWT library: the query digest `qd`, and the
      issue time `iat` the library adds by itself from the clock. */
  datatype Claims = Claims(qd: string, iat: int)

  /** What the transformer reads from its environment and the libraries it calls.
      `clientId` and `privateKey` are QUERYSCOPE_CLIENT_ID and
      QUERYSCOPE_PRIVATE_KEY (absent when unset); `hmacSha256Hex(key, message)`
      is the hex HMAC-SHA256 digest; `signRs256(claims, key)` is the compact
      RS256 token, or `None` where the library throws; `issuedAt` is the clock
      reading the library puts in `iat`. */
  datatype Config = Config(
    clientId: Option<string>,
    privateKey: Option<string>,
    hmacSha256Hex: (string, string) -> string,
    signRs256: (Claims, string) -> Option<string>,
    issuedAt: int)
  {
    /** Both credentials are set: the transformer is switched on. */
    predicate SigningEnabled() {
      clientId.Some? && privateKey.Some?
    }
  }

  /** `queryDigest(clientId, query)`: the HMAC of the query keyed by the client id. */
  function QueryDigest(cfg: Config, clientId: string, query: string): string {
    cfg.hmacSha256Hex(clientId, query)
  }

  /** `syncSignQueryDigest(query)`: no token when a credential is missing;
      otherwise the RS256 token over the claims `{ qd, iat }` where `qd` is the
      digest of exactly this query under the client id. The issuer setting is
      not used here. */
  function SyncSignQueryDigest(cfg: Config, query: string): (r: Outcome<Option<string>>)
    ensures r == Ok(None) <==> !cfg.SigningEnabled()
    ensures r.Fail? ==> r.fault == SigningFailed
    ensures cfg.SigningEnabled() ==>
      var claims := Claims(QueryDigest(cfg, cfg.clientId.value, query), cfg.issuedAt);
      match cfg.signRs256(claims, cfg.privateKey.value)
      case Some(token) => r == Ok(Some(token))
      case None => r == Fail(SigningFailed)
  {
    if cfg.clientId.Some? && cfg.privateKey.Some? then
      var qd := QueryDigest(cfg, cfg.clientId.value, query);
      match cfg.signRs256(Claims(qd, cfg.issuedAt), cfg.privateKey.value)
      case Some(token) => Ok(Some(token))
      case None => Fail(SigningFailed)
    else
      Ok(None)
  }

  /** The query enters the token only through its digest: two queries with
      the same digest, signed under one configuration at one instant, get the
      same outcome. */
  lemma SameDigestSameToken(cfg: Config, q1: string, q2: string)
    requires cfg.SigningEnabled()
    requires QueryDigest(cfg, cfg.clientId.value, q1) == QueryDigest(cfg, cfg.clientId.value, q2)
    ensures SyncSignQueryDigest(cfg, q1) == SyncSignQueryDigest(cfg, q2)
  {
  }
}
