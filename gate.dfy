/**
 * The `authenticated` middleware: a request passes only with an identity
 * token cookie that jose's `jwtVerify` accepts for the user pool's issuer and
 * the app client's audience, checked against the pool's remote key set.
 * `jwtVerify` (signature, expiry, claims, key fetching and caching) is an
 * oracle object that logs what it is asked.
 */
module Gate {
  import opened Wrappers
  import opened Http

  /** `COGNITO_REGION`, `COGNITO_USER_POOL_ID` and `COGNITO_CLIENT_ID`. */
  datatype PoolConfig = PoolConfig(region: string, userPoolId: string, clientId: string)

  /** The issuer the identity token must carry. */
  function Issuer(region: string, userPoolId: string): string
  {
    "https://cognito-idp." + region + ".amazonaws.com/" + userPoolId
  }

  /** The address `createRemoteJWKSet` fetches the signing keys from. */
  function JwksUrl(region: string, userPoolId: string): string
  {
    "https://cognito-idp." + region + ".amazonaws.com/" + userPoolId + "/.well-known/jwks.json"
  }

  /** The key set lives under the issuer: its address is the issuer's followed by the well-known path. */
  lemma JwksUrlExtendsIssuer(region: string, userPoolId: string)
    ensures JwksUrl(region, userPoolId) == Issuer(region, userPoolId) + "/.well-known/jwks.json"
    ensures |Issuer(region, userPoolId)| < |JwksUrl(region, userPoolId)|
    ensures JwksUrl(region, userPoolId)[..|Issuer(region, userPoolId)|] == Issuer(region, userPoolId)
  {
  }

  /** The arguments of `jwtVerify(token, JWKS, { issuer, audience })`. */
  datatype VerifyRequest = VerifyRequest(token: Param, jwks: string, issuer: string, audience: string)

  /** The ways `jwtVerify` rejects a token. */
  datatype VerifyError =
    | Malformed
    | BadSignature
    | UnknownKey
    | Expired
    | WrongIssuer
    | WrongAudience
    | KeySetUnavailable

  class TokenVerifier {
    /** What `jwtVerify` answers: the token's payload, or why it was rejected. */
    const verify: VerifyRequest -> Result<Payload, VerifyError>
    /** Every verification asked for so far, oldest first. */
    var calls: seq<VerifyRequest>

    constructor (verify: VerifyRequest -> Result<Payload, VerifyError>)
      ensures this.verify == verify && calls == []
    {
      this.verify := verify;
      calls := [];
    }

    method JwtVerify(request: VerifyRequest) returns (r: Result<Payload, VerifyError>)
      modifies this
      ensures r == verify(request)
      ensures calls == old(calls) + [request]
    {
      calls := calls + [request];
      r := verify(request);
    }
  }

  /** The verification the gate asks for, for a given token. */
  function GateRequest(config: PoolConfig, token: Param): (r: VerifyRequest)
    ensures r.token == token && r.audience == config.clientId
    ensures r.issuer == "https://cognito-idp." + config.region + ".amazonaws.com/" + config.userPoolId
    ensures r.jwks == r.issuer + "/.well-known/jwks.json"
  {
    VerifyRequest(
      token,
      JwksUrl(config.region, config.userPoolId),
      Issuer(config.region, config.userPoolId),
      config.clientId)
  }

  /**
   * `authenticated(req, res, next)`; `calledNext` says whether `next()` was
   * called (at most once).
   */
  method Authenticated(config: PoolConfig, jose: TokenVerifier, req: Request, res: Response)
    returns (calledNext: bool)
    modifies jose, req, res
    ensures res.cookies == old(res.cookies)
    ensures !Truthy(Get(req.cookies, "idToken")) ==>
      && !calledNext
      && res.sent == JsonBody(401, "Unauthorized")
      && jose.calls == old(jose.calls)
      && req.user == old(req.user)
    ensures Truthy(Get(req.cookies, "idToken")) ==>
      var request := GateRequest(config, req.cookies["idToken"]);
      && jose.calls == old(jose.calls) + [request]
      && match jose.verify(request)
         case Success(payload) =>
           && calledNext
           && req.user == Some(payload)
           && res.sent == old(res.sent)
         case Failure(_) =>
           && !calledNext
           && res.sent == JsonBody(401, "Unauthorized")
           && req.user == old(req.user)
  {
    var idToken := Get(req.cookies, "idToken");
    if !Truthy(idToken) {
      res.Json(401, "Unauthorized");
      return false;
    }
    var verified := jose.JwtVerify(GateRequest(config, idToken.value));
    match verified
    case Success(payload) =>
      req.user := Some(payload);
      calledNext := true;
    case Failure(_) =>
      res.Json(401, "Unauthorized");
      calledNext := false;
  }
}
