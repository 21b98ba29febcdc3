/**
 * The sign-in leg (`cognitoSignIn`, `azureAdSignIn`): validate the config,
 * store the PKCE verifier and the state in the session, and redirect the
 * browser to the provider's authorize endpoint.
 */
module SignInLeg {

  import opened Wrappers
  import opened Js
  import opened Params
  import opened Provider
  import opened SessionStore

  /** What `pkceChallenge()` returns: a random verifier and its S256 challenge. */
  datatype Pkce = Pkce(verifier: string, challenge: string)

  /** `ctx.send({}, 302)` with a `Location` header. */
  datatype Redirect = Redirect(status: int, location: Url)

  const Found := 302

  /**
   * The verifier, challenge and state are the random values the controller
   * draws; a configuration error escapes before the session is touched.
   */
  method SignIn(p: Provider, config: Dict, session: Session, pkce: Pkce, state: string)
    returns (r: Result<Redirect>)
    modifies session`codeVerifier, session`oidcState
    ensures ConfigValidation(p, config).Failure? ==>
      r == Failure(ConfigError(p)) && unchanged(session)
    ensures ConfigValidation(p, config).Success? ==>
      && r.Success?
      && r.value.status == Found
      && r.value.location == Url(AuthorizeEndpoint(p, config), AuthorizeQuery(p, config, pkce.challenge, state))
      && session.codeVerifier == Str(pkce.verifier)
      && session.oidcState == Str(state)
    ensures session.others == old(session.others)
  {
    var validated := ConfigValidation(p, config);
    if validated.Failure? {
      return Failure(validated.error);
    }
    var cfg := validated.value;
    var endpoint := AuthorizeEndpoint(p, cfg);

    session.codeVerifier := Str(pkce.verifier);
    session.oidcState := Str(state);

    var params: seq<Pair> := [];
    params := params + [("client_id", ToStr(ClientId(p, cfg)))];
    params := params + [("redirect_uri", ToStr(RedirectUri(p, cfg)))];
    params := params + [("scope", Scope(p, cfg))];
    params := params + [("response_type", ResponseType)];
    params := params + [("code_challenge", pkce.challenge)];
    params := params + [("code_challenge_method", ChallengeMethod)];
    params := params + [("state", state)];
    assert params == AuthorizeQuery(p, cfg, pkce.challenge, state);
    r := Success(Redirect(Found, Url(endpoint, params)));
  }
}
