/**
 * What the callback promises, stated over all inputs: which gate fails
 * first, when collaborators are reached, what a user is reused or created
 * with, and what each failure renders.
 */
module CallbackProperties {

  import opened Wrappers
  import opened Js
  import opened Params
  import opened Provider
  import opened SessionStore
  import opened CallbackLeg
  import opened SignInLeg
  import Cognito = CognitoAdapter
  import AzureAd = AzureAdAdapter

  /** The code and state gates both pass. */
  predicate GatesPass(p: Provider, config: Dict, query: Query, attempt: AuthAttempt)
  {
    && ConfigValidation(p, config).Success?
    && Truthy(query.code)
    && Truthy(query.state)
    && query.state == attempt.oidcState
  }

  /** The two provider requests the callback makes once the gates pass. */
  function ProviderCalls(p: Provider, config: Dict, query: Query, attempt: AuthAttempt, token: Dict): seq<Call>
  {
    [TokenPost(TokenEndpoint(p, config), TokenForm(p, config, query.code, attempt.codeVerifier)),
     UserInfoGet(UserInfoEndpoint(p, config), Bearer(token))]
  }

  /** The gates pass and the provider answers the token and userinfo requests with `token` and `info`. */
  predicate IdentityFetched(p: Provider, config: Dict, query: Query, attempt: AuthAttempt, idp: Idp,
                            token: Dict, info: Dict)
  {
    && GatesPass(p, config, query, attempt)
    && idp.tokenPost(TokenEndpoint(p, config), TokenForm(p, config, query.code, attempt.codeVerifier)) == Success(token)
    && idp.userInfoGet(UserInfoEndpoint(p, config), Bearer(token)) == Success(info)
  }

  // ---------------------------------------------------------------- the gates

  /** Without a code the callback stops first, whatever the state, and calls nothing. */
  lemma MissingCodeFailsFirst(p: Provider, config: Dict, query: Query, attempt: AuthAttempt,
                              locale: Json, nonce: string, idp: Idp, backend: Backend)
    requires ConfigValidation(p, config).Success?
    requires !Truthy(query.code)
    ensures Callback(p, config, query, attempt, locale, nonce, idp, backend) == Run([], Sent(ErrorPage("code Not Found"), None))
  {
  }

  /** With a code but an absent or different state the callback stops before the token request. */
  lemma BadStateFailsBeforeExchange(p: Provider, config: Dict, query: Query, attempt: AuthAttempt,
                                    locale: Json, nonce: string, idp: Idp, backend: Backend)
    requires ConfigValidation(p, config).Success?
    requires Truthy(query.code)
    requires !Truthy(query.state) || query.state != attempt.oidcState
    ensures Callback(p, config, query, attempt, locale, nonce, idp, backend) == Run([], Sent(ErrorPage("Invalid state"), None))
  {
  }

  /**
   * Both legs together: a callback that returns the state the sign-in leg put
   * in the authorize URL, against the session the sign-in leg wrote, passes
   * both gates; its token request (`GatesPassedExchange`) then carries the
   * verifier stored beside that state.
   */
  lemma SignInThenCallback(p: Provider, config: Dict, verifier: string, challenge: string, state: string, code: Json)
    requires ConfigValidation(p, config).Success?
    requires state != "" && Truthy(code)
    ensures Lookup(AuthorizeQuery(p, config, challenge, state), "state") == Some(state)
    ensures GatesPass(p, config, Query(code, Str(state)), AuthAttempt(Str(verifier), Str(state)))
    ensures Lookup(TokenForm(p, config, code, Str(verifier)), "code_verifier") == Some(verifier)
    ensures Lookup(TokenForm(p, config, code, Str(verifier)), "grant_type") == Some("authorization_code")
  {
    assert GatesPass(p, config, Query(code, Str(state)), AuthAttempt(Str(verifier), Str(state)));
    AuthorizePkceAndState(p, config, challenge, state);
    TokenFormRedeemsCode(p, config, code, Str(verifier));
  }

  /**
   * Both legs on one session object: the sign-in leg writes the session, and
   * a callback returning the state from the redirect, read against that
   * session, redeems the code with the verifier the sign-in leg stored.
   * Nothing clears the session, so the same callback presented again makes
   * the same token request again.
   */
  method SignInThenCallbackOnSession(p: Provider, config: Dict, session: Session, pkce: Pkce, state: string,
                                     code: Json, locale: Json, nonce: string, idp: Idp, backend: Backend)
    returns (redirect: Result<Redirect>, first: Run, replay: Run)
    requires ConfigValidation(p, config).Success?
    requires state != "" && Truthy(code)
    modifies session
    ensures redirect.Success? && redirect.value.location.query == AuthorizeQuery(p, config, pkce.challenge, state)
    ensures |first.calls| > 0
    ensures first.calls[0] == TokenPost(TokenEndpoint(p, config), TokenForm(p, config, code, Str(pkce.verifier)))
    ensures session.Attempt() == AuthAttempt(Str(pkce.verifier), Str(state))
    ensures replay == first
  {
    redirect := SignIn(p, config, session, pkce, state);
    var attempt := session.Attempt();
    var query := Query(code, Str(state));
    assert attempt == AuthAttempt(Str(pkce.verifier), Str(state));
    assert GatesPass(p, config, query, attempt);
    GatesPassedExchange(p, config, query, attempt, locale, nonce, idp, backend);
    first := Callback(p, config, query, attempt, locale, nonce, idp, backend);
    replay := Callback(p, config, query, session.Attempt(), locale, nonce, idp, backend);
  }

  /** Once both gates pass, the first call is the token request built from the query code and the stored verifier. */
  lemma GatesPassedExchange(p: Provider, config: Dict, query: Query, attempt: AuthAttempt,
                            locale: Json, nonce: string, idp: Idp, backend: Backend)
    requires GatesPass(p, config, query, attempt)
    ensures var run := Callback(p, config, query, attempt, locale, nonce, idp, backend);
      |run.calls| > 0 && run.calls[0] == TokenPost(TokenEndpoint(p, config), TokenForm(p, config, query.code, attempt.codeVerifier))
  {
  }

  // ---------------------------------------------------------------- provider answers and claims

  /** A failed token request renders its message and nothing else is called. */
  lemma TokenFailureRendered(p: Provider, config: Dict, query: Query, attempt: AuthAttempt,
                             locale: Json, nonce: string, idp: Idp, backend: Backend, e: string)
    requires GatesPass(p, config, query, attempt)
    requires idp.tokenPost(TokenEndpoint(p, config), TokenForm(p, config, query.code, attempt.codeVerifier)) == Failure(e)
    ensures Callback(p, config, query, attempt, locale, nonce, idp, backend) ==
      Run([TokenPost(TokenEndpoint(p, config), TokenForm(p, config, query.code, attempt.codeVerifier))],
          Sent(ErrorPage(e), None))
  {
  }

  /** A failed userinfo request renders its message after the token request, and nothing else is called. */
  lemma UserInfoFailureRendered(p: Provider, config: Dict, query: Query, attempt: AuthAttempt,
                                locale: Json, nonce: string, idp: Idp, backend: Backend, token: Dict, e: string)
    requires GatesPass(p, config, query, attempt)
    requires idp.tokenPost(TokenEndpoint(p, config), TokenForm(p, config, query.code, attempt.codeVerifier)) == Success(token)
    requires idp.userInfoGet(UserInfoEndpoint(p, config), Bearer(token)) == Failure(e)
    ensures Callback(p, config, query, attempt, locale, nonce, idp, backend) ==
      Run(ProviderCalls(p, config, query, attempt, token), Sent(ErrorPage(e), None))
  {
    GatedCallbackExchanges(p, config, query, attempt, locale, nonce, idp, backend);
    ExchangeReachesIdentity(p, config, query.code, attempt.codeVerifier, token, locale, nonce, idp, backend);
  }

  /** Cognito rejects an `email_verified` that is not exactly the string "true", before the whitelist. */
  lemma CognitoUnverifiedEmailRejected(config: Dict, query: Query, attempt: AuthAttempt,
                                       locale: Json, nonce: string, idp: Idp, backend: Backend, token: Dict, info: Dict)
    requires IdentityFetched(Cognito, config, query, attempt, idp, token, info)
    requires Get(info, "email_verified") != Str("true")
    ensures Callback(Cognito, config, query, attempt, locale, nonce, idp, backend) ==
      Run(ProviderCalls(Cognito, config, query, attempt, token),
          Sent(ErrorPage("Your email address has not been verified."), None))
  {
  }

  /**
   * With `COGNITO_USER_GROUP` set, a verified user outside the group is
   * rejected before the whitelist; a missing `cognito:groups` claim counts as
   * no group at all.
   */
  lemma CognitoGroupRequired(config: Dict, query: Query, attempt: AuthAttempt,
                             locale: Json, nonce: string, idp: Idp, backend: Backend, token: Dict, info: Dict,
                             groups: Option<seq<Json>>)
    requires IdentityFetched(Cognito, config, query, attempt, idp, token, info)
    requires Get(info, "email_verified") == Str("true")
    requires Truthy(Get(config, Cognito.UserGroupKey))
    requires idp.decodeGroups(Get(token, "access_token")) == Success(groups)
    requires groups.Some? ==> Get(config, Cognito.UserGroupKey) !in groups.value
    ensures Callback(Cognito, config, query, attempt, locale, nonce, idp, backend) ==
      Run(ProviderCalls(Cognito, config, query, attempt, token),
          Sent(ErrorPage("You do not belong to the specified user group."), None))
  {
  }

  /**
   * With `COGNITO_USER_GROUP` set, an access token whose claims cannot be
   * decoded ends on the error page with the decoding error's message.
   */
  lemma CognitoDecodeFailureRendered(config: Dict, query: Query, attempt: AuthAttempt,
                                     locale: Json, nonce: string, idp: Idp, backend: Backend, token: Dict, info: Dict,
                                     e: string)
    requires IdentityFetched(Cognito, config, query, attempt, idp, token, info)
    requires Get(info, "email_verified") == Str("true")
    requires Truthy(Get(config, Cognito.UserGroupKey))
    requires idp.decodeGroups(Get(token, "access_token")) == Failure(e)
    ensures Callback(Cognito, config, query, attempt, locale, nonce, idp, backend) ==
      Run(ProviderCalls(Cognito, config, query, attempt, token), Sent(ErrorPage(e), None))
  {
  }

  /** Without `COGNITO_USER_GROUP` the access token is never decoded: the callback does not depend on it. */
  lemma CognitoGroupCheckOnlyWhenConfigured(config: Dict, query: Query, attempt: AuthAttempt,
                                            locale: Json, nonce: string, idp: Idp, backend: Backend,
                                            decode: Json -> Result<Option<seq<Json>>>)
    requires !Truthy(Get(config, Cognito.UserGroupKey))
    ensures Callback(Cognito, config, query, attempt, locale, nonce, idp, backend) ==
            Callback(Cognito, config, query, attempt, locale, nonce, idp.(decodeGroups := decode), backend)
  {
    var idp' := idp.(decodeGroups := decode);
    forall token: Dict, info: Dict
      ensures ClaimCheck(Cognito, config, token, info, idp.decodeGroups) ==
              ClaimCheck(Cognito, config, token, info, idp'.decodeGroups)
    {
    }
    if ConfigValidation(Cognito, config).Success? {
      forall token: Dict
        ensures FetchIdentity(Cognito, config, token, locale, nonce, idp, backend) ==
                FetchIdentity(Cognito, config, token, locale, nonce, idp', backend)
      {
      }
    }
  }

  /** Azure AD rejects a falsy `email` before the whitelist and the directory. */
  lemma AzureAdEmailRequired(config: Dict, query: Query, attempt: AuthAttempt,
                             locale: Json, nonce: string, idp: Idp, backend: Backend, token: Dict, info: Dict)
    requires IdentityFetched(AzureAd, config, query, attempt, idp, token, info)
    requires !Truthy(Get(info, "email"))
    ensures Callback(AzureAd, config, query, attempt, locale, nonce, idp, backend) ==
      Run(ProviderCalls(AzureAd, config, query, attempt, token),
          Sent(ErrorPage("Email address is not set. Please set email property to the Azure AD user."), None))
  {
  }

  /** Once the claims pass, the rest of the callback is the whitelist stage on the userinfo answer. */
  lemma ClaimsPassedReachWhitelist(p: Provider, config: Dict, query: Query, attempt: AuthAttempt,
                                   locale: Json, nonce: string, idp: Idp, backend: Backend, token: Dict, info: Dict)
    requires IdentityFetched(p, config, query, attempt, idp, token, info)
    requires ClaimCheck(p, config, token, info, idp.decodeGroups) == Pass
    ensures var rest := Whitelist(p, info, locale, nonce, backend);
      Callback(p, config, query, attempt, locale, nonce, idp, backend) ==
      Run(ProviderCalls(p, config, query, attempt, token) + rest.calls, rest.response)
  {
    var rest := Whitelist(p, info, locale, nonce, backend);
    var post := TokenPost(TokenEndpoint(p, config), TokenForm(p, config, query.code, attempt.codeVerifier));
    var get := UserInfoGet(UserInfoEndpoint(p, config), Bearer(token));
    GatedCallbackExchanges(p, config, query, attempt, locale, nonce, idp, backend);
    ExchangeReachesIdentity(p, config, query.code, attempt.codeVerifier, token, locale, nonce, idp, backend);
    IdentityReachesWhitelist(p, config, token, info, locale, nonce, idp, backend);
    assert [post] + ([get] + rest.calls) == [post, get] + rest.calls;
  }

  /** Past both gates, the callback is the token exchange with the query code and the stored verifier. */
  lemma GatedCallbackExchanges(p: Provider, config: Dict, query: Query, attempt: AuthAttempt,
                               locale: Json, nonce: string, idp: Idp, backend: Backend)
    requires GatesPass(p, config, query, attempt)
    ensures Callback(p, config, query, attempt, locale, nonce, idp, backend) ==
      Exchange(p, config, query.code, attempt.codeVerifier, locale, nonce, idp, backend)
  {
  }

  /** A token answer leads from the token request straight to the userinfo stage. */
  lemma ExchangeReachesIdentity(p: Provider, config: Dict, code: Json, verifier: Json, token: Dict,
                                locale: Json, nonce: string, idp: Idp, backend: Backend)
    requires idp.tokenPost(TokenEndpoint(p, config), TokenForm(p, config, code, verifier)) == Success(token)
    ensures Exchange(p, config, code, verifier, locale, nonce, idp, backend) ==
      Then(TokenPost(TokenEndpoint(p, config), TokenForm(p, config, code, verifier)),
           FetchIdentity(p, config, token, locale, nonce, idp, backend))
  {
  }

  /** With the claims accepted, the userinfo request is followed by the whitelist stage. */
  lemma IdentityReachesWhitelist(p: Provider, config: Dict, token: Dict, info: Dict,
                                 locale: Json, nonce: string, idp: Idp, backend: Backend)
    requires idp.userInfoGet(UserInfoEndpoint(p, config), Bearer(token)) == Success(info)
    requires ClaimCheck(p, config, token, info, idp.decodeGroups) == Pass
    ensures FetchIdentity(p, config, token, locale, nonce, idp, backend) ==
      Then(UserInfoGet(UserInfoEndpoint(p, config), Bearer(token)), Whitelist(p, info, locale, nonce, backend))
  {
  }

  // ---------------------------------------------------------------- whitelist and user resolution

  /** A whitelist rejection renders its message; the directory is never consulted and no user is created. */
  lemma WhitelistRejectionStops(p: Provider, config: Dict, query: Query, attempt: AuthAttempt,
                                locale: Json, nonce: string, idp: Idp, backend: Backend, token: Dict, info: Dict, e: string)
    requires IdentityFetched(p, config, query, attempt, idp, token, info)
    requires ClaimCheck(p, config, token, info, idp.decodeGroups) == Pass
    requires backend.checkWhitelist(Get(info, "email")) == Fail(e)
    ensures Callback(p, config, query, attempt, locale, nonce, idp, backend) ==
      Run(ProviderCalls(p, config, query, attempt, token) + [CheckWhitelist(Get(info, "email"))],
          Sent(ErrorPage(e), None))
  {
    ClaimsPassedReachWhitelist(p, config, query, attempt, locale, nonce, idp, backend, token, info);
    assert Whitelist(p, info, locale, nonce, backend) == Run([CheckWhitelist(Get(info, "email"))], Sent(ErrorPage(e), None));
  }

  /**
   * An existing user is reused as it is: a JWT for it, the sign-in success
   * notification, no role lookup, no creation, no webhook, and the success
   * page with the nonce of the CSP header.
   */
  lemma ExistingUserReused(p: Provider, config: Dict, query: Query, attempt: AuthAttempt,
                           locale: Json, nonce: string, idp: Idp, backend: Backend, token: Dict, info: Dict,
                           user: User, jwt: Jwt)
    requires IdentityFetched(p, config, query, attempt, idp, token, info)
    requires ClaimCheck(p, config, token, info, idp.decodeGroups) == Pass
    requires backend.checkWhitelist(Get(info, "email")) == Pass
    requires backend.findByEmail(Get(info, "email")) == Success(Some(user))
    requires backend.createJwt(user) == Success(jwt)
    ensures Callback(p, config, query, attempt, locale, nonce, idp, backend) ==
      Run(ProviderCalls(p, config, query, attempt, token) +
            [CheckWhitelist(Get(info, "email")), FindByEmail(Get(info, "email")),
             CreateJwt(user), TriggerSignInSuccess(user)],
          Sent(SuccessPage(jwt, user, nonce), Some("script-src 'nonce-" + nonce + "'")))
  {
    ClaimsPassedReachWhitelist(p, config, query, attempt, locale, nonce, idp, backend, token, info);
    ReuseRun(p, info, locale, nonce, backend, user, jwt);
  }

  /** The resolution half of `ExistingUserReused`, from the whitelist on. */
  lemma ReuseRun(p: Provider, info: Dict, locale: Json, nonce: string, backend: Backend, user: User, jwt: Jwt)
    requires backend.checkWhitelist(Get(info, "email")) == Pass
    requires backend.findByEmail(Get(info, "email")) == Success(Some(user))
    requires backend.createJwt(user) == Success(jwt)
    ensures Whitelist(p, info, locale, nonce, backend) ==
      Run([CheckWhitelist(Get(info, "email")), FindByEmail(Get(info, "email")),
           CreateJwt(user), TriggerSignInSuccess(user)],
          Sent(SuccessPage(jwt, user, nonce), Some("script-src 'nonce-" + nonce + "'")))
  {
    var email := Get(info, "email");
    var reused := Reuse(user, nonce, backend);
    assert reused.calls == [CreateJwt(user), TriggerSignInSuccess(user)];
    assert FindUser(p, info, locale, nonce, backend) == Then(FindByEmail(email), reused);
  }

  /** The user a provider creates: its email, its two names, the request locale and the mapped roles. */
  function ExpectedNewUser(p: Provider, info: Dict, locale: Json, mapping: Option<seq<int>>): NewUser
  {
    match p
    case Cognito =>
      NewUser(Get(info, "email"), Str(""), Get(info, "username"), locale, DefaultRoleRefs(mapping))
    case AzureAd =>
      NewUser(Get(info, "email"), Get(info, "family_name"), Get(info, "given_name"), locale, DefaultRoleRefs(mapping))
  }

  /**
   * An unknown email is provisioned exactly once with the provider's names and
   * the mapped roles, then gets a JWT, the webhook once and the sign-in
   * success notification.
   */
  lemma NewUserProvisioned(p: Provider, config: Dict, query: Query, attempt: AuthAttempt,
                           locale: Json, nonce: string, idp: Idp, backend: Backend, token: Dict, info: Dict,
                           mapping: Option<seq<int>>, user: User, jwt: Jwt)
    requires IdentityFetched(p, config, query, attempt, idp, token, info)
    requires ClaimCheck(p, config, token, info, idp.decodeGroups) == Pass
    requires backend.checkWhitelist(Get(info, "email")) == Pass
    requires backend.findByEmail(Get(info, "email")) == Success(None)
    requires backend.defaultRoles == Success(mapping)
    requires backend.createUser(ExpectedNewUser(p, info, locale, mapping)) == Success(user)
    requires backend.createJwt(user) == Success(jwt)
    requires backend.triggerWebHook(user) == Pass
    ensures Callback(p, config, query, attempt, locale, nonce, idp, backend) ==
      Run(ProviderCalls(p, config, query, attempt, token) +
            [CheckWhitelist(Get(info, "email")), FindByEmail(Get(info, "email")), LoadDefaultRoles,
             CreateUser(ExpectedNewUser(p, info, locale, mapping)), CreateJwt(user),
             TriggerWebHook(user), TriggerSignInSuccess(user)],
          Sent(SuccessPage(jwt, user, nonce), Some("script-src 'nonce-" + nonce + "'")))
  {
    ClaimsPassedReachWhitelist(p, config, query, attempt, locale, nonce, idp, backend, token, info);
    ProvisioningRun(p, info, locale, nonce, backend, mapping, user, jwt);
  }

  /** The provisioning branch on its own, from the whitelist stage on. */
  lemma ProvisioningRun(p: Provider, info: Dict, locale: Json, nonce: string, backend: Backend,
                        mapping: Option<seq<int>>, user: User, jwt: Jwt)
    requires backend.checkWhitelist(Get(info, "email")) == Pass
    requires backend.findByEmail(Get(info, "email")) == Success(None)
    requires backend.defaultRoles == Success(mapping)
    requires backend.createUser(ExpectedNewUser(p, info, locale, mapping)) == Success(user)
    requires backend.createJwt(user) == Success(jwt)
    requires backend.triggerWebHook(user) == Pass
    ensures Whitelist(p, info, locale, nonce, backend) ==
      Run([CheckWhitelist(Get(info, "email")), FindByEmail(Get(info, "email")), LoadDefaultRoles,
           CreateUser(ExpectedNewUser(p, info, locale, mapping)), CreateJwt(user),
           TriggerWebHook(user), TriggerSignInSuccess(user)],
          Sent(SuccessPage(jwt, user, nonce), Some("script-src 'nonce-" + nonce + "'")))
  {
    var email := Get(info, "email");
    ProvisionRun(p, info, locale, nonce, backend, mapping, user, jwt);
    assert FindUser(p, info, locale, nonce, backend) == Then(FindByEmail(email), Provision(p, info, locale, nonce, backend));
  }

  /** The role mapping is read, then the user is created with it and signed in. */
  lemma ProvisionRun(p: Provider, info: Dict, locale: Json, nonce: string, backend: Backend,
                     mapping: Option<seq<int>>, user: User, jwt: Jwt)
    requires backend.defaultRoles == Success(mapping)
    requires backend.createUser(ExpectedNewUser(p, info, locale, mapping)) == Success(user)
    requires backend.createJwt(user) == Success(jwt)
    requires backend.triggerWebHook(user) == Pass
    ensures Provision(p, info, locale, nonce, backend) ==
      Run([LoadDefaultRoles, CreateUser(ExpectedNewUser(p, info, locale, mapping)), CreateJwt(user),
           TriggerWebHook(user), TriggerSignInSuccess(user)],
          Sent(SuccessPage(jwt, user, nonce), Some("script-src 'nonce-" + nonce + "'")))
  {
    var newUser := ExpectedNewUser(p, info, locale, mapping);
    assert NewUserFor(p, info, locale, mapping) == newUser;
    CreatedUserSignedIn(newUser, nonce, backend, user, jwt);
  }

  /**
   * Once created, a user gets a JWT, the webhook once and the sign-in success
   * notification, in that order, and the success page.
   */
  lemma CreatedUserSignedIn(newUser: NewUser, nonce: string, backend: Backend, user: User, jwt: Jwt)
    requires backend.createUser(newUser) == Success(user)
    requires backend.createJwt(user) == Success(jwt)
    requires backend.triggerWebHook(user) == Pass
    ensures Create(newUser, nonce, backend) ==
      Run([CreateUser(newUser), CreateJwt(user), TriggerWebHook(user), TriggerSignInSuccess(user)],
          Sent(SuccessPage(jwt, user, nonce), Some("script-src 'nonce-" + nonce + "'")))
  {
    var page := Sent(SuccessPage(jwt, user, nonce), Some(CspHeader(nonce)));
    assert NotifyNewUser(user, jwt, nonce, backend) == Run([TriggerWebHook(user), TriggerSignInSuccess(user)], page);
    assert IssueForNewUser(user, nonce, backend) ==
      Run([CreateJwt(user), TriggerWebHook(user), TriggerSignInSuccess(user)], page);
  }

  /** A new user's roles are the mapped ids in order, and none when the mapping is absent. */
  lemma DefaultRolesMapped(mapping: Option<seq<int>>)
    ensures mapping.None? ==> DefaultRoleRefs(mapping) == []
    ensures mapping.Some? ==>
      && |DefaultRoleRefs(mapping)| == |mapping.value|
      && forall i | 0 <= i < |mapping.value| :: DefaultRoleRefs(mapping)[i] == RoleRef(mapping.value[i])
  {
  }

  /** A webhook error after provisioning still ends on the error page, with its message. */
  lemma WebhookFailureRendered(p: Provider, config: Dict, query: Query, attempt: AuthAttempt,
                               locale: Json, nonce: string, idp: Idp, backend: Backend, token: Dict, info: Dict,
                               mapping: Option<seq<int>>, user: User, jwt: Jwt, e: string)
    requires IdentityFetched(p, config, query, attempt, idp, token, info)
    requires ClaimCheck(p, config, token, info, idp.decodeGroups) == Pass
    requires backend.checkWhitelist(Get(info, "email")) == Pass
    requires backend.findByEmail(Get(info, "email")) == Success(None)
    requires backend.defaultRoles == Success(mapping)
    requires backend.createUser(ExpectedNewUser(p, info, locale, mapping)) == Success(user)
    requires backend.createJwt(user) == Success(jwt)
    requires backend.triggerWebHook(user) == Fail(e)
    ensures Callback(p, config, query, attempt, locale, nonce, idp, backend).response == Sent(ErrorPage(e), None)
  {
    var email := Get(info, "email");
    var newUser := ExpectedNewUser(p, info, locale, mapping);
    assert NewUserFor(p, info, locale, mapping) == newUser;
    ClaimsPassedReachWhitelist(p, config, query, attempt, locale, nonce, idp, backend, token, info);
    assert NotifyNewUser(user, jwt, nonce, backend).response == Sent(ErrorPage(e), None);
    assert IssueForNewUser(user, nonce, backend).response == Sent(ErrorPage(e), None);
    assert Create(newUser, nonce, backend).response == Sent(ErrorPage(e), None);
    assert Provision(p, info, locale, nonce, backend).response == Sent(ErrorPage(e), None);
  }
}
