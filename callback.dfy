/**
 * The callback leg (`cognitoSignInCallback`, `azureAdSignInCallback`) as a
 * pure function. Every collaborator the controllers call (the two HTTP
 * requests, the whitelist, the user directory, the role mapping, user
 * creation, JWT issuance and the notifications) is a field of `Idp` or `Backend`,
 * and the result records, in order, each call that was made.
 */
module CallbackLeg {

  import opened Wrappers
  import opened Js
  import opened Params
  import opened Provider
  import opened SessionStore

  /** `ctx.query.code` and `ctx.query.state`. */
  datatype Query = Query(code: Json, state: Json)

  /** A local admin user record; the flow never looks inside it. */
  datatype User = User(id: int)

  /** The local session token issued by the token service. */
  datatype Jwt = Jwt(token: string)

  /** `{ id: role }`, one per role id of the provider's default role mapping. */
  datatype RoleRef = RoleRef(id: int)

  /** The arguments of `oauthService.createUser`. */
  datatype NewUser = NewUser(email: Json, familyName: Json, givenName: Json, locale: Json, roles: seq<RoleRef>)

  /**
   * The identity provider as the callback sees it: the token request, the
   * userinfo request, each answering with a value or with the message of the
   * error it throws, and `decodeGroups`, the unverified decoding of the
   * `cognito:groups` claim from the access token's middle segment.
   */
  datatype Idp = Idp(
    tokenPost: (string, seq<Pair>) -> Result<Dict>,
    userInfoGet: (string, string) -> Result<Dict>,
    decodeGroups: Json -> Result<Option<seq<Json>>>)

  /**
   * The local collaborators: the whitelist service, the admin user service,
   * the role service (`defaultRoles` is the `roles` entry of the provider's
   * role record, `None` when either is absent), the token service and the
   * webhook. Each answers with a value or with the message of its error.
   */
  datatype Backend = Backend(
    checkWhitelist: Json -> Outcome,
    findByEmail: Json -> Result<Option<User>>,
    defaultRoles: Result<Option<seq<int>>>,
    createUser: NewUser -> Result<User>,
    createJwt: User -> Result<Jwt>,
    triggerWebHook: User -> Outcome)

  /** One call to a collaborator, with its arguments. */
  datatype Call =
    | TokenPost(url: string, form: seq<Pair>)
    | UserInfoGet(url: string, authorization: string)
    | CheckWhitelist(email: Json)
    | FindByEmail(email: Json)
    | LoadDefaultRoles
    | CreateUser(newUser: NewUser)
    | CreateJwt(user: User)
    | TriggerWebHook(user: User)
    | TriggerSignInSuccess(user: User)

  datatype Page = ErrorPage(message: string) | SuccessPage(jwt: Jwt, user: User, nonce: string)

  /**
   * `Thrown` is an error that escapes the handler (the framework answers it);
   * `Sent` is a rendered page and the Content-Security-Policy header, if set.
   */
  datatype Response = Thrown(message: string) | Sent(page: Page, csp: Option<string>)

  datatype Run = Run(calls: seq<Call>, response: Response)

  const CodeNotFound := "code Not Found"
  const InvalidState := "Invalid state"
  const GrantType := "authorization_code"

  /** The header value that lets only scripts carrying `nonce` run. */
  function CspHeader(nonce: string): string
  {
    "script-src 'nonce-" + nonce + "'"
  }

  /** The header names exactly one nonce: two different nonces never give the same header. */
  lemma CspHeaderInjective(n1: string, n2: string)
    requires CspHeader(n1) == CspHeader(n2)
    ensures n1 == n2
  {
    var prefix := "script-src 'nonce-";
    assert |n1| == |n2|;
    assert n1 == CspHeader(n1)[|prefix|..|prefix| + |n1|];
    assert n2 == CspHeader(n2)[|prefix|..|prefix| + |n2|];
  }

  /** The position of each collaborator in the pipeline. */
  function Stage(c: Call): nat
  {
    match c
    case TokenPost(_, _) => 0
    case UserInfoGet(_, _) => 1
    case CheckWhitelist(_) => 2
    case FindByEmail(_) => 3
    case LoadDefaultRoles => 4
    case CreateUser(_) => 5
    case CreateJwt(_) => 6
    case TriggerWebHook(_) => 7
    case TriggerSignInSuccess(_) => 8
  }

  /** Each call belongs to a later stage than the one before it. */
  predicate InPipelineOrder(calls: seq<Call>)
  {
    forall i | 0 < i < |calls| :: Stage(calls[i - 1]) < Stage(calls[i])
  }

  /** Two runs in pipeline order, the second starting after the first ends, stay in order when joined. */
  lemma InPipelineOrderJoin(a: seq<Call>, b: seq<Call>)
    requires InPipelineOrder(a) && InPipelineOrder(b)
    requires a != [] && b != [] ==> Stage(a[|a| - 1]) < Stage(b[0])
    ensures InPipelineOrder(a + b)
  {
    forall i | 0 < i < |a + b|
      ensures Stage((a + b)[i - 1]) < Stage((a + b)[i])
    {
      if i > |a| {
        assert (a + b)[i - 1] == b[i - 1 - |a|] && (a + b)[i] == b[i - |a|];
      }
    }
  }

  /** The error page, which never carries a CSP header. */
  function ErrorRun(message: string): Run
  {
    Run([], Sent(ErrorPage(message), None))
  }

  /**
   * The success page and the CSP header carrying the same nonce, after the
   * sign-in success notification.
   */
  function SuccessRun(jwt: Jwt, user: User, nonce: string): Run
  {
    Run([TriggerSignInSuccess(user)], Sent(SuccessPage(jwt, user, nonce), Some(CspHeader(nonce))))
  }

  /** `c` was called, and what followed it is `run`. */
  function Then(c: Call, run: Run): Run
  {
    Run([c] + run.calls, run.response)
  }

  /**
   * A run that ends in a rendered page: calls in pipeline order, a CSP header
   * exactly on success and with the page's nonce, and a success page only
   * after the sign-in success notification.
   */
  predicate Rendered(run: Run, nonce: string)
  {
    && run.response.Sent?
    && InPipelineOrder(run.calls)
    && run.response.csp == (if run.response.page.SuccessPage? then Some(CspHeader(nonce)) else None)
    && (run.response.page.SuccessPage? ==>
          && run.response.page.nonce == nonce
          && |run.calls| > 0
          && run.calls[|run.calls| - 1] == TriggerSignInSuccess(run.response.page.user))
  }

  lemma ThenRendered(c: Call, run: Run, nonce: string)
    requires Rendered(run, nonce)
    requires run.calls != [] ==> Stage(c) < Stage(run.calls[0])
    ensures Rendered(Then(c, run), nonce)
  {
    InPipelineOrderJoin([c], run.calls);
  }

  /** The mapped role ids as `{ id }` records, in order. */
  function RoleRefs(ids: seq<int>): (roles: seq<RoleRef>)
    ensures |roles| == |ids|
    ensures forall i | 0 <= i < |ids| :: roles[i].id == ids[i]
  {
    if ids == [] then [] else [RoleRef(ids[0])] + RoleRefs(ids[1..])
  }

  /** The roles of a new user: the mapped ids, or none when the mapping is absent. */
  function DefaultRoleRefs(mapping: Option<seq<int>>): seq<RoleRef>
  {
    match mapping
    case None => []
    case Some(ids) => RoleRefs(ids)
  }

  /** The keys of the token request body, in the order the controllers append them. */
  const TokenKeys := ["code", "client_id", "client_secret", "redirect_uri", "grant_type", "code_verifier"]

  /**
   * The form body of the token request (section 4.1.3 of RFC 6749 with the
   * `code_verifier` of section 4.5 of RFC 7636); its values are read back by
   * `TokenFormRedeemsCode` and `TokenFormClientValues`.
   */
  function TokenForm(p: Provider, config: Dict, code: Json, verifier: Json): (form: seq<Pair>)
    ensures Keys(form) == TokenKeys
  {
    [("code", ToStr(code)),
     ("client_id", ToStr(ClientId(p, config))),
     ("client_secret", ToStr(ClientSecret(p, config))),
     ("redirect_uri", ToStr(RedirectUri(p, config))),
     ("grant_type", GrantType),
     ("code_verifier", ToStr(verifier))]
  }

  lemma TokenKeysDistinct()
    ensures forall i, j | 0 <= i < j < |TokenKeys| :: TokenKeys[i] != TokenKeys[j]
  {
  }

  /** The token request proves possession of the verifier stored by the sign-in leg and redeems the code. */
  lemma TokenFormRedeemsCode(p: Provider, config: Dict, code: Json, verifier: Json)
    ensures var form := TokenForm(p, config, code, verifier);
      && Lookup(form, "code") == Some(ToStr(code))
      && Lookup(form, "grant_type") == Some("authorization_code")
      && Lookup(form, "code_verifier") == Some(ToStr(verifier))
  {
    var form := TokenForm(p, config, code, verifier);
    TokenKeysDistinct();
    DistinctKeysLookup(form, TokenKeys);
    assert TokenKeys[0] == "code" && TokenKeys[4] == "grant_type" && TokenKeys[5] == "code_verifier";
  }

  /** The token request authenticates the client with the configured id, secret and redirect URI. */
  lemma TokenFormClientValues(p: Provider, config: Dict, code: Json, verifier: Json)
    ensures var form := TokenForm(p, config, code, verifier);
      && Lookup(form, "client_id") == Some(ToStr(ClientId(p, config)))
      && Lookup(form, "client_secret") == Some(ToStr(ClientSecret(p, config)))
      && Lookup(form, "redirect_uri") == Some(ToStr(RedirectUri(p, config)))
  {
    var form := TokenForm(p, config, code, verifier);
    TokenKeysDistinct();
    DistinctKeysLookup(form, TokenKeys);
    assert TokenKeys[1] == "client_id" && TokenKeys[2] == "client_secret" && TokenKeys[3] == "redirect_uri";
  }

  /** `Authorization: Bearer <access_token>`. */
  function Bearer(token: Dict): (header: string)
    ensures Get(token, "access_token").Str? ==> header == "Bearer " + Get(token, "access_token").s
    ensures "access_token" !in token ==> header == "Bearer undefined"
  {
    "Bearer " + ToStr(Get(token, "access_token"))
  }

  /**
   * The whole callback: the configuration, the code gate, the state gate,
   * then the guarded steps of the `try` block.
   */
  function Callback(p: Provider, config: Dict, query: Query, attempt: AuthAttempt,
                    locale: Json, nonce: string, idp: Idp, backend: Backend): (run: Run)
    ensures run.response.Thrown? <==> ConfigValidation(p, config).Failure?
    ensures run.response.Thrown? ==> run.response.message == ConfigError(p) && run.calls == []
    ensures run.response.Sent? ==> Rendered(run, nonce)
    ensures |run.calls| > 0 <==>
      && ConfigValidation(p, config).Success?
      && Truthy(query.code)
      && Truthy(query.state)
      && query.state == attempt.oidcState
    ensures |run.calls| > 0 ==>
      run.calls[0] == TokenPost(TokenEndpoint(p, config), TokenForm(p, config, query.code, attempt.codeVerifier))
  {
    match ConfigValidation(p, config)
    case Failure(e) => Run([], Thrown(e))
    case Success(cfg) =>
      if !Truthy(query.code) then ErrorRun(CodeNotFound)
      else if !Truthy(query.state) || query.state != attempt.oidcState then ErrorRun(InvalidState)
      else Exchange(p, cfg, query.code, attempt.codeVerifier, locale, nonce, idp, backend)
  }

  /** The token request; its failure message is rendered. */
  function Exchange(p: Provider, config: Dict, code: Json, verifier: Json,
                    locale: Json, nonce: string, idp: Idp, backend: Backend): (run: Run)
    ensures Rendered(run, nonce)
    ensures run.calls != [] && run.calls[0] == TokenPost(TokenEndpoint(p, config), TokenForm(p, config, code, verifier))
    ensures var answer := idp.tokenPost(TokenEndpoint(p, config), TokenForm(p, config, code, verifier));
      answer.Failure? ==>
        run == Run([TokenPost(TokenEndpoint(p, config), TokenForm(p, config, code, verifier))], Sent(ErrorPage(answer.error), None))
  {
    var form := TokenForm(p, config, code, verifier);
    var next := match idp.tokenPost(TokenEndpoint(p, config), form)
                case Failure(e) => ErrorRun(e)
                case Success(token) => FetchIdentity(p, config, token, locale, nonce, idp, backend);
    ThenRendered(TokenPost(TokenEndpoint(p, config), form), next, nonce);
    Then(TokenPost(TokenEndpoint(p, config), form), next)
  }

  /** The userinfo request with the access token, then the provider's claim checks. */
  function FetchIdentity(p: Provider, config: Dict, token: Dict,
                         locale: Json, nonce: string, idp: Idp, backend: Backend): (run: Run)
    ensures Rendered(run, nonce)
    ensures run.calls != [] && run.calls[0] == UserInfoGet(UserInfoEndpoint(p, config), Bearer(token))
    ensures var answer := idp.userInfoGet(UserInfoEndpoint(p, config), Bearer(token));
      answer.Failure? ==>
        run == Run([UserInfoGet(UserInfoEndpoint(p, config), Bearer(token))], Sent(ErrorPage(answer.error), None))
    ensures var answer := idp.userInfoGet(UserInfoEndpoint(p, config), Bearer(token));
      answer.Success? && ClaimCheck(p, config, token, answer.value, idp.decodeGroups).Fail? ==>
        run == Run([UserInfoGet(UserInfoEndpoint(p, config), Bearer(token))],
                   Sent(ErrorPage(ClaimCheck(p, config, token, answer.value, idp.decodeGroups).error), None))
  {
    var next := match idp.userInfoGet(UserInfoEndpoint(p, config), Bearer(token))
                case Failure(e) => ErrorRun(e)
                case Success(info) =>
                  match ClaimCheck(p, config, token, info, idp.decodeGroups)
                  case Fail(e) => ErrorRun(e)
                  case Pass => Whitelist(p, info, locale, nonce, backend);
    ThenRendered(UserInfoGet(UserInfoEndpoint(p, config), Bearer(token)), next, nonce);
    Then(UserInfoGet(UserInfoEndpoint(p, config), Bearer(token)), next)
  }

  /** The whitelist verdict on the userinfo `email`; a rejection is rendered with its message. */
  function Whitelist(p: Provider, info: Dict, locale: Json, nonce: string, backend: Backend): (run: Run)
    ensures Rendered(run, nonce)
    ensures run.calls != [] && run.calls[0] == CheckWhitelist(Get(info, "email"))
    ensures var verdict := backend.checkWhitelist(Get(info, "email"));
      verdict.Fail? ==> run == Run([CheckWhitelist(Get(info, "email"))], Sent(ErrorPage(verdict.error), None))
  {
    var email := Get(info, "email");
    var next := match backend.checkWhitelist(email)
                case Fail(e) => ErrorRun(e)
                case Pass => FindUser(p, info, locale, nonce, backend);
    ThenRendered(CheckWhitelist(email), next, nonce);
    Then(CheckWhitelist(email), next)
  }

  /** The directory lookup by exact email: reuse the user found, or provision a new one. */
  function FindUser(p: Provider, info: Dict, locale: Json, nonce: string, backend: Backend): (run: Run)
    ensures Rendered(run, nonce)
    ensures run.calls != [] && run.calls[0] == FindByEmail(Get(info, "email"))
    ensures var found := backend.findByEmail(Get(info, "email"));
      found.Failure? ==> run == Run([FindByEmail(Get(info, "email"))], Sent(ErrorPage(found.error), None))
  {
    var email := Get(info, "email");
    var next := match backend.findByEmail(email)
                case Failure(e) => ErrorRun(e)
                case Success(found) =>
                  if found.Some? then Reuse(found.value, nonce, backend)
                  else Provision(p, info, locale, nonce, backend);
    ThenRendered(FindByEmail(email), next, nonce);
    Then(FindByEmail(email), next)
  }

  /** An existing user is used as it is: a JWT is issued for it and no user is created. */
  function Reuse(user: User, nonce: string, backend: Backend): (run: Run)
    ensures Rendered(run, nonce)
    ensures run.calls != [] && run.calls[0] == CreateJwt(user)
    ensures run.response.page.SuccessPage? <==> backend.createJwt(user).Success?
    ensures backend.createJwt(user).Success? ==>
      && run.response.page == SuccessPage(backend.createJwt(user).value, user, nonce)
      && run.calls == [CreateJwt(user), TriggerSignInSuccess(user)]
    ensures backend.createJwt(user).Failure? ==>
      run == Run([CreateJwt(user)], Sent(ErrorPage(backend.createJwt(user).error), None))
  {
    var next := match backend.createJwt(user)
                case Failure(e) => ErrorRun(e)
                case Success(jwt) => SuccessRun(jwt, user, nonce);
    ThenRendered(CreateJwt(user), next, nonce);
    Then(CreateJwt(user), next)
  }

  /** The arguments a new user is created with. */
  function NewUserFor(p: Provider, info: Dict, locale: Json, mapping: Option<seq<int>>): (nu: NewUser)
    ensures nu.email == Get(info, "email") && nu.locale == locale && nu.roles == DefaultRoleRefs(mapping)
    ensures p.Cognito? ==> nu.familyName == Str("") && nu.givenName == Get(info, "username")
    ensures p.AzureAd? ==>
      nu.familyName == Get(info, "family_name") && nu.givenName == Get(info, "given_name")
  {
    var names := NewUserNames(p, info);
    NewUser(Get(info, "email"), names.0, names.1, locale, DefaultRoleRefs(mapping))
  }

  /** The provider's default role mapping, read only when a user must be created. */
  function Provision(p: Provider, info: Dict, locale: Json, nonce: string, backend: Backend): (run: Run)
    ensures Rendered(run, nonce)
    ensures run.calls != [] && run.calls[0] == LoadDefaultRoles
    ensures backend.defaultRoles.Failure? ==>
      run == Run([LoadDefaultRoles], Sent(ErrorPage(backend.defaultRoles.error), None))
  {
    var next := match backend.defaultRoles
                case Failure(e) => ErrorRun(e)
                case Success(mapping) => Create(NewUserFor(p, info, locale, mapping), nonce, backend);
    ThenRendered(LoadDefaultRoles, next, nonce);
    Then(LoadDefaultRoles, next)
  }

  /** `createUser`, then a JWT for the created user. */
  function Create(newUser: NewUser, nonce: string, backend: Backend): (run: Run)
    ensures Rendered(run, nonce)
    ensures run.calls != [] && run.calls[0] == CreateUser(newUser)
    ensures backend.createUser(newUser).Failure? ==>
      run == Run([CreateUser(newUser)], Sent(ErrorPage(backend.createUser(newUser).error), None))
  {
    var next := match backend.createUser(newUser)
                case Failure(e) => ErrorRun(e)
                case Success(user) => IssueForNewUser(user, nonce, backend);
    ThenRendered(CreateUser(newUser), next, nonce);
    Then(CreateUser(newUser), next)
  }

  /** A JWT for the user just created; its failure is rendered. */
  function IssueForNewUser(user: User, nonce: string, backend: Backend): (run: Run)
    ensures Rendered(run, nonce)
    ensures run.calls != [] && run.calls[0] == CreateJwt(user)
    ensures backend.createJwt(user).Failure? ==>
      run == Run([CreateJwt(user)], Sent(ErrorPage(backend.createJwt(user).error), None))
  {
    var next := match backend.createJwt(user)
                case Failure(e) => ErrorRun(e)
                case Success(jwt) => NotifyNewUser(user, jwt, nonce, backend);
    ThenRendered(CreateJwt(user), next, nonce);
    Then(CreateJwt(user), next)
  }

  /** The webhook, awaited: its error is rendered like any other. */
  function NotifyNewUser(user: User, jwt: Jwt, nonce: string, backend: Backend): (run: Run)
    ensures Rendered(run, nonce)
    ensures run.calls != [] && run.calls[0] == TriggerWebHook(user)
    ensures backend.triggerWebHook(user).Fail? ==>
      run == Run([TriggerWebHook(user)], Sent(ErrorPage(backend.triggerWebHook(user).error), None))
  {
    var next := match backend.triggerWebHook(user)
                case Fail(e) => ErrorRun(e)
                case Pass => SuccessRun(jwt, user, nonce);
    ThenRendered(TriggerWebHook(user), next, nonce);
    Then(TriggerWebHook(user), next)
  }
}
