# strapi-plugin-sso: the Cognito and Azure AD sign-in flow

This project models how the Strapi SSO plugin signs in an admin user
through AWS Cognito or Azure AD. The flow is the OAuth 2.0 Authorization
Code grant (RFC 6749) with PKCE (RFC 7636), in two legs:

- **Sign-in leg.** `cognitoSignIn` and `azureAdSignIn` check the plugin
  configuration. They store a fresh PKCE verifier and a random `state` in
  the browser session, then answer `302` to the provider's authorize
  endpoint. The query carries the client id, redirect URI, scope,
  `response_type=code`, the S256 challenge and the state.
- **Callback leg.** `cognitoSignInCallback` and `azureAdSignInCallback`
  check the configuration, then the `code` gate and the `state` gate. Next
  they redeem the code at the token endpoint with the stored verifier and
  fetch userinfo with the access token. They then run the provider's claim
  checks and the whitelist. The user is found by email or provisioned with
  the default role mapping. Finally they issue a local JWT and render a
  success page. That page's Content-Security-Policy nonce is the one the
  page itself carries.

The two controllers are one flow with provider-specific parts.

| module | file | what it holds |
|---|---|---|
| `Wrappers` | `wrappers.dfy` | `Option`, `Result` and `Outcome` (pass, or fail with a message) |
| `Js` | `js.dfy` | the JavaScript values the controllers handle, plus JS truthiness and string conversion |
| `Params` | `params.dfy` | `URLSearchParams` as an ordered list of pairs, and reading a key back |
| `CognitoAdapter` | `cognito.dfy` | Cognito's config keys, endpoints, scope, claim checks and user names |
| `AzureAdAdapter` | `azuread.dfy` | Azure AD's config keys, endpoints, scope, email check and user names |
| `Provider` | `provider.dfy` | dispatch on the provider, and the authorize query |
| `SessionStore` | `session.dfy` | the session as a mutable object with the `codeVerifier` and `oidcState` entries |
| `SignInLeg` | `signin.dfy` | the sign-in leg, as a method that writes the session |
| `CallbackLeg` | `callback.dfy` | the callback leg, as a pure function returning the calls made and the response |
| `CallbackProperties` | `properties.dfy` | properties of the callback over all inputs |

Every collaborator of the callback is a field of the `Idp` or `Backend`
record. All but one are functions:

- the identity provider's token and userinfo requests;
- access-token claim decoding;
- the whitelist and the user directory;
- user creation, JWT issuance and the webhook.

The role mapping, `defaultRoles`, takes no argument, so it is a plain
value. Each collaborator answers with a value or with the message of the
error it throws. `Callback` returns a `Run`: the calls it made, in order, and the
response. The response is either an error that escapes the handler
(`Thrown`) or a sent page with its CSP header (`Sent`). The predicate
`Rendered` states what every sent page satisfies:

- the calls are in pipeline order;
- a CSP header is present exactly on the success page, and it carries
  that page's nonce;
- the sign-in success notification is the last call before a success page.

Where the code departs from what a reader might expect, the model follows
the code:

- Cognito validation does not require the region or the redirect URI.
  Azure AD validation does not require the redirect URI or the scope.
  A missing value is sent as the text `undefined`, because that is how
  `URLSearchParams.append` and template literals turn `undefined` into a
  string. `CognitoAdapter.MissingRegionNotRejected` states this.
- The callback validates the configuration before its `try` block. A
  configuration error therefore escapes the handler (`Thrown`) and is not
  rendered as an error page.
- Cognito requires `email_verified` to be exactly the string `"true"`.
- The group claim is decoded from the access token without checking its
  signature.
- The webhook is awaited inside `try`. Its failure renders the error page
  even though the user has already been created.
- `triggerSignInSuccess` is not awaited. The model records it as a call
  made before the page is rendered.
- Neither callback clears `codeVerifier` or `oidcState` from the session.
  The same code and state can be presented again, and the gates pass again.
- The user is looked up by the exact email string the provider returned.

## Model

| member | source | states |
|---|---|---|
| `Js.Get` | server/controllers/cognito.js:8 | reading a missing config key or claim gives `undefined`; a present key gives its value |
| `Js.Truthy` | server/controllers/cognito.js:8 | JavaScript truthiness, as the config, code, state, group and email checks use it; `Js.FalsyValues` states that exactly undefined, null, false and the empty string are falsy |
| `Js.FalsyValues` | server/controllers/azuread.js:96 | a value fails a truthiness check iff it is undefined, null, false or the empty string |
| `Js.ToStr` | server/controllers/cognito.js:45-46 | a string is sent as itself and `undefined` as the text "undefined", as `URLSearchParams.append` does |
| `Params.Keys` | server/controllers/cognito.js:44-51 | the keys of a query, in the order they were appended |
| `Params.Lookup` | server/controllers/cognito.js:52 | reading a key back gives nothing exactly when the key was never appended; otherwise the value is one that was appended under that key |
| `Params.LookupAt` | server/controllers/cognito.js:52 | reading a key back gives the value of its first occurrence |
| `Params.DistinctKeysLookup` | server/controllers/cognito.js:44-51 | when all keys are distinct, each key reads back the value appended with it |
| `CognitoAdapter.ConfigValidation` | server/controllers/cognito.js:6-12 | the config is accepted iff client id, client secret and domain are all truthy; on acceptance it is returned unchanged, and otherwise the fixed error message is given |
| `CognitoAdapter.MissingRegionNotRejected` | server/controllers/cognito.js:6-25 | a config without a region is accepted, and the Cognito host is then built with "undefined" as the region |
| `CognitoAdapter.Host` | server/controllers/cognito.js:17-25 | the hosted-UI origin built from domain and region; stated by `CognitoAdapter.EndpointUrls` |
| `CognitoAdapter.AuthorizeEndpoint` | server/controllers/cognito.js:17-19 | the authorize URL of the user pool; stated by `CognitoAdapter.EndpointUrls` |
| `CognitoAdapter.TokenEndpoint` | server/controllers/cognito.js:20-22 | the token URL of the user pool; stated by `CognitoAdapter.EndpointUrls` |
| `CognitoAdapter.UserInfoEndpoint` | server/controllers/cognito.js:23-25 | the userinfo URL of the user pool; stated by `CognitoAdapter.EndpointUrls` |
| `CognitoAdapter.EndpointUrls` | server/controllers/cognito.js:17-25 | the three endpoints are `https://<domain>.auth.<region>.amazoncognito.com` followed by `/oauth2/authorize`, `/oauth2/token` and `/oauth2/userInfo`, and they are pairwise distinct |
| `CognitoAdapter.NewUserNames` | server/controllers/cognito.js:124-127 | an empty family name and the `username` claim as given name; stated by `CallbackLeg.NewUserFor` |
| `CognitoAdapter.ClaimCheck` | server/controllers/cognito.js:95-105 | claims pass iff `email_verified` is exactly "true" and, when a user group is configured, the decoded `cognito:groups` (missing means empty) contains it; the failure message is the unverified-email one, the decoding error, or the not-in-group one |
| `AzureAdAdapter.ConfigValidation` | server/controllers/azuread.js:6-18 | the config is accepted iff client id, client secret and tenant id are all truthy; on acceptance it is returned unchanged, and otherwise the fixed error message is given |
| `AzureAdAdapter.TenantBase` | server/controllers/azuread.js:23-26 | the v2.0 endpoint base of the tenant; stated by `AzureAdAdapter.EndpointUrls` |
| `AzureAdAdapter.AuthorizeEndpoint` | server/controllers/azuread.js:23-24 | the tenant's authorize URL; stated by `AzureAdAdapter.EndpointUrls` |
| `AzureAdAdapter.TokenEndpoint` | server/controllers/azuread.js:25-26 | the tenant's token URL; stated by `AzureAdAdapter.EndpointUrls` |
| `AzureAdAdapter.EndpointUrls` | server/controllers/azuread.js:23-27 | the authorize and token endpoints are `https://login.microsoftonline.com/<tenant>/oauth2/v2.0` followed by `/authorize` and `/token`; they and the fixed Graph userinfo endpoint are pairwise distinct |
| `AzureAdAdapter.Scope` | server/controllers/azuread.js:48 | the configured scope is sent as it is, and a missing one as the text "undefined" |
| `AzureAdAdapter.NewUserNames` | server/controllers/azuread.js:122-126 | the `family_name` and `given_name` claims; stated by `CallbackLeg.NewUserFor` |
| `AzureAdAdapter.ClaimCheck` | server/controllers/azuread.js:96-98 | claims pass iff the userinfo `email` is truthy; a failure carries the email-not-set message |
| `Provider.AuthorizeQuery` | server/controllers/cognito.js:44-51 | the authorize query has exactly the seven keys client_id, redirect_uri, scope, response_type, code_challenge, code_challenge_method and state, in that order |
| `Provider.AuthorizeClientValues` | server/controllers/azuread.js:45-49 | the provider reads back the configured client id and redirect URI, the provider's scope (fixed for Cognito, configured for Azure AD) and `response_type=code` |
| `Provider.AuthorizePkceAndState` | server/controllers/cognito.js:49-51 | the provider reads back the PKCE challenge, the method S256 and the state stored in the session |
| `Provider.EndpointsDetermined` | server/controllers/cognito.js:17-25 | the authorize, token and userinfo endpoints depend only on domain and region (Cognito) or tenant id (Azure AD) |
| `SessionStore.Session.constructor` | server/controllers/cognito.js:68 | a session in which no sign-in has started holds no verifier and no state |
| `SessionStore.Session.Attempt` | server/controllers/cognito.js:68-80 | what the callback reads from the session is the stored verifier and state; `CallbackProperties.SignInThenCallbackOnSession` reads it after the sign-in leg |
| `SignInLeg.SignIn` | server/controllers/cognito.js:30-55 | on a config error, that error and an untouched session; otherwise a 302 to the provider's authorize endpoint with the authorize query, with the verifier and state stored in the session; no other session entry changes |
| `CallbackLeg.InPipelineOrderJoin` | server/controllers/cognito.js:82-142 | two pipeline-ordered call sequences, the second starting at a later stage, stay ordered when joined |
| `CallbackLeg.ThenRendered` | server/controllers/cognito.js:82-146 | prefixing a rendered run with an earlier-stage call keeps it rendered |
| `CallbackLeg.CspHeader` | server/controllers/cognito.js:141 | the CSP header value for a nonce; stated by `CallbackLeg.CspHeaderInjective` and by `Rendered` in every stage's contract |
| `CallbackLeg.CspHeaderInjective` | server/controllers/azuread.js:143 | the header determines its nonce: two different nonces never give the same header |
| `CallbackLeg.RoleRefs` | server/controllers/cognito.js:119-121 | the role records have the mapped ids, one each, in order |
| `CallbackLeg.DefaultRoleRefs` | server/controllers/cognito.js:118-121 | the new user's roles from the role record; stated by `CallbackProperties.DefaultRolesMapped` |
| `CallbackLeg.NewUserFor` | server/controllers/cognito.js:124-130 | a new user is created with the userinfo email, the request locale and the mapped roles; Cognito gives an empty family name and the `username` claim, Azure AD the `family_name` and `given_name` claims (azuread.js:122-128) |
| `CallbackLeg.TokenForm` | server/controllers/cognito.js:72-80 | the token request body has exactly the keys code, client_id, client_secret, redirect_uri, grant_type and code_verifier, in that order |
| `CallbackLeg.TokenFormRedeemsCode` | server/controllers/cognito.js:73-80 | the token request carries the callback's code, `grant_type=authorization_code` and the verifier from the session |
| `CallbackLeg.TokenFormClientValues` | server/controllers/azuread.js:75-77 | the token request authenticates with the configured client id and secret and repeats the configured redirect URI |
| `CallbackLeg.Bearer` | server/controllers/cognito.js:92 | the Authorization header is "Bearer " followed by the access token, or by "undefined" when the token answer has none |
| `CallbackLeg.Callback` | server/controllers/cognito.js:57-147 | the handler throws iff the config is invalid, with its message and no calls; every sent page is rendered; collaborators are called iff the config is valid, the code and state are truthy and the state equals the session's; the first call is then the token request |
| `CallbackLeg.Exchange` | server/controllers/cognito.js:83-89 | the token request comes first; when it fails, the run is exactly that call and the error page with its message, without a CSP header |
| `CallbackLeg.FetchIdentity` | server/controllers/cognito.js:90-105 | the userinfo request with the bearer token comes next; a failing request, or a failing claim check (including a token whose groups cannot be decoded), ends at that call on the error page with its message |
| `CallbackLeg.Whitelist` | server/controllers/cognito.js:108 | the whitelist is asked about the userinfo email before anything else local; a rejection ends at that call on the error page with its message |
| `CallbackLeg.FindUser` | server/controllers/cognito.js:110-114 | the directory is asked about the same email; a failing lookup ends at that call on the error page with its message |
| `CallbackLeg.Reuse` | server/controllers/cognito.js:114-116 | an existing user gets a JWT and succeeds iff JWT issuance does, with exactly the JWT call and the sign-in notification; a failing issuance ends at that call on the error page with its message; no user is created |
| `CallbackLeg.Provision` | server/controllers/cognito.js:118-121 | the role mapping is read only when a user must be created; a failing read ends at that call on the error page with its message |
| `CallbackLeg.Create` | server/controllers/cognito.js:124-130 | user creation comes next; its failure ends at that call on the error page with its message |
| `CallbackLeg.IssueForNewUser` | server/controllers/cognito.js:131 | a JWT is issued for the created user; its failure ends at that call on the error page with its message |
| `CallbackLeg.NotifyNewUser` | server/controllers/cognito.js:133-142 | the webhook comes before the sign-in notification; its failure ends at that call on the error page with its message |
| `CallbackProperties.MissingCodeFailsFirst` | server/controllers/cognito.js:65-67 | without a code the error page "code Not Found" is shown with no call made, whatever the state |
| `CallbackProperties.BadStateFailsBeforeExchange` | server/controllers/azuread.js:69-71 | with a code but an absent or mismatched state, the error page "Invalid state" is shown with no call made |
| `CallbackProperties.SignInThenCallback` | server/controllers/cognito.js:41-80 | the state the sign-in leg sends is the one it stores; a callback returning it passes both gates; the token request then carries the stored verifier with the authorization-code grant |
| `CallbackProperties.SignInThenCallbackOnSession` | server/controllers/cognito.js:30-85 | on one session object, the sign-in leg redirects with the authorize query and stores verifier and state; the callback returning that state, read against the session, first sends the token request with the stored verifier; the session is not cleared, so presenting the same callback again makes the same run |
| `CallbackProperties.GatedCallbackExchanges` | server/controllers/azuread.js:66-85 | past both gates the callback is the token exchange with the query code and the stored verifier |
| `CallbackProperties.ExchangeReachesIdentity` | server/controllers/azuread.js:85-94 | a token answer leads from the token request straight to the userinfo request |
| `CallbackProperties.GatesPassedExchange` | server/controllers/cognito.js:72-85 | once the gates pass, the first call is the token request built from the query code and the stored verifier |
| `CallbackProperties.TokenFailureRendered` | server/controllers/cognito.js:85-89 | a failed token request renders its message, and nothing else is called |
| `CallbackProperties.UserInfoFailureRendered` | server/controllers/cognito.js:90-94 | a failing userinfo request ends after the two provider calls on the error page with its message |
| `CallbackProperties.CognitoUnverifiedEmailRejected` | server/controllers/cognito.js:95-97 | Cognito stops after the two provider calls with the unverified-email page when `email_verified` is not exactly "true" |
| `CallbackProperties.CognitoGroupRequired` | server/controllers/cognito.js:99-105 | with a group configured, a verified user outside it (or without a groups claim) stops with the not-in-group page |
| `CallbackProperties.CognitoDecodeFailureRendered` | server/controllers/cognito.js:99-101 | with a group configured, an access token whose claims cannot be decoded ends after the two provider calls on the error page with the decoding error |
| `CallbackProperties.CognitoGroupCheckOnlyWhenConfigured` | server/controllers/cognito.js:99-100 | without a configured group, the outcome does not depend on how the access token decodes |
| `CallbackProperties.AzureAdEmailRequired` | server/controllers/azuread.js:96-98 | Azure AD stops after the two provider calls with the email-not-set page when `email` is falsy |
| `CallbackProperties.ClaimsPassedReachWhitelist` | server/controllers/cognito.js:83-108 | once the claims pass, the run is the two provider calls followed by the whitelist stage |
| `CallbackProperties.IdentityReachesWhitelist` | server/controllers/azuread.js:90-101 | accepted claims lead from the userinfo request straight to the whitelist |
| `CallbackProperties.WhitelistRejectionStops` | server/controllers/cognito.js:108 | a whitelist rejection renders its message; the directory is not consulted and no user is created |
| `CallbackProperties.ExistingUserReused` | server/controllers/cognito.js:110-142 | an existing user: exactly the provider calls, whitelist, lookup, JWT and sign-in notification, then the success page with its CSP header; no role read, no creation, no webhook |
| `CallbackProperties.ReuseRun` | server/controllers/azuread.js:101-109 | the same from the whitelist on |
| `CallbackProperties.NewUserProvisioned` | server/controllers/cognito.js:110-142 | an unknown email: the role mapping is read and the user is created once with the provider's names, the request locale and the mapped roles; then a JWT, the webhook and the sign-in notification; then the success page with its CSP header |
| `CallbackProperties.ProvisioningRun` | server/controllers/azuread.js:101-144 | the same from the whitelist on |
| `CallbackProperties.ProvisionRun` | server/controllers/azuread.js:111-135 | the role mapping is read, then the user is created with it, gets a JWT, the webhook and the sign-in notification, then the success page |
| `CallbackProperties.CreatedUserSignedIn` | server/controllers/azuread.js:129-144 | a created user gets a JWT, the webhook and the sign-in notification in that order, then the success page |
| `CallbackProperties.DefaultRolesMapped` | server/controllers/azuread.js:111-117 | a new user's roles are the mapped ids in order, and empty when the mapping or its `roles` is absent |
| `CallbackProperties.WebhookFailureRendered` | server/controllers/cognito.js:133-146 | a webhook failure after creation still ends on the error page with its message |

## Left out

- HTTP: the token POST and the userinfo GET are inputs (`Idp`). Their headers, URL encoding and transport errors are not modelled; an error is only its message.
- Randomness: the PKCE verifier and challenge, the `state` and the page nonce are parameters. `pkceChallenge`, `crypto.getRandomValues` and `randomUUID` are not part of this model.
- SHA-256 and base64url: the challenge is taken as given. That it is the S256 transform of the verifier is the identity provider's concern.
- Access-token decoding (base64 plus `JSON.parse` of the middle segment) is the input function `decodeGroups`. Its failure counts as a thrown error with a message.
- Percent-encoding: `URLSearchParams.toString` and joining the endpoint with `?` are represented as the `Url` pair of endpoint and query.
- HTML rendering: `renderSignUpSuccess` and `renderSignUpError` are represented by the `Page` value they render.
- `localeFindByHeader`: the locale is a parameter of the callback.
- The internals of the whitelist, user, token, role and webhook services are not part of this model; each is a function of `Backend`.
- `console.error` logging is not modelled.
- Asynchrony: awaited calls are sequential. The un-awaited `triggerSignInSuccess` is recorded as made before the page, and its own failure is not modelled.
- JavaScript numbers, arrays and objects are not among the `Json` values. Only the string, boolean, null and undefined values the gates and claim checks inspect are modelled.
- `CallbackLeg.Callback`: the session is passed as the `AuthAttempt` value read from it, because the callback only reads it.
- The Strapi route wiring and the other controllers are not part of this model.
