/**
 * What is specific to Azure AD in the Azure AD controller: its config keys,
 * the endpoints built from the tenant id, the configured scope, the email
 * presence check and the names a new user gets.
 */
module AzureAdAdapter {

  import opened Wrappers
  import opened Js

  const ClientIdKey := "AZUREAD_OAUTH_CLIENT_ID"
  const ClientSecretKey := "AZUREAD_OAUTH_CLIENT_SECRET"
  const TenantIdKey := "AZUREAD_TENANT_ID"
  const RedirectUriKey := "AZUREAD_OAUTH_REDIRECT_URI"
  const ScopeKey := "AZUREAD_SCOPE"

  const ConfigError := "AZUREAD_OAUTH_CLIENT_ID, AZUREAD_OAUTH_CLIENT_SECRET, and AZUREAD_TENANT_ID are required"
  const EmailNotSetError := "Email address is not set. Please set email property to the Azure AD user."

  /** The userinfo endpoint is the same for every tenant. */
  const UserInfoEndpoint := "https://graph.microsoft.com/oidc/userinfo"

  /** Client id, client secret and tenant id must all be truthy; redirect URI and scope are not looked at. */
  function ConfigValidation(config: Dict): (r: Result<Dict>)
    ensures r.Success? <==>
      Truthy(Get(config, ClientIdKey)) && Truthy(Get(config, ClientSecretKey)) && Truthy(Get(config, TenantIdKey))
    ensures r.Success? ==> r.value == config
    ensures r.Failure? ==> r.error == ConfigError
  {
    if Truthy(Get(config, ClientIdKey)) && Truthy(Get(config, ClientSecretKey)) && Truthy(Get(config, TenantIdKey))
    then Success(config)
    else Failure(ConfigError)
  }

  /** `https://login.microsoftonline.com/<tenant>/oauth2/v2.0`. */
  function TenantBase(config: Dict): string
  {
    "https://login.microsoftonline.com/" + ToStr(Get(config, TenantIdKey)) + "/oauth2/v2.0"
  }

  function AuthorizeEndpoint(config: Dict): string
  {
    TenantBase(config) + "/authorize"
  }

  function TokenEndpoint(config: Dict): string
  {
    TenantBase(config) + "/token"
  }

  /** The scope is whatever is configured, stringified as `URLSearchParams` does. */
  function Scope(config: Dict): (s: string)
    ensures Get(config, ScopeKey).Str? ==> s == Get(config, ScopeKey).s
    ensures ScopeKey !in config ==> s == "undefined"
  {
    ToStr(Get(config, ScopeKey))
  }

  /**
   * The authorize and token endpoints are the v2.0 endpoints of the tenant;
   * all three endpoints are pairwise distinct.
   */
  lemma EndpointUrls(config: Dict)
    ensures var base := "https://login.microsoftonline.com/" + ToStr(Get(config, TenantIdKey)) + "/oauth2/v2.0";
      && AuthorizeEndpoint(config) == base + "/authorize"
      && TokenEndpoint(config) == base + "/token"
    ensures AuthorizeEndpoint(config) != TokenEndpoint(config)
    ensures AuthorizeEndpoint(config) != UserInfoEndpoint
    ensures TokenEndpoint(config) != UserInfoEndpoint
  {
    var b := TenantBase(config);
    assert |AuthorizeEndpoint(config)| == |b| + 10;
    assert |TokenEndpoint(config)| == |b| + 6;
    assert AuthorizeEndpoint(config)[8] == 'l' && TokenEndpoint(config)[8] == 'l' && UserInfoEndpoint[8] == 'g';
  }

  /** The only claim check: the userinfo `email` must be truthy. */
  function ClaimCheck(info: Dict): (r: Outcome)
    ensures r == Pass <==> Truthy(Get(info, "email"))
    ensures r.Fail? ==> r.error == EmailNotSetError
  {
    if !Truthy(Get(info, "email")) then Fail(EmailNotSetError) else Pass
  }

  /** Azure AD provisions with the `family_name` and `given_name` claims. */
  function NewUserNames(info: Dict): (Json, Json)
  {
    (Get(info, "family_name"), Get(info, "given_name"))
  }
}
