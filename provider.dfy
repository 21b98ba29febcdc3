/**
 * The two controllers share one flow; this module selects, per provider,
 * the pieces in which they differ.
 */
module Provider {

  import opened Wrappers
  import opened Js
  import opened Params
  import Cognito = CognitoAdapter
  import AzureAd = AzureAdAdapter

  datatype Provider = Cognito | AzureAd

  const ResponseType := "code"
  const ChallengeMethod := "S256"

  function ConfigValidation(p: Provider, config: Dict): Result<Dict>
  {
    match p
    case Cognito => Cognito.ConfigValidation(config)
    case AzureAd => AzureAd.ConfigValidation(config)
  }

  function ConfigError(p: Provider): string
  {
    match p
    case Cognito => Cognito.ConfigError
    case AzureAd => AzureAd.ConfigError
  }

  function ClientId(p: Provider, config: Dict): Json
  {
    match p
    case Cognito => Get(config, Cognito.ClientIdKey)
    case AzureAd => Get(config, AzureAd.ClientIdKey)
  }

  function ClientSecret(p: Provider, config: Dict): Json
  {
    match p
    case Cognito => Get(config, Cognito.ClientSecretKey)
    case AzureAd => Get(config, AzureAd.ClientSecretKey)
  }

  function RedirectUri(p: Provider, config: Dict): Json
  {
    match p
    case Cognito => Get(config, Cognito.RedirectUriKey)
    case AzureAd => Get(config, AzureAd.RedirectUriKey)
  }

  function Scope(p: Provider, config: Dict): string
  {
    match p
    case Cognito => Cognito.Scope
    case AzureAd => AzureAd.Scope(config)
  }

  function AuthorizeEndpoint(p: Provider, config: Dict): string
  {
    match p
    case Cognito => Cognito.AuthorizeEndpoint(config)
    case AzureAd => AzureAd.AuthorizeEndpoint(config)
  }

  function TokenEndpoint(p: Provider, config: Dict): string
  {
    match p
    case Cognito => Cognito.TokenEndpoint(config)
    case AzureAd => AzureAd.TokenEndpoint(config)
  }

  function UserInfoEndpoint(p: Provider, config: Dict): string
  {
    match p
    case Cognito => Cognito.UserInfoEndpoint(config)
    case AzureAd => AzureAd.UserInfoEndpoint
  }

  /** The provider-specific checks between the userinfo fetch and the whitelist. */
  function ClaimCheck(p: Provider, config: Dict, token: Dict, info: Dict,
                      decodeGroups: Json -> Result<Option<seq<Json>>>): Outcome
  {
    match p
    case Cognito => Cognito.ClaimCheck(config, token, info, decodeGroups)
    case AzureAd => AzureAd.ClaimCheck(info)
  }

  /** (family name, given name) of a user provisioned from these claims. */
  function NewUserNames(p: Provider, info: Dict): (Json, Json)
  {
    match p
    case Cognito => Cognito.NewUserNames(info)
    case AzureAd => AzureAd.NewUserNames(info)
  }

  /** The keys of the authorize query, in the order the controllers append them. */
  const AuthorizeKeys := ["client_id", "redirect_uri", "scope", "response_type",
                          "code_challenge", "code_challenge_method", "state"]

  /**
   * The authorize query (section 4.1.1 of RFC 6749 with the PKCE parameters
   * of section 4.3 of RFC 7636); its values are read back by
   * `AuthorizeClientValues` and `AuthorizePkceAndState`.
   */
  function AuthorizeQuery(p: Provider, config: Dict, challenge: string, state: string): (q: seq<Pair>)
    ensures Keys(q) == AuthorizeKeys
  {
    [("client_id", ToStr(ClientId(p, config))),
     ("redirect_uri", ToStr(RedirectUri(p, config))),
     ("scope", Scope(p, config)),
     ("response_type", ResponseType),
     ("code_challenge", challenge),
     ("code_challenge_method", ChallengeMethod),
     ("state", state)]
  }

  /** What the identity provider reads as client, redirect URI, scope and response type. */
  lemma AuthorizeClientValues(p: Provider, config: Dict, challenge: string, state: string)
    ensures var q := AuthorizeQuery(p, config, challenge, state);
      && Lookup(q, "client_id") == Some(ToStr(ClientId(p, config)))
      && Lookup(q, "redirect_uri") == Some(ToStr(RedirectUri(p, config)))
      && Lookup(q, "scope") == Some(Scope(p, config))
      && Lookup(q, "response_type") == Some("code")
  {
    var q := AuthorizeQuery(p, config, challenge, state);
    AuthorizeKeysDistinct();
    DistinctKeysLookup(q, AuthorizeKeys);
    assert AuthorizeKeys[0] == "client_id" && AuthorizeKeys[1] == "redirect_uri";
    assert AuthorizeKeys[2] == "scope" && AuthorizeKeys[3] == "response_type";
  }

  /** What the identity provider reads as PKCE challenge, its method, and the state it must send back. */
  lemma AuthorizePkceAndState(p: Provider, config: Dict, challenge: string, state: string)
    ensures var q := AuthorizeQuery(p, config, challenge, state);
      && Lookup(q, "code_challenge") == Some(challenge)
      && Lookup(q, "code_challenge_method") == Some("S256")
      && Lookup(q, "state") == Some(state)
  {
    var q := AuthorizeQuery(p, config, challenge, state);
    AuthorizeKeysDistinct();
    DistinctKeysLookup(q, AuthorizeKeys);
    assert AuthorizeKeys[4] == "code_challenge" && AuthorizeKeys[5] == "code_challenge_method";
    assert AuthorizeKeys[6] == "state";
  }

  /**
   * The endpoints are determined by the user-pool domain and region
   * (Cognito) or by the tenant id (Azure AD) alone.
   */
  lemma EndpointsDetermined(p: Provider, c1: Dict, c2: Dict)
    requires p.Cognito? ==>
      Get(c1, Cognito.DomainKey) == Get(c2, Cognito.DomainKey) && Get(c1, Cognito.RegionKey) == Get(c2, Cognito.RegionKey)
    requires p.AzureAd? ==> Get(c1, AzureAd.TenantIdKey) == Get(c2, AzureAd.TenantIdKey)
    ensures AuthorizeEndpoint(p, c1) == AuthorizeEndpoint(p, c2)
    ensures TokenEndpoint(p, c1) == TokenEndpoint(p, c2)
    ensures UserInfoEndpoint(p, c1) == UserInfoEndpoint(p, c2)
  {
  }

  lemma AuthorizeKeysDistinct()
    ensures forall i, j | 0 <= i < j < |AuthorizeKeys| :: AuthorizeKeys[i] != AuthorizeKeys[j]
  {
  }
}
