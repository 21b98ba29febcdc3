/**
 * What is specific to AWS Cognito in the Cognito controller: its config
 * keys, the endpoints built from the user-pool domain and region, the fixed
 * scope, the post-token claim checks and the names a new user gets.
 */
module CognitoAdapter {

  import opened Wrappers
  import opened Js

  const ClientIdKey := "COGNITO_OAUTH_CLIENT_ID"
  const ClientSecretKey := "COGNITO_OAUTH_CLIENT_SECRET"
  const DomainKey := "COGNITO_OAUTH_DOMAIN"
  const RegionKey := "COGNITO_OAUTH_REGION"
  const RedirectUriKey := "COGNITO_OAUTH_REDIRECT_URI"
  const UserGroupKey := "COGNITO_USER_GROUP"

  const ConfigError := "COGNITO_OAUTH_CLIENT_ID, COGNITO_OAUTH_CLIENT_SECRET AND COGNITO_OAUTH_DOMAIN are required"
  const NotVerifiedError := "Your email address has not been verified."
  const NotInGroupError := "You do not belong to the specified user group."

  /** The scope is fixed for Cognito. */
  const Scope := "openid email profile"

  /** Client id, client secret and domain must all be truthy; region and redirect URI are not looked at. */
  function ConfigValidation(config: Dict): (r: Result<Dict>)
    ensures r.Success? <==>
      Truthy(Get(config, ClientIdKey)) && Truthy(Get(config, ClientSecretKey)) && Truthy(Get(config, DomainKey))
    ensures r.Success? ==> r.value == config
    ensures r.Failure? ==> r.error == ConfigError
  {
    if Truthy(Get(config, ClientIdKey)) && Truthy(Get(config, ClientSecretKey)) && Truthy(Get(config, DomainKey))
    then Success(config)
    else Failure(ConfigError)
  }

  /** The hosted-UI origin of the user pool, `https://<domain>.auth.<region>.amazoncognito.com`. */
  function Host(config: Dict): string
  {
    "https://" + ToStr(Get(config, DomainKey)) + ".auth." + ToStr(Get(config, RegionKey)) + ".amazoncognito.com"
  }

  function AuthorizeEndpoint(config: Dict): string
  {
    Host(config) + "/oauth2/authorize"
  }

  function TokenEndpoint(config: Dict): string
  {
    Host(config) + "/oauth2/token"
  }

  function UserInfoEndpoint(config: Dict): string
  {
    Host(config) + "/oauth2/userInfo"
  }

  /**
   * A configuration without a region passes validation, and the host is then
   * built with the literal text `undefined` in place of the region.
   */
  lemma MissingRegionNotRejected(config: Dict)
    requires Truthy(Get(config, ClientIdKey)) && Truthy(Get(config, ClientSecretKey)) && Truthy(Get(config, DomainKey))
    requires RegionKey !in config
    ensures ConfigValidation(config).Success?
    ensures Host(config) == "https://" + ToStr(Get(config, DomainKey)) + ".auth.undefined.amazoncognito.com"
  {
    var domain := ToStr(Get(config, DomainKey));
    assert ToStr(Get(config, RegionKey)) == "undefined";
    assert ".auth." + "undefined" + ".amazoncognito.com" == ".auth.undefined.amazoncognito.com";
    assert Host(config) == "https://" + domain + (".auth." + "undefined" + ".amazoncognito.com");
  }

  /**
   * The three endpoints are the hosted-UI URLs of the user pool named by
   * domain and region, and they are pairwise distinct.
   */
  lemma EndpointUrls(config: Dict)
    ensures var host := "https://" + ToStr(Get(config, DomainKey)) + ".auth." + ToStr(Get(config, RegionKey))
                        + ".amazoncognito.com";
      && AuthorizeEndpoint(config) == host + "/oauth2/authorize"
      && TokenEndpoint(config) == host + "/oauth2/token"
      && UserInfoEndpoint(config) == host + "/oauth2/userInfo"
    ensures AuthorizeEndpoint(config) != TokenEndpoint(config)
    ensures AuthorizeEndpoint(config) != UserInfoEndpoint(config)
    ensures TokenEndpoint(config) != UserInfoEndpoint(config)
  {
    var h := Host(config);
    assert |AuthorizeEndpoint(config)| == |h| + 17;
    assert |TokenEndpoint(config)| == |h| + 13;
    assert |UserInfoEndpoint(config)| == |h| + 16;
  }

  /** `cognito:groups || []`: a missing (or falsy) groups claim counts as no group at all. */
  function GroupsOrEmpty(groups: Option<seq<Json>>): seq<Json>
  {
    match groups
    case None => []
    case Some(gs) => gs
  }

  /**
   * The checks run after the userinfo fetch. `decodeGroups` stands for the
   * unverified decoding of the access token's middle segment (base64 and
   * JSON.parse, no signature check); a decoding error fails with its message.
   */
  function ClaimCheck(config: Dict, token: Dict, info: Dict, decodeGroups: Json -> Result<Option<seq<Json>>>): (r: Outcome)
    ensures r == Pass <==>
      Get(info, "email_verified") == Str("true") &&
      (Truthy(Get(config, UserGroupKey)) ==>
        decodeGroups(Get(token, "access_token")).Success? &&
        Get(config, UserGroupKey) in GroupsOrEmpty(decodeGroups(Get(token, "access_token")).value))
    ensures Get(info, "email_verified") != Str("true") ==> r == Fail(NotVerifiedError)
    ensures r.Fail? && Get(info, "email_verified") == Str("true") ==>
      Truthy(Get(config, UserGroupKey)) &&
      r.error == match decodeGroups(Get(token, "access_token"))
                 case Failure(e) => e
                 case Success(_) => NotInGroupError
  {
    if Get(info, "email_verified") != Str("true") then Fail(NotVerifiedError)
    else
      var userGroup := Get(config, UserGroupKey);
      if !Truthy(userGroup) then Pass
      else
        match decodeGroups(Get(token, "access_token"))
        case Failure(e) => Fail(e)
        case Success(groups) =>
          if userGroup in GroupsOrEmpty(groups) then Pass else Fail(NotInGroupError)
  }

  /** Cognito provisions with an empty family name and the `username` claim as given name. */
  function NewUserNames(info: Dict): (Json, Json)
  {
    (Str(""), Get(info, "username"))
  }
}
