/** Provider configuration: the values the service reads from the environment
    (with their defaults), the Keycloak endpoints derived from them, the fixed
    GitHub endpoints, the session lifetime and the two "is configured" checks. */
module OAuth2Config {

  /** The environment-supplied settings. An environment variable that is set,
      even to the empty string, replaces its default. */
  datatype Config = Config(
    keycloakServerUrl: string,
    keycloakRealm: string,
    keycloakClientId: string,
    keycloakClientSecret: string,
    keycloakRedirectUri: string,
    githubClientId: string,
    githubClientSecret: string,
    githubRedirectUri: string)

  /** The settings when no environment variable is set. */
  const DefaultConfig := Config(
    "http://localhost:8080",
    "master",
    "hr-agent",
    "",
    "http://localhost:8001/auth/keycloak/callback",
    "",
    "",
    "http://localhost:8001/auth/github/callback")

  /** `{server}/realms/{realm}/protocol/openid-connect/{leaf}`. */
  function KeycloakEndpoint(c: Config, leaf: string): string
  {
    c.keycloakServerUrl + "/realms/" + c.keycloakRealm + "/protocol/openid-connect/" + leaf
  }

  function KeycloakAuthorizeUrl(c: Config): string { KeycloakEndpoint(c, "auth") }
  function KeycloakTokenUrl(c: Config): string { KeycloakEndpoint(c, "token") }
  function KeycloakUserinfoUrl(c: Config): string { KeycloakEndpoint(c, "userinfo") }

  const GithubAuthorizeUrl: string := "https://github.com/login/oauth/authorize"
  const GithubTokenUrl: string := "https://github.com/login/oauth/access_token"
  const GithubUserinfoUrl: string := "https://api.github.com/user"

  /** Session lifetime in seconds. */
  const SessionTimeout: int := 3600

  /** Keycloak needs a client id and a server URL; the secret is optional. */
  predicate IsKeycloakConfigured(c: Config)
  {
    c.keycloakClientId != "" && c.keycloakServerUrl != ""
  }

  /** GitHub needs both a client id and a client secret. */
  predicate IsGithubConfigured(c: Config)
  {
    c.githubClientId != "" && c.githubClientSecret != ""
  }

  /** With no environment set, Keycloak is available and GitHub is not. */
  lemma DefaultProviders()
    ensures IsKeycloakConfigured(DefaultConfig)
    ensures !IsGithubConfigured(DefaultConfig)
    ensures SessionTimeout == 3600
  {
  }

  /** Whether Keycloak counts as configured does not depend on its client secret
      nor on anything else than its client id and server URL. */
  lemma KeycloakConfiguredOnlyByIdAndServer(c: Config, d: Config)
    requires c.keycloakClientId == d.keycloakClientId
    requires c.keycloakServerUrl == d.keycloakServerUrl
    ensures IsKeycloakConfigured(c) == IsKeycloakConfigured(d)
  {
  }

  /** The three Keycloak endpoints share the realm prefix and are pairwise
      different, so a token request can never go to the authorization page. */
  lemma {:induction false} KeycloakEndpointsDistinct(c: Config)
    ensures KeycloakAuthorizeUrl(c) != KeycloakTokenUrl(c)
    ensures KeycloakAuthorizeUrl(c) != KeycloakUserinfoUrl(c)
    ensures KeycloakTokenUrl(c) != KeycloakUserinfoUrl(c)
  {
    var base := c.keycloakServerUrl + "/realms/" + c.keycloakRealm + "/protocol/openid-connect/";
    assert KeycloakAuthorizeUrl(c) == base + "auth";
    assert KeycloakTokenUrl(c) == base + "token";
    assert KeycloakUserinfoUrl(c) == base + "userinfo";
    assert (base + "auth")[|base|] == 'a';
    assert (base + "token")[|base|] == 't';
    assert (base + "userinfo")[|base|] == 'u';
  }
}
