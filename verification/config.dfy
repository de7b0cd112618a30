/**
 * Module configuration and the SDK configuration derived from it.
 *
 * A Drupal configuration object (`hellocoop.settings`, `hello_login.settings`)
 * holds the keys `api_route`, `app_id`, `secret` and `provider_hint`; every
 * key may be unset, which `get` reports as null. Every write the module makes
 * is a chain of `set` calls ending in `save`, so the object is modelled with
 * one current value. `HelloConfig` is the SDK's configuration record; both
 * factories fill it the same way from the settings and the current request.
 */
module Config {
  import opened Php

  const DefaultApiRoute: string := "/api/hellocoop"

  /** The keys the module reads and writes; None is an unset key. */
  datatype Settings = Settings(
    apiRoute: Option<string>,
    appId: Option<string>,
    secret: Option<string>,
    providerHint: Option<Entries>)

  /** An editable configuration object, by name. */
  class EditableConfig {
    const name: string
    var settings: Settings

    constructor (name: string, initial: Settings)
      ensures this.name == name && settings == initial
    {
      this.name := name;
      settings := initial;
    }
  }

  /** What the factories read from the current request. */
  datatype Request = Request(schemeAndHttpHost: string, host: string)

  /** The login and logout callables handed to the SDK: a method of the
      factory that built the configuration. */
  datatype Callback = LoginCallback | LogoutCallback

  /** The arguments of `new HelloConfig(...)`, in order. */
  datatype HelloConfig = HelloConfig(
    apiRoute: Option<string>,
    authApiRoute: string,
    loginApiRoute: string,
    logoutApiRoute: string,
    sameSiteStrict: bool,
    clientId: Option<string>,
    redirectUri: string,
    host: string,
    secret: Option<string>,
    loginSync: Callback,
    logoutSync: Callback)

  /** `$api_route . '?op=' . $op`, where a null route concatenates as "". */
  function OpRoute(apiRoute: Option<string>, op: string): (r: string)
    ensures |r| == |AsString(apiRoute)| + 4 + |op|
  {
    AsString(apiRoute) + "?op=" + op
  }

  /** The operation an SDK route names, read back against the API route. */
  function OpOf(route: string, apiRoute: Option<string>): Option<string> {
    var base := AsString(apiRoute) + "?op=";
    if |base| <= |route| && route[..|base|] == base then Some(route[|base|..]) else None
  }

  /** `createConfig`: everything is taken from the settings or the request. */
  function HelloConfigFrom(s: Settings, req: Request): HelloConfig {
    HelloConfig(
      s.apiRoute,
      OpRoute(s.apiRoute, "auth"),
      OpRoute(s.apiRoute, "login"),
      OpRoute(s.apiRoute, "logout"),
      false,
      s.appId,
      req.schemeAndHttpHost + AsString(s.apiRoute),
      req.host,
      s.secret,
      LoginCallback,
      LogoutCallback)
  }

  /** Every operation route starts with the API route and names its operation. */
  lemma OpRouteRoundTrip(apiRoute: Option<string>, op: string)
    ensures OpOf(OpRoute(apiRoute, op), apiRoute) == Some(op)
  {
    var base := AsString(apiRoute) + "?op=";
    assert OpRoute(apiRoute, op) == base + op;
    assert (base + op)[..|base|] == base;
    assert (base + op)[|base|..] == op;
  }

  /** So different operations always get different routes. */
  lemma OpRoutesDistinct(apiRoute: Option<string>, op1: string, op2: string)
    requires op1 != op2
    ensures OpRoute(apiRoute, op1) != OpRoute(apiRoute, op2)
  {
    OpRouteRoundTrip(apiRoute, op1);
    OpRouteRoundTrip(apiRoute, op2);
  }

  /** What `createConfig` promises about each field: the three routes name
      auth, login and logout under the API route and differ from each other;
      the redirect URI is the scheme and host followed by the API route; the
      host, client id and secret come from the request and the settings; the
      SameSite-strict flag is off; the callbacks are the factory's own. */
  lemma HelloConfigFields(s: Settings, req: Request)
    ensures var c := HelloConfigFrom(s, req);
      && c.apiRoute == s.apiRoute
      && OpOf(c.authApiRoute, s.apiRoute) == Some("auth")
      && OpOf(c.loginApiRoute, s.apiRoute) == Some("login")
      && OpOf(c.logoutApiRoute, s.apiRoute) == Some("logout")
      && c.authApiRoute != c.loginApiRoute && c.loginApiRoute != c.logoutApiRoute
      && c.authApiRoute != c.logoutApiRoute
      && |c.redirectUri| == |req.schemeAndHttpHost| + |AsString(s.apiRoute)|
      && c.redirectUri[..|req.schemeAndHttpHost|] == req.schemeAndHttpHost
      && c.redirectUri[|req.schemeAndHttpHost|..] == AsString(s.apiRoute)
      && c.host == req.host && c.clientId == s.appId && c.secret == s.secret
      && !c.sameSiteStrict
      && c.loginSync == LoginCallback && c.logoutSync == LogoutCallback
  {
    OpRouteRoundTrip(s.apiRoute, "auth");
    OpRouteRoundTrip(s.apiRoute, "login");
    OpRouteRoundTrip(s.apiRoute, "logout");
    var c := HelloConfigFrom(s, req);
    assert c.redirectUri[..|req.schemeAndHttpHost|] == req.schemeAndHttpHost;
    assert c.redirectUri[|req.schemeAndHttpHost|..] == AsString(s.apiRoute);
  }

  /** An unset API route still yields well-formed routes: the operation
      parameter alone, and a redirect URI that is just the scheme and host. */
  lemma UnsetApiRoute(req: Request)
    ensures var c := HelloConfigFrom(Settings(None, None, None, None), req);
      && c.authApiRoute == "?op=auth" && c.loginApiRoute == "?op=login"
      && c.logoutApiRoute == "?op=logout" && c.redirectUri == req.schemeAndHttpHost
  {
    var c := HelloConfigFrom(Settings(None, None, None, None), req);
    assert c.redirectUri == req.schemeAndHttpHost + "";
  }
}
