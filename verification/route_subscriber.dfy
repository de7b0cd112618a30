/**
 * `RouteSubscriber::alterRoutes`: when the route collection holds the API
 * endpoint route, its path becomes the configured `api_route` of
 * `hello_login.settings`, or `/api/hellocoop` when that key is unset, as
 * Symfony's `Route::setPath` stores it: trimmed of surrounding white space,
 * with exactly one leading '/'.
 */
module Routing {
  import opened Php
  import opened Config

  const ApiEndpoint: string := "hello_login.api_endpoint"

  /** The path of every route in the collection, by route name. */
  class RouteCollection {
    var paths: map<string, string>

    constructor (paths: map<string, string>)
      ensures this.paths == paths
    {
      this.paths := paths;
    }
  }

  /** `Route::setPath`: surrounding white space trimmed, every leading '/'
      dropped, then one '/' put in front. */
  function SetPath(pattern: string): string {
    "/" + LTrim(Trim(pattern, TrimChars), {'/'})
  }

  /** A path `setPath` stores as it is given: one leading '/' not followed
      by another, and no white space at the end. */
  predicate IsRoutePath(p: string) {
    |p| >= 1 && p[0] == '/' && (|p| == 1 || (p[1] != '/' && p[|p| - 1] !in TrimChars))
  }

  /** Whatever the pattern, the stored path has that shape; "" becomes "/". */
  lemma SetPathShape(pattern: string)
    ensures IsRoutePath(SetPath(pattern))
    ensures SetPath("") == "/"
  {
    var t := Trim(pattern, TrimChars);
    var x := LTrim(t, {'/'});
    var r := SetPath(pattern);
    assert r == "/" + x;
    if x != [] {
      assert r[1] == x[0];
      assert r[|r| - 1] == x[|x| - 1] == t[|t| - 1];
    }
    assert LTrim("", TrimChars) == "";
  }

  /** `setPath` keeps a path exactly when it already has that shape. */
  lemma SetPathKeepsRoutePaths(p: string)
    ensures SetPath(p) == p <==> IsRoutePath(p)
  {
    SetPathShape(p);
    if IsRoutePath(p) {
      RoutePathKept(p);
    }
  }

  lemma RoutePathKept(p: string)
    requires IsRoutePath(p)
    ensures SetPath(p) == p
  {
    assert '/' !in TrimChars;
    LTrimKeeps(p, TrimChars);
    RTrimKeeps(p, TrimChars);
    assert Trim(p, TrimChars) == p;
    var rest := p[1..];
    LTrimKeeps(rest, {'/'});
    assert LTrim(p, {'/'}) == LTrim(rest, {'/'});
    assert p == "/" + rest;
  }

  /** Storing a stored path again changes nothing. */
  lemma SetPathIdempotent(pattern: string)
    ensures SetPath(SetPath(pattern)) == SetPath(pattern)
  {
    SetPathShape(pattern);
    SetPathKeepsRoutePaths(SetPath(pattern));
  }

  /** The paths after the alteration, for the configured value `apiRoute`. */
  function AlteredPaths(paths: map<string, string>, apiRoute: Option<string>): map<string, string> {
    if ApiEndpoint in paths then paths[ApiEndpoint := SetPath(Coalesce(apiRoute, DefaultApiRoute))] else paths
  }

  /** `apiRoute` is the value `get('api_route')` returns. */
  method AlterRoutes(collection: RouteCollection, apiRoute: Option<string>)
    modifies collection
    ensures collection.paths == AlteredPaths(old(collection.paths), apiRoute)
  {
    var path := Coalesce(apiRoute, DefaultApiRoute);
    if ApiEndpoint in collection.paths {
      collection.paths := collection.paths[ApiEndpoint := SetPath(path)];
    }
  }

  /** The endpoint route, when present, gets the configured path as
      `setPath` stores it, or the default when none is configured: a
      configured path of the usual shape is kept as given, and an empty
      one (which `??` does not replace) becomes "/". No route is added or
      removed, and no other route's path changes. */
  lemma AlterationContract(paths: map<string, string>, apiRoute: Option<string>)
    ensures var after := AlteredPaths(paths, apiRoute);
      && after.Keys == paths.Keys
      && (ApiEndpoint in paths ==> IsRoutePath(after[ApiEndpoint]))
      && (ApiEndpoint in paths && apiRoute.None? ==> after[ApiEndpoint] == DefaultApiRoute)
      && (ApiEndpoint in paths && apiRoute.Some? && IsRoutePath(apiRoute.value) ==>
            after[ApiEndpoint] == apiRoute.value)
      && (ApiEndpoint in paths && apiRoute == Some("") ==> after[ApiEndpoint] == "/")
      && (forall name :: name in paths && name != ApiEndpoint ==> after[name] == paths[name])
      && (ApiEndpoint !in paths ==> after == paths)
  {
    EndpointPath(apiRoute);
  }

  /** The endpoint's new path, for each kind of configured value. */
  lemma EndpointPath(apiRoute: Option<string>)
    ensures var path := SetPath(Coalesce(apiRoute, DefaultApiRoute));
      && IsRoutePath(path)
      && (apiRoute.None? ==> path == DefaultApiRoute)
      && (apiRoute.Some? && IsRoutePath(apiRoute.value) ==> path == apiRoute.value)
      && (apiRoute == Some("") ==> path == "/")
  {
    var given := Coalesce(apiRoute, DefaultApiRoute);
    SetPathShape(given);
    if apiRoute.None? {
      DefaultIsRoutePath();
    }
    if IsRoutePath(given) {
      SetPathKeepsRoutePaths(given);
    }
  }

  lemma DefaultIsRoutePath()
    ensures IsRoutePath(DefaultApiRoute)
  {
  }

  /** Running the alteration again with the same configuration changes
      nothing more: route rebuilding is idempotent. */
  lemma AlterationIdempotent(paths: map<string, string>, apiRoute: Option<string>)
    ensures AlteredPaths(AlteredPaths(paths, apiRoute), apiRoute) == AlteredPaths(paths, apiRoute)
  {
  }
}
