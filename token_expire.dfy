/**
 * The blog UI's token-expiry handling: when a stored token counts as valid,
 * what logging out clears, and where the router is sent on expiry, when a
 * login is required, and after a login.
 *
 * localStorage, the two store users and the router are the fields of one
 * object; each navigation the router is asked for is appended to a log.
 * The pop-up messages shown beside the navigations are not modelled.
 */
module TokenExpire {
  import opened Common
  import opened Text

  /** A router location: its path and query parameters. */
  datatype Location = Location(path: string, query: map<string, string>)

  /** router.push or router.replace. */
  datatype Navigation = Push(to: Location) | Replace(to: Location)

  /** The four localStorage keys that hold the login. */
  const AUTH_KEYS: set<string> := {"userToken", "adminToken", "currentUser", "currentAdmin"}

  /** JavaScript truthiness of a string that may be null. */
  predicate Truthy(s: Option<string>)
  {
    s.Some? && s.value != ""
  }

  /** isTokenValid. */
  predicate IsTokenValid(token: Option<string>)
  {
    if !Truthy(token) || token.value == "null" || token.value == "undefined" then false
    else |token.value| >= 10
  }

  /** A token is valid exactly when it is a string of at least ten characters: "null" and "undefined" are shorter. */
  lemma IsTokenValidSpec(token: Option<string>)
    ensures IsTokenValid(token) <==> token.Some? && |token.value| >= 10
  {
    if token.Some? && (token.value == "null" || token.value == "undefined") {
      assert |token.value| < 10;
    }
  }

  /** The storage key of the admin's or the user's token. */
  function TokenKey(isAdmin: bool): string
  {
    if isAdmin then "adminToken" else "userToken"
  }

  /** The query every expiry navigation carries. */
  function ExpiredQuery(redirectPath: string): map<string, string>
  {
    map["redirect" := redirectPath, "expired" := "true"]
  }

  /**
   * Where handleTokenExpire sends the router, if anywhere: an admin to
   * /verify unless already there; a user nowhere when already on /user,
   * else to /verify from an admin or verify page and to /user otherwise.
   */
  function ExpiryNavigation(isAdmin: bool, routePath: string, redirectPath: string): Option<Location>
  {
    if isAdmin then
      if routePath != "/verify" then Some(Location("/verify", ExpiredQuery(redirectPath))) else None
    else if routePath == "/user" then None
    else if StartsWith(redirectPath, "/admin") || StartsWith(redirectPath, "/verify") then
      Some(Location("/verify", ExpiredQuery(redirectPath)))
    else Some(Location("/user", ExpiredQuery(redirectPath)))
  }

  /** The routing rules, and that every expiry navigation remembers where it came from and says why. */
  lemma ExpiryNavigationSpec(isAdmin: bool, routePath: string, redirectPath: string)
    ensures var n := ExpiryNavigation(isAdmin, routePath, redirectPath);
      && (n.None? <==> (isAdmin && routePath == "/verify") || (!isAdmin && routePath == "/user"))
      && (n.Some? ==> n.value.query == map["redirect" := redirectPath, "expired" := "true"])
      && (n.Some? ==> (n.value.path == "/verify" <==>
            isAdmin || "/admin" <= redirectPath || "/verify" <= redirectPath))
      && (n.Some? ==> n.value.path == "/verify" || n.value.path == "/user")
  {
  }

  /** An admin path never sends an expired user to the user login page. */
  lemma AdminPagesGoToVerify(routePath: string, rest: string)
    requires routePath != "/user"
    ensures ExpiryNavigation(false, routePath, "/admin" + rest) == Some(Location("/verify", ExpiredQuery("/admin" + rest)))
  {
    assert StartsWith("/admin" + rest, "/admin");
  }

  /** redirectToLogin's target: /verify or /user, with the redirect path overridden by any extra query key. */
  function LoginLocation(isAdmin: bool, redirectPath: string, extraQuery: map<string, string>): (l: Location)
    ensures l.path == (if isAdmin then "/verify" else "/user")
    ensures l.query.Keys == extraQuery.Keys + {"redirect"}
    ensures forall k :: k in extraQuery ==> l.query[k] == extraQuery[k]
    ensures "redirect" !in extraQuery ==> l.query["redirect"] == redirectPath
  {
    Location(if isAdmin then "/verify" else "/user", map["redirect" := redirectPath] + extraQuery)
  }

  /** handleLoginRedirect's target: the remembered page unless it is a login page, else the default page. */
  function AfterLoginLocation(query: map<string, string>, defaultPath: Option<string>): Location
  {
    var redirect := if "redirect" in query then Some(query["redirect"]) else None;
    if Truthy(redirect) && redirect.value != "/user" && redirect.value != "/verify" then
      var keep := (if "hasComment" in query && query["hasComment"] == "true" then map["hasComment" := "true"] else map[])
        + (if "hasReplyAction" in query && query["hasReplyAction"] == "true" then map["hasReplyAction" := "true"] else map[]);
      Location(redirect.value, keep)
    else Location(if Truthy(defaultPath) then defaultPath.value else "/", map[])
  }

  /**
   * After a login the router goes back to the remembered page, keeping only
   * the two markers that restore a comment or a reply and only when they
   * are 'true', and never back to a login page.
   */
  lemma AfterLoginLocationSpec(query: map<string, string>, defaultPath: Option<string>)
    ensures var l := AfterLoginLocation(query, defaultPath);
      && ((l.path != "/user" && l.path != "/verify") || (Truthy(defaultPath) && l.path == defaultPath.value))
      && l.query.Keys <= {"hasComment", "hasReplyAction"}
      && (forall k :: k in l.query ==> k in query && query[k] == "true" && l.query[k] == "true")
      && (("redirect" in query && query["redirect"] != "" && query["redirect"] != "/user" && query["redirect"] != "/verify") ==>
            l.path == query["redirect"]
            && ("hasComment" in l.query <==> "hasComment" in query && query["hasComment"] == "true")
            && ("hasReplyAction" in l.query <==> "hasReplyAction" in query && query["hasReplyAction"] == "true"))
      && (!("redirect" in query && query["redirect"] != "" && query["redirect"] != "/user" && query["redirect"] != "/verify") ==>
            l == Location(if Truthy(defaultPath) then defaultPath.value else "/", map[]))
  {
  }

  /** The browser state the handler reads and changes. */
  class AuthSession {
    /** localStorage. */
    var storage: map<string, string>
    /** store.state.currentUser and store.state.currentAdmin; None for null. */
    var currentUser: Option<map<string, string>>
    var currentAdmin: Option<map<string, string>>
    /** router.currentRoute.path and router.currentRoute.fullPath. */
    var routePath: string
    var routeFullPath: string
    /** The navigations asked of the router, oldest first. */
    var navigations: seq<Navigation>

    constructor (storage: map<string, string>, currentUser: Option<map<string, string>>,
                 currentAdmin: Option<map<string, string>>, routePath: string, routeFullPath: string)
      ensures this.storage == storage && this.currentUser == currentUser && this.currentAdmin == currentAdmin
      ensures this.routePath == routePath && this.routeFullPath == routeFullPath && navigations == []
    {
      this.storage := storage;
      this.currentUser := currentUser;
      this.currentAdmin := currentAdmin;
      this.routePath := routePath;
      this.routeFullPath := routeFullPath;
      navigations := [];
    }

    /** getValidToken: the stored token when it is valid, else null. */
    function ValidToken(isAdmin: bool): (r: Option<string>)
      reads this
      ensures r.Some? <==> TokenKey(isAdmin) in storage && |storage[TokenKey(isAdmin)]| >= 10
      ensures r.Some? ==> r.value == storage[TokenKey(isAdmin)]
    {
      var token := if TokenKey(isAdmin) in storage then Some(storage[TokenKey(isAdmin)]) else None;
      IsTokenValidSpec(token);
      if IsTokenValid(token) then token else None
    }

    /** isLoggedIn: a valid token and a store user with at least one field. */
    predicate IsLoggedIn(isAdmin: bool)
      reads this
    {
      var user := if isAdmin then currentAdmin else currentUser;
      ValidToken(isAdmin).Some? && user.Some? && |user.value.Keys| > 0
    }

    /** clearAuthState: the four keys leave storage and both store users become {}. */
    method ClearAuthState()
      modifies this
      ensures storage == old(storage) - AUTH_KEYS
      ensures currentUser == Some(map[]) && currentAdmin == Some(map[])
      ensures routePath == old(routePath) && routeFullPath == old(routeFullPath) && navigations == old(navigations)
    {
      storage := storage - {"userToken"};
      storage := storage - {"adminToken"};
      storage := storage - {"currentUser"};
      storage := storage - {"currentAdmin"};
      currentUser := Some(map[]);
      currentAdmin := Some(map[]);
    }

    /** handleTokenExpire: clears the login, then navigates as ExpiryNavigation says. */
    method HandleTokenExpire(isAdmin: bool, currentPath: Option<string>)
      modifies this
      ensures storage == old(storage) - AUTH_KEYS
      ensures currentUser == Some(map[]) && currentAdmin == Some(map[])
      ensures routePath == old(routePath) && routeFullPath == old(routeFullPath)
      ensures var redirectPath := if Truthy(currentPath) then currentPath.value else old(routeFullPath);
        var n := ExpiryNavigation(isAdmin, old(routePath), redirectPath);
        navigations == old(navigations) + (if n.Some? then [Push(n.value)] else [])
      ensures !IsLoggedIn(false) && !IsLoggedIn(true)
    {
      ClearAuthState();
      var redirectPath := if Truthy(currentPath) then currentPath.value else routeFullPath;
      if isAdmin {
        if routePath != "/verify" {
          navigations := navigations + [Push(Location("/verify", ExpiredQuery(redirectPath)))];
        }
      } else if routePath != "/user" {
        if StartsWith(redirectPath, "/admin") || StartsWith(redirectPath, "/verify") {
          navigations := navigations + [Push(Location("/verify", ExpiredQuery(redirectPath)))];
        } else {
          navigations := navigations + [Push(Location("/user", ExpiredQuery(redirectPath)))];
        }
      }
    }

    /**
     * redirectToLogin: pushes the login page, remembering `currentPath`, else
     * the router's full path, else `locationPath` (window.location's path and
     * search) when the router has no current route.
     */
    method RedirectToLogin(isAdmin: bool, currentPath: Option<string>, hasCurrentRoute: bool,
                           locationPath: string, extraQuery: map<string, string>)
      modifies this
      ensures var redirectPath := if Truthy(currentPath) then currentPath.value
          else if hasCurrentRoute then old(routeFullPath) else locationPath;
        navigations == old(navigations) + [Push(LoginLocation(isAdmin, redirectPath, extraQuery))]
      ensures storage == old(storage) && currentUser == old(currentUser) && currentAdmin == old(currentAdmin)
      ensures routePath == old(routePath) && routeFullPath == old(routeFullPath)
    {
      var redirectPath := if Truthy(currentPath) then currentPath.value
        else if hasCurrentRoute then routeFullPath else locationPath;
      var query := map["redirect" := redirectPath] + extraQuery;
      navigations := navigations + [Push(Location(if isAdmin then "/verify" else "/user", query))];
    }

    /** handleLoginRedirect: replaces the route with AfterLoginLocation. */
    method HandleLoginRedirect(query: map<string, string>, defaultPath: Option<string>)
      modifies this
      ensures navigations == old(navigations) + [Replace(AfterLoginLocation(query, defaultPath))]
      ensures storage == old(storage) && currentUser == old(currentUser) && currentAdmin == old(currentAdmin)
      ensures routePath == old(routePath) && routeFullPath == old(routeFullPath)
    {
      var target := AfterLoginLocation(query, defaultPath);
      navigations := navigations + [Replace(target)];
    }
  }

  /** A stored token shorter than ten characters never logs anyone in. */
  lemma ShortTokenNotLoggedIn(s: AuthSession, isAdmin: bool)
    requires TokenKey(isAdmin) in s.storage && |s.storage[TokenKey(isAdmin)]| < 10
    ensures !s.IsLoggedIn(isAdmin)
  {
  }
}
