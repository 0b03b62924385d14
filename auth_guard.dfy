/** `authGuard`: let an authenticated user through, send anyone else to the login page. */
module AuthGuard {
  import opened Wrappers
  import opened Browser
  import opened AuthServices
  import opened Jwt

  /** The `returnUrl` the redirect carries: the requested URL, or `/` when it is empty. */
  function ReturnUrl(url: string): (r: string)
    ensures r != ""
    ensures url != "" ==> r == url
  {
    if url == "" then "/" else url
  }

  /** The guard's answer once `isAuthenticated()` has been asked. */
  function AuthDecision(authenticated: bool, url: string): (r: GuardResult)
    ensures r.Allow? <==> authenticated
    ensures !authenticated ==>
              r.tree.commands == ["login"] && r.tree.queryParams.Keys == {"returnUrl"}
              && r.tree.queryParams["returnUrl"] != ""
              && (url != "" ==> r.tree.queryParams["returnUrl"] == url)
  {
    if authenticated then Allow
    else Redirect(UrlTree(["login"], map["returnUrl" := ReturnUrl(url)]))
  }

  /**
   * The guard for a navigation to `url` at time `now`. Asking
   * `isAuthenticated` clears an expired session as a side effect.
   */
  method CanActivate(auth: AuthService, url: string, now: int) returns (r: GuardResult)
    requires auth.Valid()
    modifies auth, auth.store, auth.router
    ensures auth.Valid()
    ensures r.Allow? <==> Authenticated(old(auth.token), old(auth.expiration), now)
    ensures !r.Allow? ==> r == Redirect(UrlTree(["login"], map["returnUrl" := ReturnUrl(url)]))
    ensures TruthyString(old(auth.token)) && IsTokenExpired(old(auth.expiration), now) ==>
              !r.Allow? && auth.token == None && auth.user == None && auth.expiration == None
              && auth.logoutTimer == None
              && auth.store.items == old(auth.store.items) - {TokenKey, UserKey}
    ensures auth.router.requests == old(auth.router.requests)
  {
    var authenticated := auth.IsAuthenticated(now);
    r := AuthDecision(authenticated, url);
  }
}
