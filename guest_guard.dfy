/** `guestGuard`: only users who are not signed in may pass; the others go to `/home`. */
module GuestGuard {
  import opened Wrappers
  import opened Browser
  import opened AuthServices
  import opened Jwt
  import AuthGuard

  /** The guard's answer once `isAuthenticated()` has been asked. */
  function GuestDecision(authenticated: bool): (r: GuardResult)
    ensures r.Allow? <==> !authenticated
    ensures authenticated ==> r.tree.commands == ["/home"] && r.tree.queryParams == map[]
  {
    if authenticated then Redirect(UrlTree(["/home"], map[])) else Allow
  }

  /** For one session state, exactly one of the two guards lets the navigation through. */
  lemma ExactlyOneGuardAllows(authenticated: bool, url: string)
    ensures GuestDecision(authenticated).Allow? != AuthGuard.AuthDecision(authenticated, url).Allow?
  {
  }

  /** The guard at time `now`; an expired session is cleared as a side effect and the guest passes. */
  method CanActivate(auth: AuthService, now: int) returns (r: GuardResult)
    requires auth.Valid()
    modifies auth, auth.store, auth.router
    ensures auth.Valid()
    ensures r.Allow? <==> !Authenticated(old(auth.token), old(auth.expiration), now)
    ensures !r.Allow? ==> r == Redirect(UrlTree(["/home"], map[]))
    ensures TruthyString(old(auth.token)) && IsTokenExpired(old(auth.expiration), now) ==>
              r.Allow? && auth.token == None && auth.user == None && auth.expiration == None
              && auth.logoutTimer == None
              && auth.store.items == old(auth.store.items) - {TokenKey, UserKey}
    ensures auth.router.requests == old(auth.router.requests)
  {
    var authenticated := auth.IsAuthenticated(now);
    r := GuestDecision(authenticated);
  }
}
