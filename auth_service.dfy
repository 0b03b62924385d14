/**
 * The authentication service: it keeps the session (user, token and the
 * token's expiration in milliseconds) in memory and in `localStorage`,
 * restores it at start-up, and logs the user out automatically when the
 * token expires.
 *
 * The clock is the `now` parameter (milliseconds). The automatic-logout
 * `setTimeout` is the `logoutTimer` field, holding the delay it was armed
 * with; `FireLogoutTimer` is that timer running out. HTTP is not modelled:
 * `CompleteLogin` is what happens when the login request succeeds.
 */
module AuthServices {
  import opened Wrappers
  import opened AuthModels
  import opened Browser
  import opened Jwt

  const TokenKey: string := "auth_token"
  const UserKey: string := "auth_user"
  const LoginPath: string := "/login"

  /** JavaScript truthiness of a `string | null`: null and "" are falsy. */
  predicate TruthyString(s: Option<string>)
  {
    s.Some? && s.value != ""
  }

  /** The answer of `isAuthenticated` for a session: a token, and not expired. */
  predicate Authenticated(token: Option<string>, expiration: Option<int>, now: int)
  {
    TruthyString(token) && !IsTokenExpired(expiration, now)
  }

  class AuthService {
    const store: LocalStorage
    const router: Router
    /** `atob` + `JSON.parse` of a token's payload. */
    const parsePayload: PayloadParser
    /** `JSON.parse` of the stored user; None when it throws. */
    const parseUser: string -> Option<AuthUser>
    /** `JSON.stringify` of a user. */
    const serializeUser: AuthUser -> string

    var user: Option<AuthUser>
    var token: Option<string>
    var expiration: Option<int>
    var logoutTimer: Option<int>

    /** An expiration belongs to a token, and a pending automatic logout to a live session. */
    ghost predicate Valid()
      reads this
    {
      && (expiration.Some? ==> token.Some?)
      && (logoutTimer.Some? ==> token.Some? && logoutTimer.value > 0)
    }

    /** The service's constructor: empty session, then `initFromStorage`. */
    constructor (store: LocalStorage, router: Router, parsePayload: PayloadParser,
                 parseUser: string -> Option<AuthUser>, serializeUser: AuthUser -> string, now: int)
      modifies store, router
      ensures Valid()
      ensures this.store == store && this.router == router && this.parsePayload == parsePayload
      ensures this.parseUser == parseUser && this.serializeUser == serializeUser
      ensures RestoredFrom(old(store.items), now)
      ensures router.requests == old(router.requests)
    {
      this.store := store;
      this.router := router;
      this.parsePayload := parsePayload;
      this.parseUser := parseUser;
      this.serializeUser := serializeUser;
      user, token, expiration, logoutTimer := None, None, None, None;
      new;
      InitFromStorage(now);
    }

    /**
     * What `initFromStorage` leaves behind, starting from an empty session,
     * for a storage that held `items` at time `now`.
     */
    ghost predicate RestoredFrom(items: map<string, string>, now: int)
      reads this, store
    {
      var tok := if TokenKey in items then Some(items[TokenKey]) else None;
      var raw := if UserKey in items then Some(items[UserKey]) else None;
      if !TruthyString(tok) || !TruthyString(raw) then
        // nothing restored, storage untouched
        token == None && user == None && expiration == None && logoutTimer == None
        && store.items == items
      else
        var expMs := GetTokenExpiration(tok.value, parsePayload);
        if IsTokenExpired(expMs, now) then
          // expired: logged out without navigation
          token == None && user == None && expiration == None && logoutTimer == None
          && store.items == items - {TokenKey, UserKey}
        else
          token == tok && user == parseUser(raw.value) && expiration == expMs
          && store.items == items
          && logoutTimer == (if TruthyNumber(expMs) then Some(expMs.value - now) else None)
    }

    /** `logout(navigateToLogin)`: forget the session everywhere; navigate to `/login` only if asked. */
    method Logout(navigateToLogin: bool)
      modifies this, store, router
      ensures Valid()
      ensures user == None && token == None && expiration == None && logoutTimer == None
      ensures store.items == old(store.items) - {TokenKey, UserKey}
      ensures router.requests == old(router.requests) + (if navigateToLogin then [LoginPath] else [])
      ensures router.url == old(router.url)
    {
      store.RemoveItem(TokenKey);
      store.RemoveItem(UserKey);
      ClearAutoLogout();
      user := None;
      token := None;
      expiration := None;
      if navigateToLogin {
        router.Navigate(LoginPath);
      }
    }

    /**
     * `isAuthenticated`: false without a token; with an expired token it
     * also logs out (without navigating), so that asking again gives the
     * same answer.
     */
    method IsAuthenticated(now: int) returns (b: bool)
      requires Valid()
      modifies this, store, router
      ensures Valid()
      ensures router.requests == old(router.requests) && router.url == old(router.url)
      ensures b == Authenticated(old(token), old(expiration), now)
      ensures b == Authenticated(token, expiration, now)
      ensures TruthyString(old(token)) && IsTokenExpired(old(expiration), now) ==>
                user == None && token == None && expiration == None && logoutTimer == None
                && store.items == old(store.items) - {TokenKey, UserKey}
      ensures !(TruthyString(old(token)) && IsTokenExpired(old(expiration), now)) ==>
                unchanged(this) && unchanged(store)
    {
      if !TruthyString(token) {
        return false;
      }
      if IsTokenExpired(expiration, now) {
        Logout(false);
        return false;
      }
      return true;
    }

    /** `storeSession`: remember the response in storage and in memory, with the token's expiration. */
    method StoreSession(res: LoginResponse)
      requires Valid()
      modifies this`user, this`token, this`expiration, store
      ensures Valid()
      ensures store.items == old(store.items)[TokenKey := res.token][UserKey := serializeUser(res.user)]
      ensures token == Some(res.token) && user == Some(res.user)
      ensures expiration == GetTokenExpiration(res.token, parsePayload)
    {
      store.SetItem(TokenKey, res.token);
      store.SetItem(UserKey, serializeUser(res.user));
      token := Some(res.token);
      user := Some(res.user);
      expiration := GetTokenExpiration(res.token, parsePayload);
    }

    /**
     * `initFromStorage`: restore nothing unless both keys hold non-empty
     * strings; log out if the stored token has expired; otherwise restore
     * the token, the user (null when it does not parse) and the
     * expiration, and schedule the automatic logout.
     */
    method InitFromStorage(now: int)
      requires Valid()
      requires token == None && user == None && expiration == None && logoutTimer == None
      modifies this, store, router
      ensures Valid()
      ensures RestoredFrom(old(store.items), now)
      ensures router.requests == old(router.requests)
    {
      var tok := store.GetItem(TokenKey);
      var raw := store.GetItem(UserKey);
      if !TruthyString(tok) || !TruthyString(raw) {
        return;
      }
      var expMs := GetTokenExpiration(tok.value, parsePayload);
      if IsTokenExpired(expMs, now) {
        Logout(false);
        return;
      }
      token := tok;
      user := parseUser(raw.value);
      expiration := expMs;
      ScheduleAutoLogout(now);
    }

    /**
     * `scheduleAutoLogout`: cancel any pending timer; with no (or a zero)
     * expiration schedule nothing; if the expiration has been reached log
     * out at once without navigating; otherwise arm one timer for the
     * remaining time.
     */
    method ScheduleAutoLogout(now: int)
      requires Valid()
      modifies this, store, router
      ensures Valid()
      ensures router.requests == old(router.requests)
      ensures !TruthyNumber(old(expiration)) ==>
                logoutTimer == None && user == old(user) && token == old(token)
                && expiration == old(expiration) && store.items == old(store.items)
      ensures TruthyNumber(old(expiration)) && old(expiration).value - now <= 0 ==>
                user == None && token == None && expiration == None && logoutTimer == None
                && store.items == old(store.items) - {TokenKey, UserKey}
      ensures TruthyNumber(old(expiration)) && old(expiration).value - now > 0 ==>
                logoutTimer == Some(old(expiration).value - now) && user == old(user)
                && token == old(token) && expiration == old(expiration) && store.items == old(store.items)
    {
      ClearAutoLogout();
      var expMs := expiration;
      if !TruthyNumber(expMs) {
        return;
      }
      var remaining := expMs.value - now;
      if remaining <= 0 {
        Logout(false);
        return;
      }
      logoutTimer := Some(remaining);
    }

    /** `clearAutoLogout`: cancel the pending automatic logout, if any. */
    method ClearAutoLogout()
      modifies this`logoutTimer
      ensures logoutTimer == None
    {
      if logoutTimer.Some? {
        logoutTimer := None;
      }
    }

    /** The automatic-logout timer runs out: `logout(true)`. */
    method FireLogoutTimer()
      requires Valid() && logoutTimer.Some?
      modifies this, store, router
      ensures Valid()
      ensures user == None && token == None && expiration == None && logoutTimer == None
      ensures store.items == old(store.items) - {TokenKey, UserKey}
      ensures router.requests == old(router.requests) + [LoginPath]
    {
      Logout(true);
    }

    /**
     * The `tap` of `login` once the back end accepts the credentials:
     * `storeSession` then `scheduleAutoLogout`.
     */
    method CompleteLogin(res: LoginResponse, now: int)
      requires Valid()
      modifies this, store, router
      ensures Valid()
      ensures router.requests == old(router.requests)
      ensures var expMs := GetTokenExpiration(res.token, parsePayload);
              if TruthyNumber(expMs) && expMs.value - now <= 0 then
                token == None && user == None && expiration == None && logoutTimer == None
                && store.items == old(store.items) - {TokenKey, UserKey}
              else
                token == Some(res.token) && user == Some(res.user) && expiration == expMs
                && store.items == old(store.items)[TokenKey := res.token][UserKey := serializeUser(res.user)]
                && logoutTimer == (if TruthyNumber(expMs) then Some(expMs.value - now) else None)
    {
      StoreSession(res);
      ScheduleAutoLogout(now);
    }
  }
}
