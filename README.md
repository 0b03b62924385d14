# Portfolio front end — a verified model of its component logic

This project models the behaviour of the Angular portfolio site
`portfolio-ac-frontend`: the session service and its JSON Web Token
handling, the two route guards, the login form, and the stateful widgets of
the site. Those widgets are the project carousel, the footer, the menu
header, the reflector lamp, the eye-tracking mascot, the rocket scroll bar,
the "about" page and the contact form.

Each TypeScript component whose handlers update fields becomes a Dafny
`class` with those fields. Each handler becomes a `method` whose
`modifies` clause names the fields it may change and whose `ensures`
clauses give the new value of each of them, directly or through the
class invariant; fields it leaves alone are stated unchanged. Most classes keep a `Valid()` invariant that
every handler preserves. The pure parts are functions with lemmas about them:

- splitting a token and normalising its payload from base64url to base64
  (section 7.1 of RFC 7515, sections 4 and 5 of RFC 4648);
- reading the `exp` claim (section 4.1.4 of RFC 7519) and deciding expiry;
- the guard decisions and the error-text choice;
- the eye-state-to-visual mapping;
- the clamps, distances and collisions of the rocket.

Conventions shared by every module:

- **Timers.** A timer whose handle the component keeps and cancels is a
  field (`logoutTimer`, `dismissTimer`, `speechTimer`, `inactivityTimer`,
  `yearsTimer`, `cursorTimer`). A `Fire…` method runs it. Fire-and-forget
  `setTimeout`s are a `pending: seq<Timeout<Job>>` list, and `FireTimer(k)`
  removes entry `k` and runs its job. Time passing is therefore the choice
  of which timer fires next.
- **Browser services.** `localStorage` is a `LocalStorage` object holding a
  map. The router is a `Router` object that records navigation requests.
  The clock `Date.now()` is a `now` parameter. `Math.random()` is an oracle
  `rand: nat -> real` whose values lie in `[0, 1)`.
- **Abstract parsers.** `atob` followed by `JSON.parse` is an abstract
  `PayloadParser`. `JSON.parse`/`JSON.stringify` of the stored user are
  abstract functions. Angular's `Validators.email` is an `isEmail`
  predicate.
- **Numbers.** JavaScript numbers are Dafny `real`s (exact) for positions,
  and `int`s where the source only ever holds integers.

Several behaviours of the source are shown as they are written:

- The footer's `revealed` starts `true` and is only ever set to `true`.
- The login auto-dismiss check "is the message still the one the timer was
  armed with" always succeeds, because every other change of the message
  cancels or re-arms the timer.
- A reflector-lamp turn-off timer is not cancelled by a later turn-on, so
  the lamp goes dark 1100 ms after a turn-off even if it was switched on
  again in the meantime (`ReflectorBulb.ReflectorBulbComponent.OffThenOnStillHides`).
- The mascot's un-wink opens the right eyelid even when the mascot fell
  asleep during the wink.
- A rocket badge that has not been placed yet sits at `(0, 0)`, which the
  rocket can never touch (`RocketScroll.UnplacedNeverCollides`).
- The contact form's captcha token survives a successful send.
- The contact form's `ngAfterViewInit` throws when the captcha script is
  loaded, so the captcha callbacks are never registered (see Findings).

## Model

| member | source | states |
|---|---|---|
| Browser.LocalStorage.GetItem | src/app/components/services/auth-services/auth-service.ts:119-120 | `getItem` yields a value exactly when the key is stored, and then the stored value |
| Browser.LocalStorage.SetItem | src/app/components/services/auth-services/auth-service.ts:103-104 | `setItem` binds the key to the value and changes no other key |
| Browser.LocalStorage.RemoveItem | src/app/components/services/auth-services/auth-service.ts:68-69 | `removeItem` drops the key and changes no other key |
| Browser.Router.Navigate | src/app/components/services/auth-services/auth-service.ts:75 | a navigation request is appended to the router's log |
| Cyclic.Next | src/app/components/shared/project-card/project-card.ts:105-106 | the forward step stays in `[0, n)`, adds one, and wraps from `n - 1` to 0 |
| Cyclic.Prev | src/app/components/shared/project-card/project-card.ts:91-92 | the backward step stays in `[0, n)`, subtracts one, and wraps from 0 to `n - 1` |
| Cyclic.PrevUndoesNext | src/app/components/shared/project-card/project-card.ts:89-107 | `prevImage` undoes `nextImage` for every index in range |
| Cyclic.NextUndoesPrev | src/app/components/shared/project-card/project-card.ts:89-107 | `nextImage` undoes `prevImage` for every index in range |
| Cyclic.Advance | src/app/components/shared/footer/footer/footer.component.ts:162-167 | `m` successive steps stay in `[0, n)` |
| Cyclic.AdvanceWithoutWrap | src/app/components/shared/footer/footer/footer.component.ts:162-167 | `m` steps that do not reach the end add `m` to the index |
| Cyclic.AdvanceComposes | src/app/components/shared/footer/footer/footer.component.ts:162-167 | `a + b` steps equal `a` steps followed by `b` steps |
| Cyclic.FullTurnReturns | src/app/components/shared/project-card/project-card.ts:103-107 | `n` forward steps over `n` images return to the starting index |
| Jwt.Split | src/app/components/services/auth-services/auth-service.ts:211 | `split('.')` yields one more part than the token has dots, and no part contains a dot |
| Jwt.JoinSplit | src/app/components/services/auth-services/auth-service.ts:211 | rejoining the parts with the separator gives back the token |
| Jwt.SplitAfterPiece | src/app/components/services/auth-services/auth-service.ts:211 | splitting `a.b` with no dot in `a` yields `a` followed by the parts of `b` |
| Jwt.SplitOfPiece | src/app/components/services/auth-services/auth-service.ts:211 | a string with no dot splits into itself alone |
| Jwt.SplitJoin | src/app/components/services/auth-services/auth-service.ts:211 | splitting dot-free parts joined with dots gives back those parts |
| Jwt.ReplaceAll | src/app/components/services/auth-services/auth-service.ts:215 | a global replace swaps exactly the occurrences of one character and keeps the length |
| Jwt.PadEnd | src/app/components/services/auth-services/auth-service.ts:217-220 | `padEnd` keeps the string as a prefix and fills up to the target length with the fill character |
| Jwt.ToBase64 | src/app/components/services/auth-services/auth-service.ts:214-220 | the normalised payload maps `-` to `+` and `_` to `/`, changes no other character, and adds at most three `=` to reach a multiple of 4 |
| Jwt.StripPadding | src/app/components/services/auth-services/auth-service.ts:217-220 | trailing `=` padding plays no part in the inverse reading |
| Jwt.RoundTrip | src/app/components/services/auth-services/auth-service.ts:214-220 | mapping a base64url segment to padded base64 and back returns the segment unchanged, so no information is lost |
| Jwt.DecodeJwt | src/app/components/services/auth-services/auth-service.ts:210-222 | `decodeJwt` gives null unless the token has exactly two dots; otherwise it is the parse of the normalised middle part |
| Jwt.DecodeReadsOnlyPayload | src/app/components/services/auth-services/auth-service.ts:211-214 | for a token `h.p.s`, only `p` is decoded; header and signature play no part |
| Jwt.GetTokenExpiration | src/app/components/services/auth-services/auth-service.ts:179-190 | an expiration exists exactly when decoding returns a payload whose `exp` is a number, and then it is `exp * 1000`; a thrown decode gives null, as does a token without two dots |
| Jwt.IsTokenExpired | src/app/components/services/auth-services/auth-service.ts:198-201 | a session is expired only with an expiration at or before `now`, and always when that expiration is non-zero |
| Jwt.NoExpirationNeverExpires | src/app/components/services/auth-services/auth-service.ts:198-201 | a session without an expiration, or with expiration 0, is never expired |
| Jwt.ExpiryIsPermanent | src/app/components/services/auth-services/auth-service.ts:198-201 | once expired at `now`, a session stays expired at every later time |
| AuthServices.AuthService.constructor | src/app/components/services/auth-services/auth-service.ts:19-21 | the service starts by restoring the session from storage as `initFromStorage` does, and does not navigate |
| AuthServices.AuthService.Logout | src/app/components/services/auth-services/auth-service.ts:67-77 | user, token, expiration and timer are cleared, and both storage keys are removed; `/login` is requested exactly when `navigateToLogin` holds |
| AuthServices.AuthService.IsAuthenticated | src/app/components/services/auth-services/auth-service.ts:85-94 | the answer is "a non-empty token that is not expired", both for the state before and the state after; an expired token is logged out without navigation, otherwise nothing changes |
| AuthServices.AuthService.StoreSession | src/app/components/services/auth-services/auth-service.ts:102-110 | token and user are set and stored under `auth_token` and `auth_user`, and the expiration is the token's `exp` in milliseconds |
| AuthServices.AuthService.InitFromStorage | src/app/components/services/auth-services/auth-service.ts:118-137 | the session is restored only if both keys are stored; an expired token is logged out, an unparsable user leaves user null while keeping the token, and the auto-logout is scheduled |
| AuthServices.AuthService.ScheduleAutoLogout | src/app/components/services/auth-services/auth-service.ts:145-157 | any pending timer is cancelled first; without an expiration nothing is scheduled; with no time left the session is logged out without navigation; otherwise exactly one timer for the remaining time is pending |
| AuthServices.AuthService.ClearAutoLogout | src/app/components/services/auth-services/auth-service.ts:165-170 | no logout timer is pending afterwards |
| AuthServices.AuthService.FireLogoutTimer | src/app/components/services/auth-services/auth-service.ts:154-156 | the timer logs out and navigates to `/login` |
| AuthServices.AuthService.CompleteLogin | src/app/components/services/auth-services/auth-service.ts:47-58 | a successful login stores the session and schedules its automatic logout |
| AuthGuard.ReturnUrl | src/app/guards/auth/auth.guard.ts:21 | the `returnUrl` is the requested URL, or `/` when that is empty; it is never empty |
| AuthGuard.AuthDecision | src/app/guards/auth/auth.guard.ts:16-22 | the guard allows exactly an authenticated session; otherwise it redirects to `login` with a single non-empty `returnUrl` that is the requested URL when there is one |
| AuthGuard.CanActivate | src/app/guards/auth/auth.guard.ts:12-23 | access is allowed exactly when the session is authenticated; otherwise the result redirects to `login` carrying `returnUrl`, and an expired session has been cleared |
| GuestGuard.GuestDecision | src/app/guards/auth/guest.guard.ts:13 | the guard allows exactly a session that is not authenticated; otherwise it redirects to `/home` with no query |
| GuestGuard.ExactlyOneGuardAllows | src/app/guards/auth/guest.guard.ts:13 | for the same session, exactly one of the guest guard and the auth guard allows access |
| GuestGuard.CanActivate | src/app/guards/auth/guest.guard.ts:10-14 | access is allowed exactly when the session is not authenticated; otherwise the result redirects to `/home`; an expired session is cleared and then allowed |
| Login.ErrorText | src/app/components/public/auth/login-component/login-component.ts:307-317 | the shown error is the body's non-empty `message`, else the body when it is a string, else `Error desconocido`; it is empty only for an empty string body |
| Login.ReturnTarget | src/app/components/public/auth/login-component/login-component.ts:304-306 | after login the target is `returnUrl` unless it is absent or empty, then `/home`; it is never empty |
| Login.ControlInvalid | src/app/components/public/auth/login-component/login-component.ts:379-381 | an error shows only on an invalid control, and never on one the user has neither changed nor touched |
| Login.LoginComponent.DisabledSubmit | src/app/components/public/auth/login-component/login-component.ts:211-213 | submitting is disabled while a login runs, and enabled only with a well-formed email and a password of at least 6 characters |
| Login.LoginComponent.FormValid | src/app/components/public/auth/login-component/login-component.ts:168-178 | the form is valid when the email is present and well formed and the password is present with at least 6 characters |
| Login.LoginComponent.constructor | src/app/components/public/auth/login-component/login-component.ts:100-102 | the form starts empty, not loading, with no error and no timer |
| Login.LoginComponent.SubmitLabel | src/app/components/public/auth/login-component/login-component.ts:109-111 | the label is `Ingresando...` while loading and `Entrar` otherwise |
| Login.LoginComponent.RestoreRememberedEmail | src/app/components/public/auth/login-component/login-component.ts:244-250 | a non-empty remembered email fills the field and ticks "remember"; otherwise the form is unchanged |
| Login.LoginComponent.ToggleShowPassword | src/app/components/public/auth/login-component/login-component.ts:230-232 | the password visibility flips |
| Login.LoginComponent.EditEmail | src/app/components/public/auth/login-component/login-component.ts:169-172 | the email field holds what the user typed |
| Login.LoginComponent.EditPassword | src/app/components/public/auth/login-component/login-component.ts:173-176 | the password field holds what the user typed |
| Login.LoginComponent.EditRemember | src/app/components/public/auth/login-component/login-component.ts:177 | "remember" holds what the user chose |
| Login.LoginComponent.Submit | src/app/components/public/auth/login-component/login-component.ts:279-296 | nothing happens while the submit is disabled; otherwise the error and its timer are cleared, loading starts, the fields are snapshotted and the credentials are sent |
| Login.LoginComponent.OnLoginSuccess | src/app/components/public/auth/login-component/login-component.ts:296-306 | the email is stored under `last_login_email` exactly when "remember" is ticked and removed otherwise; the router goes to the return target; loading ends |
| Login.LoginComponent.OnLoginError | src/app/components/public/auth/login-component/login-component.ts:307-319 | the chosen error text is shown with a dismiss timer armed for it; loading ends |
| Login.LoginComponent.SetErrorMessageWithAutoDismiss | src/app/components/public/auth/login-component/login-component.ts:334-344 | the message is shown and the previous timer is replaced by one armed for this message |
| Login.LoginComponent.FireDismissTimer | src/app/components/public/auth/login-component/login-component.ts:337-343 | the timer clears the message, which always is the one it was armed with |
| Login.LoginComponent.ClearErrorMessage | src/app/components/public/auth/login-component/login-component.ts:351-354 | no message is shown and no timer is pending |
| Login.LoginComponent.ClearErrorTimeout | src/app/components/public/auth/login-component/login-component.ts:361-366 | no dismiss timer is pending |
| Login.LoginComponent.ClearErrorOnUserChange | src/app/components/public/auth/login-component/login-component.ts:141-160 | a shown error is cleared exactly when email or password differs from the snapshot; the snapshot follows the fields only while no error is shown |
| ProjectCards.ProjectCard.constructor | src/app/components/shared/project-card/project-card.ts:22-25 | no projects, loading, empty parallel lists |
| ProjectCards.CanSlide | src/app/components/shared/project-card/project-card.ts:90 | a carousel can move only when its project exists and has at least two images |
| ProjectCards.ProjectCard.OnInit | src/app/components/shared/project-card/project-card.ts:32-33 | the load timer is armed |
| ProjectCards.ProjectCard.FireLoadTimer | src/app/components/shared/project-card/project-card.ts:33-78 | the catalogue is loaded, loading ends, and both parallel lists have one entry per project, all 0 and unflipped |
| ProjectCards.ProjectCard.PrevImage | src/app/components/shared/project-card/project-card.ts:89-93 | only project `i`'s index steps back cyclically, and only when the project exists and has at least two images |
| ProjectCards.ProjectCard.NextImage | src/app/components/shared/project-card/project-card.ts:103-107 | only project `i`'s index steps forward cyclically, and only when the project exists and has at least two images |
| ProjectCards.ProjectCard.FlipCard | src/app/components/shared/project-card/project-card.ts:117-120 | only card `i` is turned over; a missing card changes nothing |
| ProjectCards.ProjectCard.NextThenPrevRestores | src/app/components/shared/project-card/project-card.ts:89-107 | `nextImage(i)` then `prevImage(i)` leaves every index as it was |
| Footer.FooterComponent.constructor | src/app/components/shared/footer/footer/footer.component.ts:22-46 | the year, online, quote 2 shown with one typing step per character, fading in, mascot idle |
| Footer.FooterComponent.OnInit | src/app/components/shared/footer/footer/footer.component.ts:70-75 | the online flag follows the browser and the scroll state is computed once |
| Footer.FooterComponent.AfterViewInit | src/app/components/shared/footer/footer/footer.component.ts:84-87 | a scroll recheck after 120 ms and the first typing phase are scheduled |
| Footer.FooterComponent.OnWindowScroll | src/app/components/shared/footer/footer/footer.component.ts:49-58 | the top button shows exactly when `scrollY > 300`; `revealed` only ever becomes true |
| Footer.FooterComponent.HandleOnline | src/app/components/shared/footer/footer/footer.component.ts:108-110 | the indicator is online |
| Footer.FooterComponent.HandleOffline | src/app/components/shared/footer/footer/footer.component.ts:121-123 | the indicator is offline |
| Footer.FooterComponent.StartTypingCycle | src/app/components/shared/footer/footer/footer.component.ts:144-153 | one typing step per character of the current quote, and the fade-out follows after `2200 + 45 × steps` ms |
| Footer.TypingDelay | src/app/components/shared/footer/footer/footer.component.ts:152 | the typing phase of a quote lasts `2200 + 45 × steps` ms |
| Footer.FooterComponent.NextQuote | src/app/components/shared/footer/footer/footer.component.ts:162-172 | the index moves cyclically to the next quote, the shown quote follows it, it fades in, and typing restarts 50 ms later |
| Footer.FooterComponent.FireTimer | src/app/components/shared/footer/footer/footer.component.ts:144-172 | the end of typing fades out and schedules `nextQuote` after 450 ms; the other jobs run `nextQuote`, the typing restart or the scroll recheck (whose `revealed` only ever becomes true); each job leaves the fields it does not touch unchanged |
| Footer.FooterComponent.WaveMascot | src/app/components/shared/footer/footer/footer.component.ts:182-189 | the mascot waves and speaks, with a fresh hide timer |
| Footer.FooterComponent.StopWaveMascot | src/app/components/shared/footer/footer/footer.component.ts:199-201 | only the waving stops |
| Footer.FooterComponent.FireSpeechTimer | src/app/components/shared/footer/footer/footer.component.ts:186-188 | the speech bubble hides |
| Footer.RotationIsCyclic | src/app/components/shared/footer/footer/footer.component.ts:162-167 | five successive `nextQuote` calls return to the starting quote |
| MenuHeader.MenuHeaderComponent.constructor | src/app/components/shared/menu-header/menu-header/menu-header.component.ts:63-65 | lamp off, snake mode on, menu hidden, no listener |
| MenuHeader.MenuHeaderComponent.OnClickLight | src/app/components/shared/menu-header/menu-header/menu-header.component.ts:158-172 | the lamp flag flips and one event is emitted: `turnOn` exactly when the lamp was off, `turnOff` otherwise |
| MenuHeader.MenuHeaderComponent.ActiveModeGame | src/app/components/shared/menu-header/menu-header/menu-header.component.ts:186-198 | turning the game on emits `activeModeGame` and clears snake mode; otherwise it emits `leaveModeGame` and sets it |
| MenuHeader.MenuHeaderComponent.LeaveModeGame | src/app/components/shared/menu-header/menu-header/menu-header.component.ts:210-216 | `leaveModeGame` with `endGame` true is emitted |
| MenuHeader.IsMobile | src/app/components/shared/menu-header/menu-header/menu-header.component.ts:89-91 | a window narrower than 992 pixels is mobile |
| MenuHeader.MenuHeaderComponent.IsActiveRoute | src/app/components/shared/menu-header/menu-header/menu-header.component.ts:341-343 | a route is active exactly when it is the router's current URL |
| MenuHeader.MenuHeaderComponent.OnResize | src/app/components/shared/menu-header/menu-header/menu-header.component.ts:227-235 | the menu shows exactly on a wide screen (992 px or more), and `no-scroll` is removed |
| MenuHeader.MenuHeaderComponent.ToggleMenu | src/app/components/shared/menu-header/menu-header/menu-header.component.ts:245-254 | the menu flips; `no-scroll` is present exactly when the menu shows on mobile, a listener add is scheduled then, and listeners are removed otherwise |
| MenuHeader.MenuHeaderComponent.HideMenu | src/app/components/shared/menu-header/menu-header/menu-header.component.ts:264-268 | the menu is hidden, `no-scroll` is removed and no listener remains |
| MenuHeader.MenuHeaderComponent.FireListenerAdd | src/app/components/shared/menu-header/menu-header/menu-header.component.ts:249 | the deferred add leaves exactly one click listener |
| MenuHeader.MenuHeaderComponent.AddDocumentListeners | src/app/components/shared/menu-header/menu-header/menu-header.component.ts:278-294 | adding is idempotent: exactly one click listener is registered |
| MenuHeader.MenuHeaderComponent.RemoveDocumentListeners | src/app/components/shared/menu-header/menu-header/menu-header.component.ts:304-317 | no listener is registered |
| MenuHeader.MenuHeaderComponent.OnDocumentMouseDown | src/app/components/shared/menu-header/menu-header/menu-header.component.ts:280-290 | a click hides the menu exactly when a listener is registered, the menu shows on mobile, and the target is outside both the menu and the toggler |
| MenuHeader.MenuHeaderComponent.ClosesMenu | src/app/components/shared/menu-header/menu-header/menu-header.component.ts:282-288 | a click closes the menu when the menu is open on a phone, the menu is rendered, and the click lands neither in the menu nor on the toggler |
| ReflectorBulb.ReflectorBulbComponent.constructor | src/app/components/shared/reflector-bulb/reflector-bulb.component.ts:20-26 | lamp hidden, class `lamp-init`, all flags off |
| ReflectorBulb.ReflectorBulbComponent.OnBulbEvent | src/app/components/shared/reflector-bulb/reflector-bulb.component.ts:46-56 | a missing event throws `Reflector bulb is not defined` and changes nothing; `turnOn` and `turnOff` run their animations; any other action changes nothing; turning on leaves flicker, glow and swing as they were, turning off leaves visibility and vibration as they were |
| ReflectorBulb.ReflectorBulbComponent.AnimateLampOn | src/app/components/shared/reflector-bulb/reflector-bulb.component.ts:65-76 | the lamp shows, switched on and not vibrating, with class `lamp-init`; the drop follows after 10 ms |
| ReflectorBulb.ReflectorBulbComponent.AnimateLampOff | src/app/components/shared/reflector-bulb/reflector-bulb.component.ts:85-96 | class `lamp-off`, switched off, flicker 0, no glow, no swing; the extinction follows after 1100 ms |
| ReflectorBulb.ReflectorBulbComponent.OnLampAnimationEnd | src/app/components/shared/reflector-bulb/reflector-bulb.component.ts:106-115 | only the end of `dropLamp` starts vibrating, and the vibration stops 800 ms later; other animations change nothing |
| ReflectorBulb.ReflectorBulbComponent.FireTimer | src/app/components/shared/reflector-bulb/reflector-bulb.component.ts:70-114 | the drop sets `lamp ` and schedules the swing 1000 ms later; the swing sets `lamp swinging `; the extinction hides the lamp, vibrates and resets the class; the end of vibration switches the lamp on |
| ReflectorBulb.ReflectorBulbComponent.OffThenOnStillHides | src/app/components/shared/reflector-bulb/reflector-bulb.component.ts:85-96 | a turn-off followed by a turn-on still ends with the lamp hidden once the turn-off timer runs |
| EyeTracking.VisualFor | src/app/components/shared/eye-tracking/eye-tracking.ts:202-256 | each state gives one `eye-` and one `pupil-` class named after it; the tear shows exactly when sad, the heart exactly when in love, and the eyelid is closed exactly when asleep |
| EyeTracking.StateOfEyeClass | src/app/components/shared/eye-tracking/eye-tracking.ts:210-251 | a state read back from an eye class is one whose visual carries that class |
| EyeTracking.EyeClassDeterminesState | src/app/components/shared/eye-tracking/eye-tracking.ts:210-251 | the eye class alone identifies the state |
| EyeTracking.VisualForInjective | src/app/components/shared/eye-tracking/eye-tracking.ts:202-256 | distinct states look different |
| EyeTracking.MayWink | src/app/components/shared/eye-tracking/eye-tracking.ts:146-152 | a double click may wink only in `amor`, `normal` or `sorprendido` |
| EyeTracking.EyeTrackingComponent.constructor | src/app/components/shared/eye-tracking/eye-tracking.ts:14-24 | state `normal`, nothing applied, no timer, no wink, not listening |
| EyeTracking.EyeTrackingComponent.SetEstado | src/app/components/shared/eye-tracking/eye-tracking.ts:33-36 | the setter stores the state and applies its visual to both eyes |
| EyeTracking.EyeTrackingComponent.SetInactivityTimer | src/app/components/shared/eye-tracking/eye-tracking.ts:186-191 | exactly one inactivity timer is pending |
| EyeTracking.EyeTrackingComponent.AfterViewInit | src/app/components/shared/eye-tracking/eye-tracking.ts:45-52 | the listeners are attached, the state is `feliz` with its look applied to every eye including the right eyelid, and the inactivity timer runs; the wink state is untouched |
| EyeTracking.EyeTrackingComponent.OnDestroy | src/app/components/shared/eye-tracking/eye-tracking.ts:61-67 | listeners detached and timer cancelled |
| EyeTracking.EyeTrackingComponent.HandleMouseMove | src/app/components/shared/eye-tracking/eye-tracking.ts:78-118 | moving wakes `dormido` to `normal` and leaves any other state unchanged; the inactivity timer restarts |
| EyeTracking.EyeTrackingComponent.FireInactivity | src/app/components/shared/eye-tracking/eye-tracking.ts:188-190 | after 5000 ms of inactivity the state becomes `dormido` with the eyelid closed |
| EyeTracking.EyeTrackingComponent.HandleDblClick | src/app/components/shared/eye-tracking/eye-tracking.ts:145-177 | the right eye winks only in `amor`, `normal` or `sorprendido` and when the right eye exists; otherwise nothing changes |
| EyeTracking.EyeTrackingComponent.FireUnwink | src/app/components/shared/eye-tracking/eye-tracking.ts:168-176 | the wink ends with the right eyelid open again |
| RocketScroll.ClampTop | src/app/components/shared/rocket-scroll/rocket-scroll.ts:207 | the vertical position is within [10, 90], unchanged inside that range and at the nearer bound outside it |
| RocketScroll.PercentY | src/app/components/shared/rocket-scroll/rocket-scroll.ts:205-206 | a page that cannot scroll gives 50; a scroll within the page gives a percentage within [0, 100] |
| RocketScroll.OrOne | src/app/components/shared/rocket-scroll/rocket-scroll.ts:136-137 | a zero width counts as 1, any other width as itself |
| RocketScroll.MaxXPercent | src/app/components/shared/rocket-scroll/rocket-scroll.ts:135-139 | the largest horizontal percentage, `90 − rocketWidth/spaceWidth × 100` with each width counted as at least 1, is always below 90, and is at least 10 exactly when the rocket is at most four fifths as wide as the space |
| RocketScroll.ClampX | src/app/components/shared/rocket-scroll/rocket-scroll.ts:135-140 | the horizontal percentage is at least 10, at most the maximum when that maximum is at least 10, and unchanged inside the range |
| RocketScroll.GetRandomInt | src/app/components/shared/rocket-scroll/rocket-scroll.ts:121-123 | a draw in [0, 1) gives an integer in `[min, max]` |
| RocketScroll.CandidateInField | src/app/components/shared/rocket-scroll/rocket-scroll.ts:86-87 | every candidate has integer coordinates in [18, 82] |
| RocketScroll.SqDist | src/app/components/shared/rocket-scroll/rocket-scroll.ts:106-110 | the squared distance is never negative |
| RocketScroll.FarFromAll | src/app/components/shared/rocket-scroll/rocket-scroll.ts:88 | a candidate is accepted exactly when its squared distance to every badge already placed is at least 35² |
| RocketScroll.SeparationMatchesDistance | src/app/components/shared/rocket-scroll/rocket-scroll.ts:88 | comparing the squared distance with 35² decides the same as comparing the Euclidean distance with 35 |
| RocketScroll.SquareIncreasing | src/app/components/shared/rocket-scroll/rocket-scroll.ts:106-110 | squaring is strictly increasing on non-negative numbers |
| RocketScroll.RootComparison | src/app/components/shared/rocket-scroll/rocket-scroll.ts:240-243 | a square root is below `r` exactly when its square is below `r²` |
| RocketScroll.SquareBelow | src/app/components/shared/rocket-scroll/rocket-scroll.ts:240-243 | a coordinate difference whose square is under `r²` lies strictly between `−r` and `r` |
| RocketScroll.Colliding | src/app/components/shared/rocket-scroll/rocket-scroll.ts:236-244 | the rocket touches a badge when `dx² + dy² < 64`, which stands for `distance < 8`; a touching rocket is within 8 of the badge on each axis |
| RocketScroll.CollidingIffWithinRadius | src/app/components/shared/rocket-scroll/rocket-scroll.ts:236-244 | the squared-distance test `< 64` holds exactly when the distance is below the radius 8 |
| RocketScroll.UnplacedNeverCollides | src/app/components/shared/rocket-scroll/rocket-scroll.ts:39-48 | a badge still at (0, 0) never collides with a rocket inside the clamped field |
| RocketScroll.BlinksAreCollisions | src/app/components/shared/rocket-scroll/rocket-scroll.ts:218-224 | the collision check schedules an animation for exactly the indices of colliding badges, each after 10 ms |
| RocketScroll.Positions | src/app/components/shared/rocket-scroll/rocket-scroll.ts:39-46 | the badge positions, in badge order |
| RocketScroll.DrawCandidate | src/app/components/shared/rocket-scroll/rocket-scroll.ts:85-90 | the retry loop stops after at most 300 tries, at the first candidate far enough from every placed badge, or else at the 300th candidate |
| RocketScroll.PlacedEach | src/app/components/shared/rocket-scroll/rocket-scroll.ts:81-94 | each badge was drawn by its own retry loop against the badges placed before it |
| RocketScroll.PlacedExtend | src/app/components/shared/rocket-scroll/rocket-scroll.ts:91-93 | placing one more badge after its retry loop extends a placement, and the try count grows by that loop's tries |
| RocketScroll.PlaceAll | src/app/components/shared/rocket-scroll/rocket-scroll.ts:80-94 | one position per badge, each chosen by the retry loop against all earlier ones |
| RocketScroll.RocketScrollComponent.constructor | src/app/components/shared/rocket-scroll/rocket-scroll.ts:39-56 | after view initialisation the skills keep their names and images and are placed by the retry loop inside the field, no badge is animated, the rocket sits at x 10 and the clamped scroll height, and the blinks of the two collision checks (at the initial height, then at the scroll height) are pending |
| RocketScroll.RocketScrollComponent.AfterViewInit | src/app/components/shared/rocket-scroll/rocket-scroll.ts:60-69 | badges placed by the retry loop with names and images kept, no badge animated, rocket at x 10 and the clamped scroll height, and exactly the blinks of the two collision checks added |
| RocketScroll.RocketScrollComponent.PlaceBadges | src/app/components/shared/rocket-scroll/rocket-scroll.ts:61-62 | every badge placed by the retry loop inside the field, names and images kept, and no badge animated |
| RocketScroll.RocketScrollComponent.StartRocket | src/app/components/shared/rocket-scroll/rocket-scroll.ts:63-66 | the rocket ends at x 10 and the clamped scroll height, no badge is animated, and the blinks of the check at the left edge and of the check at the scroll height are pending |
| RocketScroll.RocketScrollComponent.PlaceSkillsWithSeparation | src/app/components/shared/rocket-scroll/rocket-scroll.ts:79-95 | names and images kept; every badge placed in [18, 82] by the retry loop |
| RocketScroll.RocketScrollComponent.InitRocketScroll | src/app/components/shared/rocket-scroll/rocket-scroll.ts:148-149 | the horizontal position starts at 10 and collisions are checked: each badge stays animated exactly when it was and the rocket does not touch it |
| RocketScroll.RocketScrollComponent.UpdateRocket | src/app/components/shared/rocket-scroll/rocket-scroll.ts:142-146 | the rocket's left follows the horizontal percentage and collisions are checked |
| RocketScroll.RocketScrollComponent.OnScrollDrift | src/app/components/shared/rocket-scroll/rocket-scroll.ts:151-158 | the percentage moves by `0.2 × (scrollY - lastScroll)`, is clamped, collisions are checked at the new position, and `lastScroll` becomes `scrollY` |
| RocketScroll.RocketScrollComponent.OnResize | src/app/components/shared/rocket-scroll/rocket-scroll.ts:160-163 | the percentage is re-clamped to the new widths, and collisions are checked at the new position |
| RocketScroll.RocketScrollComponent.UpdateRocketPosFromScroll | src/app/components/shared/rocket-scroll/rocket-scroll.ts:204-208 | the top is the clamped scroll percentage |
| RocketScroll.RocketScrollComponent.OnWindowScroll | src/app/components/shared/rocket-scroll/rocket-scroll.ts:33-37 | the top follows the scroll and collisions are checked: a touched badge loses its animation and gets a blink, the others keep theirs |
| RocketScroll.RocketScrollComponent.CheckCollisions | src/app/components/shared/rocket-scroll/rocket-scroll.ts:218-224 | exactly the colliding badges are reset and scheduled to animate; the others keep their flags |
| RocketScroll.RocketScrollComponent.TriggerSkillAnimation | src/app/components/shared/rocket-scroll/rocket-scroll.ts:255-261 | the badge's flag is reset and its blink is scheduled after 10 ms |
| RocketScroll.RocketScrollComponent.FireTimer | src/app/components/shared/rocket-scroll/rocket-scroll.ts:257-260 | a blink lights the badge and schedules the unblink after 900 ms; an unblink turns it off |
| RocketScroll.RocketScrollComponent.StartDrag | src/app/components/shared/rocket-scroll/rocket-scroll.ts:297-314 | dragging starts with the current bounds of the space |
| RocketScroll.RocketScrollComponent.EndDrag | src/app/components/shared/rocket-scroll/rocket-scroll.ts:305-320 | dragging stops |
| RocketScroll.RocketScrollComponent.PointerMove | src/app/components/shared/rocket-scroll/rocket-scroll.ts:287-304 | while dragging, the top follows the pointer, clamped, and collisions are checked (touched badges reset and blinked, the others kept); otherwise nothing changes |
| RocketScroll.DragTop | src/app/components/shared/rocket-scroll/rocket-scroll.ts:290-292 | the dragged top is within [10, 90]; over a zero-height space it is 90 exactly when the pointer is below the top edge |
| AboutIt.RippleSize | src/app/components/public/about-it/about-it-component.ts:85 | the ripple's side is the larger of the button's width and height |
| AboutIt.AboutItComponent.constructor | src/app/components/public/about-it/about-it-component.ts:36-41 | nothing typed, cursor shown, zero years, no ripple |
| AboutIt.AboutItComponent.OnInit | src/app/components/public/about-it/about-it-component.ts:59-69 | the counter starts at 0 with its interval running, the name is typed out in full, and the cursor blinks |
| AboutIt.AboutItComponent.TickYears | src/app/components/public/about-it/about-it-component.ts:60-66 | each tick adds one year, and the interval stops exactly at 5 |
| AboutIt.AboutItComponent.ToggleCursor | src/app/components/public/about-it/about-it-component.ts:68 | the cursor flips |
| AboutIt.AboutItComponent.TypeName | src/app/components/public/about-it/about-it-component.ts:117-125 | after `i` steps the first `i` characters are shown; at the end the whole name is shown and typing is over |
| AboutIt.AboutItComponent.CreateRipple | src/app/components/public/about-it/about-it-component.ts:81-106 | the button holds exactly one ripple with a fresh id, side `max(width, height)`, centred on the click |
| AboutIt.AboutItComponent.RippleAnimationEnd | src/app/components/public/about-it/about-it-component.ts:104-105 | the finished ripple is removed |
| AboutIt.RemoveRipple | src/app/components/public/about-it/about-it-component.ts:104-105 | the ripples kept are exactly those with another id |
| ContactMe.ContactMeComponent.constructor | src/app/components/public/contact-me/contact-me.ts:29-49 | an empty untouched form, not sending, captcha not passed |
| ContactMe.ContactMeComponent.Edit | src/app/components/public/contact-me/contact-me.ts:44-48 | the fields hold what the user typed |
| ContactMe.FormValid | src/app/components/public/contact-me/contact-me.ts:44-48 | the form is valid when the name has at least 2 characters, the email is present and well formed, and the message has at least 10 characters |
| ContactMe.ContactMeComponent.AfterViewInit | src/app/components/public/contact-me/contact-me.ts:51-70 | as written: it throws a `TypeError` exactly when the captcha script is loaded, and changes nothing either way |
| ContactMe.ContactMeComponent.RenderCaptcha | src/app/components/public/contact-me/contact-me.ts:51-70 | as intended: the captcha callbacks are registered exactly when the script is loaded (or already were) |
| ContactMe.ScriptLoadedAsWritten | src/app/components/public/contact-me/contact-me.ts:36-53 | with the script loaded, a fresh component throws and ends with no callbacks registered and the captcha not passed |
| ContactMe.ScriptLoadedCorrected | src/app/components/public/contact-me/contact-me.ts:51-70 | with the script loaded, the intended initialisation registers the callbacks |
| ContactMe.ContactMeComponent.CaptchaCallback | src/app/components/public/contact-me/contact-me.ts:55-60 | the token is stored and the captcha passes |
| ContactMe.ContactMeComponent.CaptchaExpired | src/app/components/public/contact-me/contact-me.ts:61-66 | the token is dropped and the captcha no longer passes |
| ContactMe.ContactMeComponent.OnCaptchaSuccess | src/app/components/public/contact-me/contact-me.ts:84-87 | the token is stored and the captcha passes |
| ContactMe.ContactMeComponent.OnSubmit | src/app/components/public/contact-me/contact-me.ts:113-116 | nothing happens unless the captcha passed; otherwise the message is sent |
| ContactMe.ContactMeComponent.SendMessage | src/app/components/public/contact-me/contact-me.ts:128-141 | an invalid form is marked touched and nothing else changes; a valid one starts sending and schedules the delivery after 1800 ms |
| ContactMe.ContactMeComponent.FireTimer | src/app/components/public/contact-me/contact-me.ts:135-140 | delivery ends sending, shows "sent", resets the form and hides "sent" 3500 ms later |

## Left out

- Pupil trigonometry in `handleMouseMove`, the blink on a single click, and the rocket trail's `requestAnimationFrame` loop: these are floating-point rendering with no discrete state worth stating.
- The intro spinner and the mouse-effect utility are not part of this model. They are DOM choreography with random colours.
- The HTTP request of `login`, RxJS Subjects and the services that wrap them. These are foreign calls. The login continuations are methods the caller invokes, and bus events are values passed to methods.
- `atob`, `JSON.parse` and `JSON.stringify` are abstract functions supplied by the caller. `Validators.email` is an abstract `isEmail` predicate. When Angular re-runs the login effect is not modelled; only its body is.
- tippy.js tooltips, hCaptcha rendering, `Title`/`Meta` tags, route configuration and animation metadata. These are library behaviour or configuration.
- The footer's `ngOnDestroy`: it removes the online and offline listeners and cancels the last typing timer, the last fade timer and the speech timer, but not the 50 ms typing restart of `nextQuote` nor the 120 ms scroll recheck. The model follows the component only while it lives. The footer's `scrollToTop`, which only calls `window.scrollTo`. The about page's `isMobile` getter and `careerTimeline` data, which are read only by templates.
- Wall-clock waits. Each timer is a pending entry, and any pending entry may fire next, so every interleaving of timers is covered but their relative order by delay is not enforced.
- AboutIt.AboutItComponent.TypeName: the 55 ms `await` between characters is collapsed into a loop, so no other event runs while the name is being typed.
- RocketScroll.RocketScrollComponent.PointerMove: a pointer exactly at the top edge of a zero-height space, which yields `NaN` in the source, is excluded by a precondition.
- RocketScroll.RocketScrollComponent.constructor: events that reach the component before `ngAfterViewInit` are not modelled. The constructor runs view initialisation directly.
- RocketScroll.RocketScrollComponent.OnWindowScroll: the host listener and the drift listener registered by `initRocketScroll` are separate methods (`OnWindowScroll`, `OnScrollDrift`). The browser runs them in that order on each scroll.
- ContactMe.ContactMeComponent.FireTimer: Angular's `reset()` sets the controls to `null`; the model clears them to empty strings. Both fail the `required` validators alike.
- JavaScript numbers are exact reals in the model. Floating-point rounding, UTF-16 code units (string lengths are counted in characters), fractional `exp` claims and non-string `message` fields of an error object beyond "not a non-empty string" are not distinguished.

## Findings

| source | as written | input that shows it | evidently intended | confidence | as-written member | corrected member |
|---|---|---|---|---|---|---|
| src/app/components/public/contact-me/contact-me.ts:36-53 | `ngAfterViewInit` tests the global `window.hcaptcha` but calls `this.hcaptcha.render`, and `hcaptcha` is only a `declare`d member, so it is `undefined` and the call throws a `TypeError` | the captcha script loaded, so `window.hcaptcha` is defined | render through the global `hcaptcha`, registering the success and expiry callbacks | not executed | ContactMe.ScriptLoadedAsWritten | ContactMe.ScriptLoadedCorrected |
