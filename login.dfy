/**
 * The login form's controller: the submit gate and loading flag, the error
 * message with its five-second auto-dismiss, the rule that clears the error
 * once the user edits a field, and the "remember my email" option.
 *
 * The HTTP call is not modelled: `Submit` returns the request it would send,
 * and `OnLoginSuccess` / `OnLoginError` are its two continuations (each
 * followed by the `finalize` that resets `loading`). The auto-dismiss
 * `setTimeout` is the `dismissTimer` field, holding the message the timer
 * was armed with; `FireDismissTimer` is that timer running out. The effect
 * body `ClearErrorOnUserChange` is run by the framework whenever the signals
 * it reads change; when that happens is not modelled.
 */
module Login {
  import opened Wrappers
  import opened AuthModels
  import opened Browser

  const RememberKey: string := "last_login_email"
  const UnknownError: string := "Error desconocido"
  const DefaultReturnUrl: string := "/home"
  const ErrorAutoDismissMs: int := 5000

  /**
   * The `error` field of the `HttpErrorResponse`: an object whose `message`
   * is a string (None when it is absent or null), a string, or anything
   * else (null, a number, ...).
   */
  datatype ErrorBody = ObjectBody(message: Option<string>) | TextBody(text: string) | OtherBody

  /**
   * The message shown for a failed login: the object's `message` when it is
   * a non-empty string, the body itself when it is a string, and
   * `'Error desconocido'` otherwise.
   */
  function ErrorText(body: ErrorBody): (r: string)
    ensures body.ObjectBody? && body.message.Some? && body.message.value != "" ==> r == body.message.value
    ensures body.TextBody? ==> r == body.text
    ensures body.OtherBody? || (body.ObjectBody? && (body.message.None? || body.message.value == "")) ==>
              r == UnknownError
    ensures r == "" <==> body == TextBody("")
  {
    match body
    case ObjectBody(message) =>
      if message.Some? && message.value != "" then message.value else UnknownError
    case TextBody(text) => text
    case OtherBody => UnknownError
  }

  /** The state flags of a form control that `controlInvalid` looks at. */
  datatype ControlState = ControlState(invalid: bool, dirty: bool, touched: bool)

  /** `controlInvalid`: show a control's error only once the user has interacted with it. */
  predicate ControlInvalid(c: ControlState)
    ensures ControlInvalid(c) ==> c.invalid
    ensures !c.dirty && !c.touched ==> !ControlInvalid(c)
  {
    c.invalid && (c.dirty || c.touched)
  }

  /** The target after a successful login: the `returnUrl` query parameter unless it is absent or empty. */
  function ReturnTarget(returnUrlParam: Option<string>): (r: string)
    ensures r != ""
    ensures returnUrlParam.Some? && returnUrlParam.value != "" ==> r == returnUrlParam.value
    ensures returnUrlParam.None? || returnUrlParam.value == "" ==> r == DefaultReturnUrl
  {
    if returnUrlParam.Some? && returnUrlParam.value != "" then returnUrlParam.value else DefaultReturnUrl
  }

  class LoginComponent {
    const store: LocalStorage
    const router: Router
    /** `route.snapshot.queryParamMap.get('returnUrl')`. */
    const returnUrlParam: Option<string>
    /** Angular's `Validators.email` on a non-empty value. */
    const isEmail: string -> bool

    // form controls
    var email: string
    var password: string
    var remember: bool

    var loading: bool
    var errorMsg: Option<string>
    var showPassword: bool
    var snapshotEmail: string
    var snapshotPass: string
    var dismissTimer: Option<string>

    /** A pending auto-dismiss always belongs to the message on screen. */
    ghost predicate Valid()
      reads this
    {
      dismissTimer.Some? ==> errorMsg == dismissTimer
    }

    constructor (store: LocalStorage, router: Router, returnUrlParam: Option<string>, isEmail: string -> bool)
      ensures Valid()
      ensures this.store == store && this.router == router
      ensures this.returnUrlParam == returnUrlParam && this.isEmail == isEmail
      ensures email == "" && password == "" && !remember
      ensures !loading && errorMsg == None && !showPassword && dismissTimer == None
      ensures snapshotEmail == "" && snapshotPass == ""
    {
      this.store := store;
      this.router := router;
      this.returnUrlParam := returnUrlParam;
      this.isEmail := isEmail;
      email, password, remember := "", "", false;
      loading, errorMsg, showPassword := false, None, false;
      snapshotEmail, snapshotPass := "", "";
      dismissTimer := None;
    }

    /** The form's validators: email required and well formed, password required with at least 6 characters. */
    predicate FormValid()
      reads this
    {
      email != "" && isEmail(email) && password != "" && |password| >= 6
    }

    /** `disabledSubmit`: the button is disabled while the form is invalid or a login is running. */
    predicate DisabledSubmit()
      reads this
      ensures loading ==> DisabledSubmit()
      ensures !DisabledSubmit() ==> isEmail(email) && |password| >= 6
    {
      !FormValid() || loading
    }

    /** `submitLabel`. */
    function SubmitLabel(): (r: string)
      reads this
      ensures loading ==> r == "Ingresando..."
      ensures !loading ==> r == "Entrar"
    {
      if loading then "Ingresando..." else "Entrar"
    }

    /** The error is visible when the message is a non-empty string. */
    predicate ErrorShown()
      reads this
    {
      errorMsg.Some? && errorMsg.value != ""
    }

    /** `ngOnInit` / `restoreRememberedEmail`: reuse a non-empty remembered email and tick "remember". */
    method RestoreRememberedEmail()
      modifies this`email, this`remember
      ensures var saved := store.GetItem(RememberKey);
              if saved.Some? && saved.value != "" then email == saved.value && remember
              else email == old(email) && remember == old(remember)
    {
      var saved := store.GetItem(RememberKey);
      if saved.Some? && saved.value != "" {
        email := saved.value;
        remember := true;
      }
    }

    /** `toggleShowPassword`. */
    method ToggleShowPassword()
      modifies this`showPassword
      ensures showPassword == !old(showPassword)
    {
      showPassword := !showPassword;
    }

    /** The user types into the email field. */
    method EditEmail(value: string)
      modifies this`email
      ensures email == value
    {
      email := value;
    }

    /** The user types into the password field. */
    method EditPassword(value: string)
      modifies this`password
      ensures password == value
    {
      password := value;
    }

    /** The user ticks or unticks "remember". */
    method EditRemember(value: bool)
      modifies this`remember
      ensures remember == value
    {
      remember := value;
    }

    /**
     * `submit`: nothing while the button is disabled; otherwise clear the
     * error and its timer, start loading, snapshot the fields and send the
     * credentials.
     */
    method Submit() returns (request: Option<LoginRequest>)
      requires Valid()
      modifies this`errorMsg, this`dismissTimer, this`loading, this`snapshotEmail, this`snapshotPass
      ensures Valid()
      ensures old(DisabledSubmit()) ==> request == None && unchanged(this)
      ensures !old(DisabledSubmit()) ==>
                request == Some(LoginRequest(email, password))
                && errorMsg == None && dismissTimer == None && loading
                && snapshotEmail == email && snapshotPass == password
    {
      if DisabledSubmit() {
        return None;
      }
      ClearErrorMessage();
      loading := true;
      snapshotEmail, snapshotPass := email, password;
      request := Some(LoginRequest(email, password));
    }

    /**
     * The login succeeded: remember or forget the email, go to the
     * `returnUrl` (or `/home`), then `finalize` ends the loading state.
     */
    method OnLoginSuccess()
      requires Valid()
      modifies this`loading, store, router
      ensures Valid()
      ensures !loading
      ensures remember ==> store.items == old(store.items)[RememberKey := email]
      ensures !remember ==> store.items == old(store.items) - {RememberKey}
      ensures router.requests == old(router.requests) + [ReturnTarget(returnUrlParam)]
    {
      if remember {
        store.SetItem(RememberKey, email);
      } else {
        store.RemoveItem(RememberKey);
      }
      router.Navigate(ReturnTarget(returnUrlParam));
      loading := false;
    }

    /** The login failed: show the back end's message with auto-dismiss, then `finalize` ends loading. */
    method OnLoginError(body: ErrorBody)
      requires Valid()
      modifies this`errorMsg, this`dismissTimer, this`loading
      ensures Valid()
      ensures !loading
      ensures errorMsg == Some(ErrorText(body)) && dismissTimer == Some(ErrorText(body))
    {
      SetErrorMessageWithAutoDismiss(ErrorText(body));
      loading := false;
    }

    /** `setErrorMessageWithAutoDismiss`: show `msg` and replace any pending dismiss with one armed for `msg`. */
    method SetErrorMessageWithAutoDismiss(msg: string)
      modifies this`errorMsg, this`dismissTimer
      ensures Valid()
      ensures errorMsg == Some(msg) && dismissTimer == Some(msg)
    {
      errorMsg := Some(msg);
      ClearErrorTimeout();
      dismissTimer := Some(msg);
    }

    /**
     * The auto-dismiss timer runs out: clear the message only if it is still
     * the one the timer was armed with. Because every other change of the
     * message cancels or re-arms the timer, it always is.
     */
    method FireDismissTimer()
      requires Valid() && dismissTimer.Some?
      modifies this`errorMsg, this`dismissTimer
      ensures Valid()
      ensures errorMsg == None && dismissTimer == None
    {
      var armedWith := dismissTimer.value;
      if errorMsg == Some(armedWith) {
        errorMsg := None;
      }
      dismissTimer := None;
    }

    /** `clearErrorMessage`: cancel the timer and hide the message. */
    method ClearErrorMessage()
      modifies this`errorMsg, this`dismissTimer
      ensures Valid()
      ensures errorMsg == None && dismissTimer == None
    {
      ClearErrorTimeout();
      errorMsg := None;
    }

    /** `clearErrorTimeout`: cancel the pending auto-dismiss, if any. */
    method ClearErrorTimeout()
      modifies this`dismissTimer
      ensures dismissTimer == None
    {
      if dismissTimer.Some? {
        dismissTimer := None;
      }
    }

    /**
     * The body of the `clearErrorOnUserChange` effect: a visible error goes
     * away once email or password differs from the snapshot; while no error
     * is visible the snapshot follows the fields.
     */
    method ClearErrorOnUserChange()
      requires Valid()
      modifies this`errorMsg, this`dismissTimer, this`snapshotEmail, this`snapshotPass
      ensures Valid()
      ensures var edited := email != old(snapshotEmail) || password != old(snapshotPass);
              if old(ErrorShown()) && edited then errorMsg == None && dismissTimer == None
              else errorMsg == old(errorMsg) && dismissTimer == old(dismissTimer)
      ensures if ErrorShown() then snapshotEmail == old(snapshotEmail) && snapshotPass == old(snapshotPass)
              else snapshotEmail == email && snapshotPass == password
    {
      if ErrorShown() && (email != snapshotEmail || password != snapshotPass) {
        ClearErrorMessage();
      }
      if !ErrorShown() {
        snapshotEmail, snapshotPass := email, password;
      }
    }
  }
}
