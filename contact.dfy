/**
 * The contact form: name, e-mail and message, sent only once the captcha
 * has been solved. Sending is simulated: 1800 ms after a valid submission
 * the form is cleared and a confirmation shows for 3500 ms.
 */
module ContactMe {
  import opened Wrappers
  import opened Browser

  const MinNameLength: int := 2
  const MinMessageLength: int := 10

  /** The simulated delivery, and the end of the confirmation. */
  datatype Job = Delivered | HideSent

  /** How `ngAfterViewInit` ends: normally, or with a `TypeError`. */
  datatype Outcome = Handled | ThrewTypeError

  /**
   * The form's validators: each field is required, the name has at least 2
   * characters, the e-mail passes the e-mail check and the message has at
   * least 10 characters.
   */
  predicate FormValid(name: string, email: string, message: string, isEmail: string -> bool)
  {
    && |name| >= MinNameLength
    && email != [] && isEmail(email)
    && |message| >= MinMessageLength
  }

  class ContactMeComponent {
    /** The e-mail validator, whose pattern is the form library's. */
    const isEmail: string -> bool
    var name: string
    var email: string
    var message: string
    /** Every control has been marked touched, so its errors show. */
    var touched: bool
    var sending: bool
    var sent: bool
    var captchaToken: Option<string>
    var captchaPassed: bool
    /** The captcha widget was rendered with the two callbacks below. */
    var captchaRendered: bool
    var pending: seq<Timeout<Job>>

    ghost predicate Valid()
      reads this
    {
      captchaPassed <==> captchaToken.Some?
    }

    constructor (isEmail: string -> bool)
      ensures Valid()
      ensures this.isEmail == isEmail && name == "" && email == "" && message == "" && !touched
      ensures !sending && !sent && captchaToken.None? && !captchaPassed && !captchaRendered && pending == []
    {
      this.isEmail := isEmail;
      name, email, message, touched := "", "", "", false;
      sending, sent, captchaToken, captchaPassed := false, false, None, false;
      captchaRendered, pending := false, [];
    }

    predicate Invalid()
      reads this
    {
      !FormValid(name, email, message, isEmail)
    }

    /** The visitor types into the form. */
    method Edit(newName: string, newEmail: string, newMessage: string)
      modifies this`name, this`email, this`message
      ensures name == newName && email == newEmail && message == newMessage
    {
      name, email, message := newName, newEmail, newMessage;
    }

    /**
     * `ngAfterViewInit` as written: when the captcha script is loaded it
     * calls `render` on the component's own `hcaptcha` member, which is only
     * declared and so is `undefined`; the call throws a `TypeError` before
     * anything is rendered. Without the script it does nothing.
     */
    method AfterViewInit(captchaScriptLoaded: bool) returns (outcome: Outcome)
      ensures outcome == ThrewTypeError <==> captchaScriptLoaded
      ensures outcome == Handled <==> !captchaScriptLoaded
    {
      if captchaScriptLoaded {
        return ThrewTypeError;
      }
      return Handled;
    }

    /**
     * `ngAfterViewInit` as intended: render the captcha through the global
     * `hcaptcha` the script defines, so that its two callbacks are
     * registered exactly when the script is loaded.
     */
    method RenderCaptcha(captchaScriptLoaded: bool)
      modifies this`captchaRendered
      ensures captchaRendered == (old(captchaRendered) || captchaScriptLoaded)
    {
      if captchaScriptLoaded {
        captchaRendered := true;
      }
    }

    /** The captcha's success callback: the token is kept and the captcha counts as passed. */
    method CaptchaCallback(token: string)
      requires captchaRendered
      modifies this`captchaToken, this`captchaPassed
      ensures Valid() && captchaToken == Some(token) && captchaPassed
    {
      captchaToken := Some(token);
      captchaPassed := true;
    }

    /** The captcha's expiry callback: the token is dropped and the captcha must be solved again. */
    method CaptchaExpired()
      requires captchaRendered
      modifies this`captchaToken, this`captchaPassed
      ensures Valid() && captchaToken.None? && !captchaPassed
    {
      captchaToken := None;
      captchaPassed := false;
    }

    /** `onCaptchaSuccess`: the same as the success callback. */
    method OnCaptchaSuccess(token: string)
      modifies this`captchaToken, this`captchaPassed
      ensures Valid() && captchaToken == Some(token) && captchaPassed
    {
      captchaPassed := true;
      captchaToken := Some(token);
    }

    /** `onSubmit`: nothing at all happens until the captcha is passed. */
    method OnSubmit()
      requires Valid()
      modifies this`touched, this`sending, this`pending
      ensures Valid()
      ensures !captchaPassed ==> unchanged(this)
      ensures captchaPassed ==> Sent(old(touched), old(sending), old(pending))
    {
      if !captchaPassed {
        return;
      }
      SendMessage();
    }

    /** The state `sendMessage` leaves, given the one it started from. */
    ghost predicate Sent(touchedBefore: bool, sendingBefore: bool, pendingBefore: seq<Timeout<Job>>)
      reads this
    {
      if Invalid() then touched && sending == sendingBefore && pending == pendingBefore
      else sending && touched == touchedBefore && pending == pendingBefore + [Timeout(1800, Delivered)]
    }

    /**
     * `sendMessage`: an invalid form only gets its errors shown; a valid
     * one starts sending, and the simulated delivery is due in 1800 ms.
     */
    method SendMessage()
      modifies this`touched, this`sending, this`pending
      ensures Sent(old(touched), old(sending), old(pending))
    {
      if Invalid() {
        touched := true;
        return;
      }
      sending := true;
      pending := pending + [Timeout(1800, Delivered)];
    }

    /**
     * The k-th timer runs out. Delivery ends sending, shows the
     * confirmation, clears and un-touches the form, and hides the
     * confirmation 3500 ms later; hiding it just hides it.
     */
    method FireTimer(k: nat)
      requires k < |pending|
      modifies this`sending, this`sent, this`name, this`email, this`message, this`touched, this`pending
      ensures var rest := old(pending[..k] + pending[k + 1..]);
              match old(pending[k].job)
              case Delivered =>
                !sending && sent && name == "" && email == "" && message == "" && !touched
                && pending == rest + [Timeout(3500, HideSent)]
              case HideSent =>
                !sent && pending == rest && sending == old(sending)
                && name == old(name) && email == old(email) && message == old(message) && touched == old(touched)
    {
      var job := pending[k].job;
      pending := pending[..k] + pending[k + 1..];
      match job
      case Delivered =>
        sending := false;
        sent := true;
        name, email, message, touched := "", "", "", false;
        pending := pending + [Timeout(3500, HideSent)];
      case HideSent =>
        sent := false;
    }
  }

  /**
   * With the captcha script loaded, the component as written throws in
   * `ngAfterViewInit` and never registers the captcha callbacks, so
   * `captchaPassed` can only become true through `onCaptchaSuccess`.
   */
  method ScriptLoadedAsWritten(isEmail: string -> bool) returns (c: ContactMeComponent, outcome: Outcome)
    ensures outcome == ThrewTypeError
    ensures !c.captchaRendered && !c.captchaPassed
  {
    c := new ContactMeComponent(isEmail);
    outcome := c.AfterViewInit(true);
  }

  /** With the captcha script loaded, the intended `ngAfterViewInit` registers the callbacks. */
  method ScriptLoadedCorrected(isEmail: string -> bool) returns (c: ContactMeComponent)
    ensures c.captchaRendered && !c.captchaPassed
  {
    c := new ContactMeComponent(isEmail);
    c.RenderCaptcha(true);
  }
}
