/**
 * The reflector bulb: a lamp that drops in, swings and glows when switched
 * on, and goes dark and vibrates when switched off. It reacts to the events
 * published by the menu header's lamp switch.
 *
 * Its `setTimeout`s are never cancelled, so they are the `pending` list;
 * `FireTimer(k)` runs the k-th of them.
 */
module ReflectorBulb {
  import opened Wrappers
  import opened Browser
  import MenuHeader

  const LampInit: string := "lamp-init"
  const LampDropped: string := "lamp "
  const LampSwinging: string := "lamp swinging "
  const LampOff: string := "lamp-off"

  /** What a timer does when it runs out. */
  datatype Job =
    | Drop           // 10 ms after turn-on
    | Swing          // 1000 ms after the drop
    | Extinguish     // 1100 ms after turn-off
    | StopVibrating  // 800 ms after the drop animation ends

  /** A missing event makes the subscriber throw. */
  datatype Outcome = Handled | Thrown(message: string)

  class ReflectorBulbComponent {
    var showLamp: bool
    var lampClass: string
    var turnOnLamp: bool
    var flickerStage: int
    var finalGlow: bool
    var swinging: bool
    var vibrate: bool
    var pending: seq<Timeout<Job>>

    constructor ()
      ensures !showLamp && lampClass == LampInit && !turnOnLamp && flickerStage == 0
      ensures !finalGlow && !swinging && !vibrate && pending == []
    {
      showLamp, lampClass, turnOnLamp := false, LampInit, false;
      flickerStage, finalGlow, swinging, vibrate := 0, false, false, false;
      pending := [];
    }

    /**
     * The subscriber set up by `validateReflectorBulb`: a missing event is an
     * error, `turnOn` and `turnOff` start their animations, and any other
     * action is ignored.
     */
    method OnBulbEvent(event: Option<MenuHeader.BulbEvent>) returns (outcome: Outcome)
      modifies this`showLamp, this`lampClass, this`vibrate, this`turnOnLamp
      modifies this`flickerStage, this`finalGlow, this`swinging, this`pending
      ensures event.None? ==> outcome == Thrown("Reflector bulb is not defined") && unchanged(this)
      ensures event.Some? ==> outcome == Handled
      ensures event.Some? && event.value.action == "turnOn" ==>
                TurnedOn(old(pending))
                && flickerStage == old(flickerStage) && finalGlow == old(finalGlow) && swinging == old(swinging)
      ensures event.Some? && event.value.action == "turnOff" ==>
                TurnedOff(old(pending)) && showLamp == old(showLamp) && vibrate == old(vibrate)
      ensures event.Some? && event.value.action != "turnOn" && event.value.action != "turnOff" ==>
                unchanged(this)
    {
      if event.None? {
        return Thrown("Reflector bulb is not defined");
      }
      outcome := Handled;
      if event.value.action == "turnOn" {
        AnimateLampOn();
      } else if event.value.action == "turnOff" {
        AnimateLampOff();
      }
    }

    /** The state right after `animateLampOn`, given the timers pending before it. */
    ghost predicate TurnedOn(before: seq<Timeout<Job>>)
      reads this
    {
      showLamp && lampClass == LampInit && !vibrate && turnOnLamp
      && pending == before + [Timeout(10, Drop)]
    }

    /** The state right after `animateLampOff`, given the timers pending before it. */
    ghost predicate TurnedOff(before: seq<Timeout<Job>>)
      reads this
    {
      lampClass == LampOff && !turnOnLamp && flickerStage == 0 && !finalGlow && !swinging
      && pending == before + [Timeout(1100, Extinguish)]
    }

    /** `animateLampOn`: show the lamp, lit and still; it drops 10 ms later. */
    method AnimateLampOn()
      modifies this`showLamp, this`lampClass, this`vibrate, this`turnOnLamp, this`pending
      ensures TurnedOn(old(pending))
    {
      showLamp := true;
      lampClass := LampInit;
      vibrate := false;
      turnOnLamp := true;
      pending := pending + [Timeout(10, Drop)];
    }

    /** `animateLampOff`: go dark at once; 1100 ms later hide the lamp and let it vibrate. */
    method AnimateLampOff()
      modifies this`lampClass, this`turnOnLamp, this`flickerStage, this`finalGlow, this`swinging, this`pending
      ensures TurnedOff(old(pending))
    {
      lampClass := LampOff;
      turnOnLamp := false;
      flickerStage := 0;
      finalGlow := false;
      swinging := false;
      pending := pending + [Timeout(1100, Extinguish)];
    }

    /**
     * `onLampAnimationEnd`: only the end of `dropLamp` makes the lamp
     * vibrate, and 800 ms later it stops vibrating and lights up.
     */
    method OnLampAnimationEnd(animationName: string, webkitAnimationName: string)
      modifies this`vibrate, this`pending
      ensures var name := if animationName != "" then animationName else webkitAnimationName;
              if name == "dropLamp" then vibrate && pending == old(pending) + [Timeout(800, StopVibrating)]
              else vibrate == old(vibrate) && pending == old(pending)
    {
      var name := if animationName != "" then animationName else webkitAnimationName;
      if name == "dropLamp" {
        vibrate := true;
        pending := pending + [Timeout(800, StopVibrating)];
      }
    }

    /**
     * The k-th timer runs out: the drop gives the `lamp ` class and arms the
     * swing; the swing gives `lamp swinging `; the end of turn-off hides the
     * lamp, starts it vibrating and resets its class, whatever happened
     * since; the end of the vibration lights the lamp.
     */
    method FireTimer(k: nat)
      requires k < |pending|
      modifies this`lampClass, this`showLamp, this`vibrate, this`turnOnLamp, this`pending
      ensures var rest := old(pending[..k] + pending[k + 1..]);
              match old(pending[k].job)
              case Drop =>
                lampClass == LampDropped && pending == rest + [Timeout(1000, Swing)]
                && showLamp == old(showLamp) && vibrate == old(vibrate) && turnOnLamp == old(turnOnLamp)
              case Swing =>
                lampClass == LampSwinging && pending == rest
                && showLamp == old(showLamp) && vibrate == old(vibrate) && turnOnLamp == old(turnOnLamp)
              case Extinguish =>
                !showLamp && vibrate && lampClass == LampInit && pending == rest && turnOnLamp == old(turnOnLamp)
              case StopVibrating =>
                !vibrate && turnOnLamp && pending == rest
                && showLamp == old(showLamp) && lampClass == old(lampClass)
    {
      var job := pending[k].job;
      pending := pending[..k] + pending[k + 1..];
      match job
      case Drop =>
        lampClass := LampDropped;
        pending := pending + [Timeout(1000, Swing)];
      case Swing =>
        lampClass := LampSwinging;
      case Extinguish =>
        showLamp := false;
        vibrate := true;
        lampClass := LampInit;
      case StopVibrating =>
        vibrate := false;
        turnOnLamp := true;
    }

    /**
     * Turning the lamp on does not cancel the delayed step of an earlier
     * turn-off: when that timer runs out after a turn-on, the lamp is hidden
     * again.
     */
    method OffThenOnStillHides()
      modifies this
      ensures !showLamp && vibrate && lampClass == LampInit
    {
      AnimateLampOff();
      var k := |pending| - 1;
      AnimateLampOn();
      assert pending[k].job == Extinguish;
      FireTimer(k);
    }
  }
}
