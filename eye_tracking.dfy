/**
 * The eye-tracking mascot: a pair of eyes with a mood. Moving the mouse
 * wakes it, five seconds without movement put it to sleep, and a double
 * click makes the right eye wink in a few moods. Each mood has one look,
 * `VisualFor`, that is applied to every eye whenever the mood is set.
 */
module EyeTracking {
  import opened Wrappers

  const InactivityMs: int := 5000
  const WinkDurationMs: int := 600
  const Closed: string := "0%"
  const Open: string := "-100%"

  datatype EyeState = Normal | Feliz | Triste | Enojado | Dormido | Sorprendido | Amor

  /** What `aplicarEstadoVisual` leaves on one eye. */
  datatype Visual = Visual(eyeClass: string, pupilClass: string, tearOpacity: int, heartOpacity: int, eyelidTop: string)

  /** The CSS suffix shared by a mood's `eye-*` and `pupil-*` classes. */
  function Suffix(s: EyeState): string
  {
    match s
    case Feliz => "happy"
    case Triste => "sad"
    case Enojado => "angry"
    case Dormido => "sleep"
    case Sorprendido => "surprised"
    case Amor => "love"
    case Normal => "normal"
  }

  /**
   * The look of one eye in mood `s`: one `eye-*` class and one `pupil-*`
   * class with the same suffix; a tear only when sad, a heart only when in
   * love, and the eyelid down only when asleep.
   */
  function VisualFor(s: EyeState): (v: Visual)
    ensures v.eyeClass == "eye-" + Suffix(s) && v.pupilClass == "pupil-" + Suffix(s)
    ensures v.tearOpacity == 1 <==> s == Triste
    ensures v.heartOpacity == 1 <==> s == Amor
    ensures v.tearOpacity in {0, 1} && v.heartOpacity in {0, 1}
    ensures v.eyelidTop == Closed <==> s == Dormido
    ensures v.eyelidTop in {Closed, Open}
  {
    var tear := if s == Triste then 1 else 0;
    var heart := if s == Amor then 1 else 0;
    var lid := if s == Dormido then Closed else Open;
    Visual("eye-" + Suffix(s), "pupil-" + Suffix(s), tear, heart, lid)
  }

  /** Reads a mood back from an eye's class, if it is one of the seven. */
  function StateOfEyeClass(c: string): (r: Option<EyeState>)
    ensures r.Some? ==> VisualFor(r.value).eyeClass == c
  {
    if c == "eye-happy" then Some(Feliz)
    else if c == "eye-sad" then Some(Triste)
    else if c == "eye-angry" then Some(Enojado)
    else if c == "eye-sleep" then Some(Dormido)
    else if c == "eye-surprised" then Some(Sorprendido)
    else if c == "eye-love" then Some(Amor)
    else if c == "eye-normal" then Some(Normal)
    else None
  }

  /** The eye class determines the mood: no two moods look alike. */
  lemma EyeClassDeterminesState(s: EyeState)
    ensures StateOfEyeClass(VisualFor(s).eyeClass) == Some(s)
  {
    match s
    case Feliz => assert VisualFor(s).eyeClass == "eye-happy";
    case Triste => assert VisualFor(s).eyeClass == "eye-sad";
    case Enojado => assert VisualFor(s).eyeClass == "eye-angry";
    case Dormido => assert VisualFor(s).eyeClass == "eye-sleep";
    case Sorprendido => assert VisualFor(s).eyeClass == "eye-surprised";
    case Amor => assert VisualFor(s).eyeClass == "eye-love";
    case Normal => assert VisualFor(s).eyeClass == "eye-normal";
  }

  /** Two moods with the same look are the same mood. */
  lemma VisualForInjective(s: EyeState, t: EyeState)
    ensures VisualFor(s) == VisualFor(t) ==> s == t
  {
    EyeClassDeterminesState(s);
    EyeClassDeterminesState(t);
  }

  /** The moods in which a double click winks. */
  predicate MayWink(s: EyeState)
  {
    s == Amor || s == Normal || s == Sorprendido
  }

  class EyeTrackingComponent {
    var estado: EyeState
    /** The look applied to the eyes, once a mood has been set. */
    var visual: Option<Visual>
    /** The `top` of the right eye's eyelid, which a wink also moves. */
    var rightEyelidTop: string
    /** The single `inactivityTimeout` is pending. */
    var inactivityTimer: bool
    /** The right eye carries `eyelid-wink` and `pupil-wink`. */
    var winking: bool
    /** Un-wink timers not yet run out. */
    var pendingUnwinks: nat
    var listening: bool

    ghost predicate Valid()
      reads this
    {
      && (visual.Some? ==> visual.value == VisualFor(estado))
      && (winking ==> pendingUnwinks > 0)
    }

    constructor ()
      ensures Valid()
      ensures estado == Normal && visual.None? && !inactivityTimer && !winking && pendingUnwinks == 0 && !listening
    {
      estado, visual, rightEyelidTop := Normal, None, "";
      inactivityTimer, winking, pendingUnwinks, listening := false, false, 0, false;
    }

    /** The `estado` setter: record the mood and restyle every eye. */
    method SetEstado(nuevo: EyeState)
      requires Valid()
      modifies this`estado, this`visual, this`rightEyelidTop
      ensures Valid()
      ensures estado == nuevo && visual == Some(VisualFor(nuevo))
      ensures rightEyelidTop == VisualFor(nuevo).eyelidTop
    {
      estado := nuevo;
      var v := VisualFor(nuevo);
      visual := Some(v);
      rightEyelidTop := v.eyelidTop;
    }

    /** `setInactivityTimer`: drop the pending timer, if any, and arm a new one. */
    method SetInactivityTimer()
      modifies this`inactivityTimer
      ensures inactivityTimer
    {
      inactivityTimer := true;
    }

    /** `ngAfterViewInit`: listen to the mouse, look happy and start the inactivity timer. */
    method AfterViewInit()
      requires Valid()
      modifies this`listening, this`estado, this`visual, this`rightEyelidTop, this`inactivityTimer
      ensures Valid()
      ensures listening && estado == Feliz && visual == Some(VisualFor(Feliz)) && inactivityTimer
      ensures rightEyelidTop == VisualFor(Feliz).eyelidTop
      ensures winking == old(winking) && pendingUnwinks == old(pendingUnwinks)
    {
      listening := true;
      SetEstado(Feliz);
      SetInactivityTimer();
    }

    /** `ngOnDestroy`: stop listening and cancel the inactivity timer. */
    method OnDestroy()
      modifies this`listening, this`inactivityTimer
      ensures !listening && !inactivityTimer
    {
      listening := false;
      inactivityTimer := false;
    }

    /**
     * The mood part of `handleMouseMove`: a sleeping mascot wakes up to
     * `normal`, any other mood stays, and the inactivity timer restarts.
     */
    method HandleMouseMove()
      requires Valid()
      modifies this`estado, this`visual, this`rightEyelidTop, this`inactivityTimer
      ensures Valid()
      ensures estado == (if old(estado) == Dormido then Normal else old(estado))
      ensures old(estado) == Dormido ==> visual == Some(VisualFor(Normal)) && rightEyelidTop == Open
      ensures old(estado) != Dormido ==> visual == old(visual) && rightEyelidTop == old(rightEyelidTop)
      ensures inactivityTimer
    {
      if estado == Dormido {
        SetEstado(Normal);
      }
      SetInactivityTimer();
    }

    /** The inactivity timer runs out: the mascot falls asleep. */
    method FireInactivity()
      requires Valid() && inactivityTimer
      modifies this`estado, this`visual, this`rightEyelidTop, this`inactivityTimer
      ensures Valid()
      ensures estado == Dormido && visual == Some(VisualFor(Dormido)) && rightEyelidTop == Closed
      ensures !inactivityTimer
    {
      inactivityTimer := false;
      SetEstado(Dormido);
    }

    /**
     * `handleDblClickAnywhere`: outside the moods that may wink, or without
     * a right eye group, nothing happens; otherwise the right eye closes
     * with the wink classes and opens again 600 ms later.
     */
    method HandleDblClick(rightGroupPresent: bool)
      requires Valid()
      modifies this`winking, this`rightEyelidTop, this`pendingUnwinks
      ensures Valid()
      ensures MayWink(estado) && rightGroupPresent ==>
                winking && rightEyelidTop == Closed && pendingUnwinks == old(pendingUnwinks) + 1
      ensures !(MayWink(estado) && rightGroupPresent) ==> unchanged(this)
    {
      if !MayWink(estado) || !rightGroupPresent {
        return;
      }
      winking := true;
      rightEyelidTop := Closed;
      pendingUnwinks := pendingUnwinks + 1;
    }

    /** An un-wink timer runs out: the wink classes go and the right eyelid opens, whatever the mood. */
    method FireUnwink()
      requires Valid() && pendingUnwinks > 0
      modifies this`winking, this`rightEyelidTop, this`pendingUnwinks
      ensures Valid()
      ensures !winking && rightEyelidTop == Open && pendingUnwinks == old(pendingUnwinks) - 1
    {
      winking := false;
      rightEyelidTop := Open;
      pendingUnwinks := pendingUnwinks - 1;
    }
  }
}
