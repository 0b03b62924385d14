/**
 * The footer: a rotating quote typed out and faded in and out, the
 * "back to top" button, the reveal flag, the online indicator and the
 * waving mascot.
 *
 * The speech-bubble timer, whose handle the component keeps and clears, is
 * the `speechTimer` field. The other `setTimeout`s are never cancelled
 * while the component lives; they are the `pending` list, and
 * `FireTimer(k)` runs the k-th of them.
 */
module Footer {
  import opened Wrappers
  import opened Browser
  import Cyclic

  const ScrollTopThreshold: int := 300
  const RevealMargin: int := 80
  const TypingBaseMs: int := 2200
  const TypingPerCharMs: int := 45
  const FadeOutMs: int := 450
  const RestartMs: int := 50
  const RecheckScrollMs: int := 120
  const SpeechMs: int := 1500

  /** The quotes, in rotation order. */
  const Quotes: seq<string> := [
    "Transformando ideas en software, cada línea cuenta.",
    "La perseverancia es el motor del éxito.",
    "El código es poesía en movimiento.",
    "Hazlo simple, pero significativo.",
    "La tecnología es el arte de lo posible."
  ]

  datatype Fade = FadeIn | FadeOut

  /** What a fire-and-forget timer does when it runs out. */
  datatype Job =
    | EndTyping      // the typing phase is over: fade out
    | ShowNextQuote  // the fade-out is over: `nextQuote`
    | RestartTyping  // `nextQuote`'s short pause is over: type the new quote
    | RecheckScroll  // `ngAfterViewInit`'s delayed `onWindowScroll`

  /** The page as `onWindowScroll` sees it. */
  datatype Viewport = Viewport(scrollY: int, footerTop: Option<int>, innerHeight: int)

  /** The footer's top is 80 pixels inside the window, so the footer is revealed. */
  predicate Reveals(view: Viewport)
  {
    view.footerTop.Some? && view.footerTop.value < view.innerHeight - RevealMargin
  }

  /** How long the typing phase of a quote of `steps` characters lasts. */
  function TypingDelay(steps: int): int
  {
    TypingBaseMs + TypingPerCharMs * steps
  }

  class FooterComponent {
    const currentYear: int
    var isOnline: bool
    var showScrollTop: bool
    var revealed: bool
    var typingClass: bool
    var currentQuoteIdx: int
    var currentQuote: string
    var typingSteps: int
    var fadeClass: Fade
    var isWaving: bool
    var showMascotSpeech: bool
    var speechTimer: bool
    var pending: seq<Timeout<Job>>

    /**
     * The quote shown is the one the index designates and the typing
     * animation has one step per character; `revealed` never goes back to
     * false; a pending speech timer means the bubble is showing.
     */
    ghost predicate Valid()
      reads this
    {
      && 0 <= currentQuoteIdx < |Quotes|
      && currentQuote == Quotes[currentQuoteIdx]
      && typingSteps == |currentQuote|
      && revealed
      && (speechTimer ==> showMascotSpeech)
    }

    /** The component's field initialisers; `year` is `new Date().getFullYear()`. */
    constructor (year: int)
      ensures Valid()
      ensures currentYear == year && isOnline && !showScrollTop && typingClass
      ensures currentQuoteIdx == 2 && fadeClass == FadeIn
      ensures !isWaving && !showMascotSpeech && !speechTimer && pending == []
    {
      currentYear := year;
      isOnline, showScrollTop, revealed, typingClass := true, false, true, true;
      currentQuoteIdx := 2;
      currentQuote := Quotes[2];
      typingSteps := |Quotes[2]|;
      fadeClass := FadeIn;
      isWaving, showMascotSpeech, speechTimer := false, false, false;
      pending := [];
    }

    /** `ngOnInit`: read `navigator.onLine` and run `onWindowScroll` once. */
    method OnInit(online: bool, view: Viewport)
      requires Valid()
      modifies this`isOnline, this`showScrollTop, this`revealed
      ensures Valid()
      ensures isOnline == online && showScrollTop == (view.scrollY > ScrollTopThreshold)
    {
      isOnline := online;
      OnWindowScroll(view);
    }

    /** `ngAfterViewInit`: schedule a second scroll check and start typing the first quote. */
    method AfterViewInit()
      requires Valid()
      modifies this`pending, this`typingSteps, this`typingClass
      ensures Valid()
      ensures typingClass
      ensures pending == old(pending) + [Timeout(RecheckScrollMs, RecheckScroll), Timeout(TypingDelay(typingSteps), EndTyping)]
    {
      pending := pending + [Timeout(RecheckScrollMs, RecheckScroll)];
      StartTypingCycle();
    }

    /**
     * `onWindowScroll`: the "back to top" button shows past 300 pixels; the
     * footer is revealed once its top is 80 pixels inside the window, and
     * is never hidden again.
     */
    method OnWindowScroll(view: Viewport)
      requires Valid()
      modifies this`showScrollTop, this`revealed
      ensures Valid()
      ensures showScrollTop == (view.scrollY > ScrollTopThreshold)
      ensures revealed == (old(revealed) || Reveals(view))
    {
      showScrollTop := view.scrollY > ScrollTopThreshold;
      if view.footerTop.Some? {
        if view.footerTop.value < view.innerHeight - RevealMargin {
          revealed := true;
        }
      }
    }

    /** `handleOnline`. */
    method HandleOnline()
      modifies this`isOnline
      ensures isOnline
    {
      isOnline := true;
    }

    /** `handleOffline`. */
    method HandleOffline()
      modifies this`isOnline
      ensures !isOnline
    {
      isOnline := false;
    }

    /** `startTypingCycle`: type the current quote, then fade out after `2200 + 45 × steps` ms. */
    method StartTypingCycle()
      requires Valid()
      modifies this`typingSteps, this`typingClass, this`pending
      ensures Valid()
      ensures typingSteps == |currentQuote| && typingClass
      ensures pending == old(pending) + [Timeout(TypingDelay(typingSteps), EndTyping)]
    {
      typingSteps := |currentQuote|;
      typingClass := true;
      pending := pending + [Timeout(TypingDelay(typingSteps), EndTyping)];
    }

    /** `nextQuote`: move cyclically to the following quote, fade in, and restart typing 50 ms later. */
    method NextQuote()
      requires Valid()
      modifies this`currentQuoteIdx, this`currentQuote, this`typingSteps, this`fadeClass, this`pending
      ensures Valid()
      ensures currentQuoteIdx == Cyclic.Next(old(currentQuoteIdx), |Quotes|)
      ensures typingSteps == |currentQuote| && fadeClass == FadeIn
      ensures pending == old(pending) + [Timeout(RestartMs, RestartTyping)]
    {
      currentQuoteIdx := Cyclic.Next(currentQuoteIdx, |Quotes|);
      currentQuote := Quotes[currentQuoteIdx];
      typingSteps := |currentQuote|;
      fadeClass := FadeIn;
      pending := pending + [Timeout(RestartMs, RestartTyping)];
    }

    /** The k-th fire-and-forget timer runs out and its job runs. */
    method FireTimer(k: nat, view: Viewport)
      requires Valid() && k < |pending|
      modifies this`fadeClass, this`typingClass, this`pending, this`currentQuoteIdx, this`currentQuote,
               this`typingSteps, this`showScrollTop, this`revealed
      ensures Valid()
      ensures var rest := old(pending[..k] + pending[k + 1..]);
              match old(pending[k].job)
              case EndTyping =>
                fadeClass == FadeOut && !typingClass && pending == rest + [Timeout(FadeOutMs, ShowNextQuote)]
                && currentQuoteIdx == old(currentQuoteIdx)
                && showScrollTop == old(showScrollTop) && revealed == old(revealed)
              case ShowNextQuote =>
                currentQuoteIdx == Cyclic.Next(old(currentQuoteIdx), |Quotes|) && fadeClass == FadeIn
                && pending == rest + [Timeout(RestartMs, RestartTyping)]
                && typingClass == old(typingClass)
                && showScrollTop == old(showScrollTop) && revealed == old(revealed)
              case RestartTyping =>
                typingClass && pending == rest + [Timeout(TypingDelay(typingSteps), EndTyping)]
                && currentQuoteIdx == old(currentQuoteIdx) && fadeClass == old(fadeClass)
                && showScrollTop == old(showScrollTop) && revealed == old(revealed)
              case RecheckScroll =>
                showScrollTop == (view.scrollY > ScrollTopThreshold) && pending == rest
                && revealed == (old(revealed) || Reveals(view))
                && currentQuoteIdx == old(currentQuoteIdx)
                && fadeClass == old(fadeClass) && typingClass == old(typingClass)
    {
      var job := pending[k].job;
      pending := pending[..k] + pending[k + 1..];
      match job
      case EndTyping =>
        fadeClass := FadeOut;
        typingClass := false;
        pending := pending + [Timeout(FadeOutMs, ShowNextQuote)];
      case ShowNextQuote =>
        NextQuote();
      case RestartTyping =>
        typingClass := true;
        StartTypingCycle();
      case RecheckScroll =>
        OnWindowScroll(view);
    }

    /** `waveMascot`: wave and show the speech bubble, replacing any pending hide with a fresh 1.5 s one. */
    method WaveMascot()
      requires Valid()
      modifies this`isWaving, this`showMascotSpeech, this`speechTimer
      ensures Valid()
      ensures isWaving && showMascotSpeech && speechTimer
    {
      isWaving := true;
      showMascotSpeech := true;
      speechTimer := true;
    }

    /** `stopWaveMascot`: stop waving; the bubble stays until its timer runs out. */
    method StopWaveMascot()
      modifies this`isWaving
      ensures !isWaving
    {
      isWaving := false;
    }

    /** The speech-bubble timer runs out. */
    method FireSpeechTimer()
      requires Valid() && speechTimer
      modifies this`showMascotSpeech, this`speechTimer
      ensures Valid()
      ensures !showMascotSpeech && !speechTimer
    {
      showMascotSpeech := false;
      speechTimer := false;
    }
  }

  /** `|Quotes|` calls of `nextQuote` bring the rotation back to the quote it started from. */
  lemma RotationIsCyclic(start: int)
    requires 0 <= start < |Quotes|
    ensures Cyclic.Advance(start, |Quotes|, |Quotes|) == start
  {
    Cyclic.FullTurnReturns(start, |Quotes|);
  }
}
