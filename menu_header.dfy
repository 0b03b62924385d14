/**
 * The menu header: the lamp switch (which publishes turn-on/turn-off events
 * for the reflector bulb), the game-mode switch (which publishes to the
 * snake service), and the mobile menu with its `no-scroll` body class and
 * its document `mousedown` listener that closes the menu on an outside
 * click.
 *
 * The window width is a parameter of the handlers that consult `isMobile`.
 * Published events are appended to `bulbEvents` and `snakeEvents`. The
 * `setTimeout(…, 0)` of `toggleMenu` is counted in `pendingListenerAdds`.
 */
module MenuHeader {
  import opened Browser

  const MobileBreakpoint: int := 992
  const NoScroll: string := "no-scroll"

  /** An event published on the reflector-bulb channel. */
  datatype BulbEvent = BulbEvent(action: string, message: string)

  /** An event published on the snake-game channel. */
  datatype SnakeEvent = SnakeEvent(action: string, message: string, endGame: bool)

  /** `isMobile`. */
  predicate IsMobile(innerWidth: int)
  {
    innerWidth < MobileBreakpoint
  }

  /** Where a `mousedown` landed, and whether the menu element is rendered. */
  datatype Click = Click(menuRendered: bool, insideMenu: bool, insideToggler: bool)

  class MenuHeaderComponent {
    const router: Router
    var lampTurnOn: bool
    var modePlaySnake: bool
    var showMenu: bool
    /** The classes of `document.body`. */
    var bodyClasses: set<string>
    /** `documentClickListener` is set. */
    var clickListener: bool
    /** How many `mousedown` listeners of this component the document holds. */
    var registeredListeners: nat
    var pendingListenerAdds: nat
    var bulbEvents: seq<BulbEvent>
    var snakeEvents: seq<SnakeEvent>

    /** The document holds the component's listener exactly when the field refers to it. */
    ghost predicate Valid()
      reads this
    {
      registeredListeners == (if clickListener then 1 else 0)
    }

    constructor (router: Router, bodyClasses: set<string>)
      ensures Valid()
      ensures this.router == router && this.bodyClasses == bodyClasses
      ensures !lampTurnOn && modePlaySnake && !showMenu && !clickListener && pendingListenerAdds == 0
      ensures bulbEvents == [] && snakeEvents == []
    {
      this.router := router;
      this.bodyClasses := bodyClasses;
      lampTurnOn, modePlaySnake, showMenu := false, true, false;
      clickListener, registeredListeners, pendingListenerAdds := false, 0, 0;
      bulbEvents, snakeEvents := [], [];
    }

    /** `onClickLight`: toggle the lamp, announcing `turnOn` when it was off and `turnOff` when it was on. */
    method OnClickLight()
      modifies this`lampTurnOn, this`bulbEvents
      ensures lampTurnOn == !old(lampTurnOn)
      ensures |bulbEvents| == |old(bulbEvents)| + 1 && bulbEvents[..|old(bulbEvents)|] == old(bulbEvents)
      ensures bulbEvents[|bulbEvents| - 1].action == (if old(lampTurnOn) then "turnOff" else "turnOn")
    {
      if lampTurnOn {
        bulbEvents := bulbEvents + [BulbEvent("turnOff", "Reflector bulb turned off")];
        lampTurnOn := false;
      } else {
        bulbEvents := bulbEvents + [BulbEvent("turnOn", "Reflector bulb turned on")];
        lampTurnOn := true;
      }
    }

    /**
     * `activeModeGame(turnOn)`: entering game mode announces `activeModeGame`
     * (not an end of game) and clears `modePlaySnake`; anything else leaves
     * game mode and sets it.
     */
    method ActiveModeGame(turnOn: bool)
      modifies this`modePlaySnake, this`snakeEvents
      ensures modePlaySnake == !turnOn
      ensures turnOn ==> snakeEvents == old(snakeEvents) + [SnakeEvent("activeModeGame", "Active mode game", false)]
      ensures !turnOn ==> snakeEvents == old(snakeEvents) + [SnakeEvent("leaveModeGame", "Leave mode game", true)]
    {
      if turnOn {
        snakeEvents := snakeEvents + [SnakeEvent("activeModeGame", "Active mode game", false)];
        modePlaySnake := false;
      } else {
        LeaveModeGame();
        modePlaySnake := true;
      }
    }

    /** `leaveModeGame`: announce the end of the game. */
    method LeaveModeGame()
      modifies this`snakeEvents
      ensures snakeEvents == old(snakeEvents) + [SnakeEvent("leaveModeGame", "Leave mode game", true)]
    {
      snakeEvents := snakeEvents + [SnakeEvent("leaveModeGame", "Leave mode game", true)];
    }

    /** `onResize` (also run by `ngOnInit`): the menu shows on wide screens only; scrolling is re-enabled. */
    method OnResize(innerWidth: int)
      modifies this`showMenu, this`bodyClasses
      ensures showMenu == !IsMobile(innerWidth)
      ensures bodyClasses == old(bodyClasses) - {NoScroll}
    {
      if !IsMobile(innerWidth) {
        showMenu := true;
        bodyClasses := bodyClasses - {NoScroll};
      } else {
        showMenu := false;
        bodyClasses := bodyClasses - {NoScroll};
      }
    }

    /**
     * `toggleMenu`: open or close the menu. An open menu on a phone blocks
     * page scrolling and, on the next tick, listens for outside clicks;
     * otherwise scrolling is allowed and the listener is removed.
     */
    method ToggleMenu(innerWidth: int)
      requires Valid()
      modifies this`showMenu, this`bodyClasses, this`clickListener, this`registeredListeners,
               this`pendingListenerAdds
      ensures Valid()
      ensures showMenu == !old(showMenu)
      ensures NoScroll in bodyClasses <==> showMenu && IsMobile(innerWidth)
      ensures bodyClasses - {NoScroll} == old(bodyClasses) - {NoScroll}
      ensures showMenu && IsMobile(innerWidth) ==>
                pendingListenerAdds == old(pendingListenerAdds) + 1 && clickListener == old(clickListener)
      ensures !(showMenu && IsMobile(innerWidth)) ==>
                pendingListenerAdds == old(pendingListenerAdds) && !clickListener
    {
      showMenu := !showMenu;
      if showMenu && IsMobile(innerWidth) {
        bodyClasses := bodyClasses + {NoScroll};
        pendingListenerAdds := pendingListenerAdds + 1;
      } else {
        bodyClasses := bodyClasses - {NoScroll};
        RemoveDocumentListeners();
      }
    }

    /** `hideMenu`: close the menu, allow scrolling, stop listening. */
    method HideMenu()
      requires Valid()
      modifies this`showMenu, this`bodyClasses, this`clickListener, this`registeredListeners
      ensures Valid()
      ensures !showMenu && !clickListener && registeredListeners == 0
      ensures bodyClasses == old(bodyClasses) - {NoScroll}
    {
      showMenu := false;
      bodyClasses := bodyClasses - {NoScroll};
      RemoveDocumentListeners();
    }

    /** The zero-delay timer of `toggleMenu` runs: `addDocumentListeners`. */
    method FireListenerAdd()
      requires Valid() && pendingListenerAdds > 0
      modifies this`clickListener, this`registeredListeners, this`pendingListenerAdds
      ensures Valid()
      ensures clickListener && registeredListeners == 1
      ensures pendingListenerAdds == old(pendingListenerAdds) - 1
    {
      pendingListenerAdds := pendingListenerAdds - 1;
      AddDocumentListeners();
    }

    /** `addDocumentListeners`: register the outside-click listener unless it already is. */
    method AddDocumentListeners()
      requires Valid()
      modifies this`clickListener, this`registeredListeners
      ensures Valid()
      ensures clickListener && registeredListeners == 1
    {
      if !clickListener {
        clickListener := true;
        registeredListeners := registeredListeners + 1;
      }
    }

    /** `removeDocumentListeners` (also run by `ngOnDestroy`). */
    method RemoveDocumentListeners()
      requires Valid()
      modifies this`clickListener, this`registeredListeners
      ensures Valid()
      ensures !clickListener && registeredListeners == 0
    {
      if clickListener {
        registeredListeners := registeredListeners - 1;
        clickListener := false;
      }
    }

    /** Whether the outside-click listener closes the menu for this click. */
    predicate ClosesMenu(innerWidth: int, click: Click)
      reads this
    {
      showMenu && IsMobile(innerWidth) && click.menuRendered && !click.insideMenu && !click.insideToggler
    }

    /**
     * A `mousedown` reaches the document: if the listener is registered, it
     * hides the menu when the menu is open on a phone and the click is
     * outside both the menu and its toggler.
     */
    method OnDocumentMouseDown(innerWidth: int, click: Click)
      requires Valid()
      modifies this`showMenu, this`bodyClasses, this`clickListener, this`registeredListeners
      ensures Valid()
      ensures old(clickListener && ClosesMenu(innerWidth, click)) ==>
                !showMenu && !clickListener && bodyClasses == old(bodyClasses) - {NoScroll}
      ensures !old(clickListener && ClosesMenu(innerWidth, click)) ==>
                showMenu == old(showMenu) && clickListener == old(clickListener)
                && bodyClasses == old(bodyClasses)
    {
      if clickListener && ClosesMenu(innerWidth, click) {
        HideMenu();
      }
    }

    /** `isActiveRoute`: the router's current URL is exactly `route`. */
    predicate IsActiveRoute(route: string)
      reads this, router
    {
      router.url == route
    }
  }
}
