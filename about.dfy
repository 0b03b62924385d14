/**
 * The "about" page: the visitor's name typed out letter by letter behind
 * a blinking cursor, a years-of-experience counter that counts up to 5,
 * and a button that shows a ripple where it is clicked.
 *
 * The 55 ms pause after each letter, the 120 ms counter interval and the
 * 500 ms cursor interval are not waited for: each interval is a flag and a
 * method that runs one of its ticks.
 */
module AboutIt {
  const DefaultName: string := "Arlez Camilo Ceron Herrera"
  const TargetYears: int := 5

  /** A ripple on the button: its side and its offset inside the button. */
  datatype Ripple = Ripple(id: nat, size: real, left: real, top: real)

  /** The side of the ripple: the larger side of the button. */
  function RippleSize(width: real, height: real): (size: real)
    ensures size >= width && size >= height
    ensures size == width || size == height
  {
    if width >= height then width else height
  }

  class AboutItComponent {
    var name: string
    var displayedName: seq<char>
    var showCursor: bool
    var isTyping: bool
    var yearsExp: int
    /** The counter kept by the `ngOnInit` closure. */
    var current: int
    /** The years interval has been started and not yet cleared. */
    var yearsTimer: bool
    var cursorTimer: bool
    /** The ripples inside the button. */
    var ripples: seq<Ripple>
    var nextRippleId: nat

    ghost predicate Valid()
      reads this
    {
      && 0 <= current <= TargetYears
      && yearsExp == current
      && (yearsTimer ==> current < TargetYears)
      && (!cursorTimer ==> current == 0 && !yearsTimer)
      && (forall r :: r in ripples ==> r.id < nextRippleId)
    }

    constructor (name: string)
      ensures Valid()
      ensures this.name == name && displayedName == [] && showCursor && !isTyping
      ensures yearsExp == 0 && !yearsTimer && !cursorTimer && ripples == []
    {
      this.name := name;
      displayedName, showCursor, isTyping := [], true, false;
      yearsExp, current, yearsTimer, cursorTimer := 0, 0, false, false;
      ripples, nextRippleId := [], 0;
    }

    /**
     * `ngOnInit`: start counting years from 0, type the name, and start
     * blinking the cursor.
     */
    method OnInit()
      requires Valid() && !cursorTimer
      modifies this`current, this`yearsTimer, this`yearsExp, this`isTyping, this`displayedName, this`cursorTimer
      ensures Valid()
      ensures current == 0 && yearsExp == 0 && yearsTimer
      ensures displayedName == name && !isTyping && cursorTimer
    {
      current := 0;
      yearsTimer := true;
      TypeName();
      cursorTimer := true;
    }

    /**
     * One tick of the years interval: count one more year and show it;
     * at the fifth year the interval is cleared.
     */
    method TickYears()
      requires Valid() && yearsTimer
      modifies this`current, this`yearsExp, this`yearsTimer
      ensures Valid()
      ensures current == old(current) + 1 && yearsExp == current
      ensures yearsTimer <==> current < TargetYears
    {
      current := current + 1;
      yearsExp := current;
      if current == TargetYears {
        yearsTimer := false;
      }
    }

    /** One tick of the cursor interval: the cursor blinks. */
    method ToggleCursor()
      requires cursorTimer
      modifies this`showCursor
      ensures showCursor == !old(showCursor)
    {
      showCursor := !showCursor;
    }

    /**
     * `typeName`: start from nothing and append the name's characters one
     * by one, in order; typing is over once all are shown.
     */
    method TypeName()
      modifies this`isTyping, this`displayedName
      ensures displayedName == name && !isTyping
    {
      isTyping := true;
      displayedName := [];
      var i := 0;
      while i < |name|
        invariant 0 <= i <= |name|
        invariant displayedName == name[..i]
        invariant isTyping
      {
        displayedName := displayedName + [name[i]];
        i := i + 1;
      }
      isTyping := false;
    }

    /**
     * `createRipple`: the button's earlier ripples are removed and one new
     * ripple, as large as the button's larger side, is centred on the click.
     */
    method CreateRipple(width: real, height: real, clientX: real, clientY: real, rectLeft: real, rectTop: real)
      requires Valid()
      modifies this`ripples, this`nextRippleId
      ensures Valid()
      ensures |ripples| == 1
      ensures var r := ripples[0];
              r.size == RippleSize(width, height)
              && r.left + r.size / 2.0 == clientX - rectLeft
              && r.top + r.size / 2.0 == clientY - rectTop
              && forall q :: q in old(ripples) ==> q.id != r.id
    {
      var size := RippleSize(width, height);
      ripples := [Ripple(nextRippleId, size, clientX - rectLeft - size / 2.0, clientY - rectTop - size / 2.0)];
      nextRippleId := nextRippleId + 1;
    }

    /** The animation of ripple `id` ends: that ripple, if still there, is removed. */
    method RippleAnimationEnd(id: nat)
      requires Valid()
      modifies this`ripples
      ensures Valid()
      ensures ripples == RemoveRipple(old(ripples), id)
    {
      ripples := RemoveRipple(ripples, id);
    }
  }

  /** The ripples without the one called `id`, the others in order. */
  function RemoveRipple(rs: seq<Ripple>, id: nat): (r: seq<Ripple>)
    ensures forall q :: q in r <==> q in rs && q.id != id
    ensures |r| <= |rs|
  {
    if rs == [] then []
    else (if rs[0].id == id then [] else [rs[0]]) + RemoveRipple(rs[1..], id)
  }
}
