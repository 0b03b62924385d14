/**
 * The rocket scroll: a rocket that climbs with the page's vertical scroll,
 * drifts right with scroll speed, and can be dragged; six skill badges are
 * scattered at random with a minimum separation, and a badge the rocket
 * touches blinks.
 *
 * Coordinates are percentages of the space, as reals. `Math.random` is the
 * oracle `rand`, whose t-th value is the t-th draw.
 */
module RocketScroll {
  import opened Browser

  const MinDistance: int := 35
  const CollisionRadius: real := 8.0
  const MaxTries: int := 300
  const FieldMin: int := 18
  const FieldMax: int := 82

  datatype Point = Point(top: int, left: int)
  datatype SkillRank = SkillRank(rank: string, src: string, pos: Point)
  datatype RocketPos = RocketPos(top: real, left: real)
  datatype Rect = Rect(top: real, height: real)

  /** A blink is re-armed 10 ms after the collision and switched off 900 ms later. */
  datatype Job = Blink(index: nat) | Unblink(index: nat)

  /** The badges in their initial order, all at the origin until placed. */
  function Skills(): seq<SkillRank>
  {
    [ SkillRank("Angular", "/assets/images/angularRank.png", Point(0, 0)),
      SkillRank("Mysql", "/assets/images/mysqlRank.png", Point(0, 0)),
      SkillRank("JavaScript", "/assets/images/javaScriptRank.png", Point(0, 0)),
      SkillRank("SpringBoot", "/assets/images/springBootRank.png", Point(0, 0)),
      SkillRank("Bootstrap", "/assets/images/bootstrapRank.png", Point(0, 0)),
      SkillRank("MongoDB", "/assets/images/mongoDbRank.png", Point(0, 0)) ]
  }

  function Max(a: real, b: real): real { if a >= b then a else b }
  function Min(a: real, b: real): real { if a <= b then a else b }

  /** `Math.max(10, Math.min(90, p))`: the vertical position stays between 10 and 90. */
  function ClampTop(p: real): (r: real)
    ensures 10.0 <= r <= 90.0
    ensures 10.0 <= p <= 90.0 ==> r == p
    ensures p < 10.0 ==> r == 10.0
    ensures p > 90.0 ==> r == 90.0
  {
    Max(10.0, Min(90.0, p))
  }

  /** How far down the page is scrolled, in percent; 50 when the page does not scroll. */
  function PercentY(scrollY: real, scrollHeight: real, innerHeight: real): (r: real)
    ensures scrollHeight - innerHeight <= 0.0 ==> r == 50.0
    ensures scrollHeight - innerHeight > 0.0 && 0.0 <= scrollY <= scrollHeight - innerHeight ==> 0.0 <= r <= 100.0
  {
    var pageHeight := scrollHeight - innerHeight;
    if pageHeight > 0.0 then (scrollY / pageHeight) * 100.0 else 50.0
  }

  /** `clientWidth || 1`: a zero width counts as one pixel. */
  function OrOne(w: nat): (r: nat)
    ensures r >= 1 && (w != 0 ==> r == w)
  {
    if w == 0 then 1 else w
  }

  /**
   * `getMaxXPercent`: the rightmost position that keeps the rocket inside
   * the space. It is always left of 90, and it is at least 10 exactly when
   * the rocket is at most four fifths as wide as the space.
   */
  function MaxXPercent(spaceWidth: nat, rocketWidth: nat): (r: real)
    ensures r < 90.0
    ensures r >= 10.0 <==> 5 * OrOne(rocketWidth) <= 4 * OrOne(spaceWidth)
  {
    var ratio := OrOne(rocketWidth) as real / OrOne(spaceWidth) as real;
    RatioAtMostFourFifths(OrOne(rocketWidth) as real, OrOne(spaceWidth) as real);
    90.0 - ratio * 100.0
  }

  /** For a positive `b`, `a / b` is at most four fifths exactly when `5a <= 4b`. */
  lemma RatioAtMostFourFifths(a: real, b: real)
    requires b > 0.0
    ensures a / b <= 0.8 <==> 5.0 * a <= 4.0 * b
  {
    var q := a / b;
    assert q * b == a;
    var gap := 0.8 - q;
    assert gap * b == 0.8 * b - a;
    if gap >= 0.0 {
      assert gap * b >= 0.0;
    } else {
      assert (-gap) * b > 0.0;
    }
  }

  /**
   * `clampXPercent`: never left of 10, and never right of the maximum when
   * that maximum is itself at least 10 (a rocket wider than 80% of the
   * space pins it at 10).
   */
  function ClampX(x: real, maxX: real): (r: real)
    ensures r >= 10.0
    ensures maxX >= 10.0 ==> r <= maxX
    ensures 10.0 <= x <= maxX ==> r == x
    ensures maxX < 10.0 ==> r == 10.0
  {
    Max(10.0, Min(maxX, x))
  }

  /** `getRandomInt(min, max)` for one draw `u` of `Math.random`. */
  function GetRandomInt(min: int, max: int, u: real): (r: int)
    ensures 0.0 <= u < 1.0 && min <= max ==> min <= r <= max
  {
    var k := (max - min + 1) as real;
    assert 0.0 <= u < 1.0 && min <= max ==> 0.0 <= u * k < k by {
      if 0.0 <= u < 1.0 && min <= max {
        assert u * k < 1.0 * k;
      }
    }
    (u * k).Floor + min
  }

  /** The candidate of the t-th try: its top takes draw 2t and its left draw 2t+1. */
  function CandidateAt(rand: nat -> real, t: nat): Point
  {
    Point(GetRandomInt(FieldMin, FieldMax, rand(2 * t)), GetRandomInt(FieldMin, FieldMax, rand(2 * t + 1)))
  }

  predicate InField(p: Point)
  {
    FieldMin <= p.top <= FieldMax && FieldMin <= p.left <= FieldMax
  }

  /** Every draw of `Math.random` lies in [0, 1). */
  ghost predicate IsRandom(rand: nat -> real)
  {
    forall t: nat :: 0.0 <= rand(t) < 1.0
  }

  lemma CandidateInField(rand: nat -> real, t: nat)
    requires IsRandom(rand)
    ensures InField(CandidateAt(rand, t))
  {
    assert 0.0 <= rand(2 * t) < 1.0 && 0.0 <= rand(2 * t + 1) < 1.0;
  }

  /** The squared distance between two badges, which `distance` takes the root of. */
  function SqDist(a: Point, b: Point): (d: int)
    ensures d >= 0
  {
    var dx := a.left - b.left;
    var dy := a.top - b.top;
    assert dx * dx >= 0 && dy * dy >= 0;
    dx * dx + dy * dy
  }

  /** `placed.every(p => distance(candidate, p) >= minDistance)`. */
  predicate FarFromAll(c: Point, placed: seq<Point>)
  {
    forall k :: 0 <= k < |placed| ==> SqDist(c, placed[k]) >= MinDistance * MinDistance
  }

  /** Squaring is strictly increasing on the non-negative reals. */
  lemma SquareIncreasing(a: real, b: real)
    requires 0.0 <= a < b
    ensures a * a < b * b
  {
    var ab := a * b;
    assert a * a <= ab;
    assert ab < b * b;
  }

  /** Comparing a length with its square: for non-negative `d` and `r`, `d < r` iff `d*d < r*r`. */
  lemma RootComparison(d: real, sq: real, r: real)
    requires 0.0 <= d && 0.0 <= r && d * d == sq
    ensures d < r <==> sq < r * r
  {
    if d < r {
      SquareIncreasing(d, r);
    } else if r < d {
      SquareIncreasing(r, d);
    }
  }

  /** The separation test on squares agrees with the source's test on the root. */
  lemma SeparationMatchesDistance(a: Point, b: Point, distance: real)
    requires distance >= 0.0 && distance * distance == SqDist(a, b) as real
    ensures SqDist(a, b) >= MinDistance * MinDistance <==> distance >= MinDistance as real
  {
    RootComparison(distance, SqDist(a, b) as real, MinDistance as real);
  }

  /** A number whose square is below `r²`, for `r` non-negative, lies strictly between `-r` and `r`. */
  lemma SquareBelow(d: real, r: real)
    requires 0.0 <= r && d * d < r * r
    ensures -r < d < r
  {
    if d >= r {
      if d > r { SquareIncreasing(r, d); }
    } else if d <= -r {
      assert (-d) * (-d) == d * d;
      if -d > r { SquareIncreasing(r, -d); }
    }
  }

  /**
   * `isColliding`, on squares: the rocket is closer than `collisionRadius`
   * to the badge, so in particular within 8 of it on each axis.
   */
  predicate Colliding(rocket: RocketPos, skill: Point)
    ensures Colliding(rocket, skill) ==>
              -CollisionRadius < rocket.left - skill.left as real < CollisionRadius
              && -CollisionRadius < rocket.top - skill.top as real < CollisionRadius
  {
    var dx := rocket.left - skill.left as real;
    var dy := rocket.top - skill.top as real;
    var touching := dx * dx + dy * dy < CollisionRadius * CollisionRadius;
    if touching then
      SquareBelow(dx, CollisionRadius);
      SquareBelow(dy, CollisionRadius);
      true
    else false
  }

  /** `Colliding` holds exactly when the Euclidean distance is below 8. */
  lemma CollidingIffWithinRadius(rocket: RocketPos, skill: Point, distance: real)
    requires distance >= 0.0
    requires var dx := rocket.left - skill.left as real;
             var dy := rocket.top - skill.top as real;
             distance * distance == dx * dx + dy * dy
    ensures Colliding(rocket, skill) <==> distance < CollisionRadius
  {
    var dx := rocket.left - skill.left as real;
    var dy := rocket.top - skill.top as real;
    RootComparison(distance, dx * dx + dy * dy, CollisionRadius);
  }

  /** A badge still at the origin cannot be hit: the rocket never gets below 10 or left of 10. */
  lemma UnplacedNeverCollides(rocket: RocketPos)
    requires rocket.top >= 10.0 && rocket.left >= 10.0
    ensures !Colliding(rocket, Point(0, 0))
  {
    assert rocket.left * rocket.left >= 10.0 * rocket.left >= 100.0;
    assert rocket.top * rocket.top >= 10.0 * rocket.top >= 100.0;
  }

  /** The blink timers `checkCollisions` arms while visiting badges `0 .. n-1`, in order. */
  function Blinks(ranks: seq<SkillRank>, rocket: RocketPos, n: nat): seq<Timeout<Job>>
    requires n <= |ranks|
  {
    if n == 0 then []
    else Blinks(ranks, rocket, n - 1)
         + (if Colliding(rocket, ranks[n - 1].pos) then [Timeout(10, Blink(n - 1))] else [])
  }

  /** `checkCollisions` arms a blink for exactly the badges the rocket touches, and nothing else. */
  lemma {:induction false} BlinksAreCollisions(ranks: seq<SkillRank>, rocket: RocketPos, n: nat, j: nat)
    requires n <= |ranks|
    ensures Timeout(10, Blink(j)) in Blinks(ranks, rocket, n) <==> j < n && Colliding(rocket, ranks[j].pos)
    ensures forall t :: t in Blinks(ranks, rocket, n) ==> t.job.Blink? && t.delay == 10 && t.job.index < n
  {
    if n > 0 {
      BlinksAreCollisions(ranks, rocket, n - 1, j);
    }
  }

  /** The candidate of try `u` is too close to some placed badge. */
  predicate Rejected(rand: nat -> real, u: nat, placed: seq<Point>)
  {
    !FarFromAll(CandidateAt(rand, u), placed)
  }

  /** Where the badges are, in order. */
  function Positions(rs: seq<SkillRank>): (ps: seq<Point>)
    ensures |ps| == |rs| && forall k :: 0 <= k < |rs| ==> ps[k] == rs[k].pos
  {
    seq(|rs|, k requires 0 <= k < |rs| => rs[k].pos)
  }

  /**
   * The `while` loop of `placeSkillsWithSeparation` for one badge, starting
   * at try `t`: it takes `n` tries, between 1 and 300; every try but the
   * last is too close to a placed badge; the last is far enough from all
   * of them unless it was the 300th.
   */
  method DrawCandidate(rand: nat -> real, placed: seq<Point>, t: nat) returns (candidate: Point, n: nat)
    requires IsRandom(rand)
    ensures Step(rand, placed, candidate, t, n)
  {
    n := 0;
    var valid := false;
    candidate := Point(0, 0);
    while !valid && n < MaxTries
      invariant 0 <= n <= MaxTries
      invariant n == 0 ==> !valid
      invariant n > 0 ==> candidate == CandidateAt(rand, t + n - 1)
      invariant valid <==> n > 0 && FarFromAll(candidate, placed)
      invariant forall u :: t <= u < t + n - 1 ==> Rejected(rand, u, placed)
    {
      candidate := CandidateAt(rand, t + n);
      valid := FarFromAll(candidate, placed);
      n := n + 1;
    }
    CandidateInField(rand, t + n - 1);
  }

  /** The tries spent on the badges of `tries`, all together. */
  function TotalTries(tries: seq<nat>): nat
  {
    if tries == [] then 0 else TotalTries(tries[..|tries| - 1]) + tries[|tries| - 1]
  }

  /**
   * One badge's turn in `placeSkillsWithSeparation`, with the badges
   * `before` it already placed: starting at try `t` it used `n` tries,
   * between 1 and 300; it sits at the candidate of its last try, inside the
   * field; every earlier try was too close to a badge already placed; and
   * the last one was far enough from all of them unless it was the 300th.
   */
  ghost predicate Step(rand: nat -> real, before: seq<Point>, c: Point, t: nat, n: nat)
  {
    && 1 <= n <= MaxTries
    && c == CandidateAt(rand, t + n - 1) && InField(c)
    && (FarFromAll(c, before) || n == MaxTries)
    && (forall u :: t <= u < t + n - 1 ==> Rejected(rand, u, before))
  }

  /**
   * `placed` is what `placeSkillsWithSeparation` produces, badge i having
   * used `tries[i]` tries right after those of the badges before it.
   */
  ghost predicate Placed(rand: nat -> real, placed: seq<Point>, tries: seq<nat>)
    decreases |placed|
  {
    |tries| == |placed|
    && (|placed| > 0 ==>
          var k := |placed| - 1;
          Placed(rand, placed[..k], tries[..k]) && Step(rand, placed[..k], placed[k], TotalTries(tries[..k]), tries[k]))
  }

  /** Every badge of a placement took its turn as `Step` describes. */
  lemma {:induction false} PlacedEach(rand: nat -> real, placed: seq<Point>, tries: seq<nat>, i: nat)
    requires Placed(rand, placed, tries) && i < |placed|
    ensures Step(rand, placed[..i], placed[i], TotalTries(tries[..i]), tries[i])
    decreases |placed|
  {
    var k := |placed| - 1;
    if i < k {
      PlacedEach(rand, placed[..k], tries[..k], i);
      assert placed[..k][..i] == placed[..i] && tries[..k][..i] == tries[..i];
    }
  }

  /** Placing one more badge, as its turn describes, extends a placement. */
  lemma PlacedExtend(rand: nat -> real, placed: seq<Point>, tries: seq<nat>, c: Point, n: nat)
    requires Placed(rand, placed, tries)
    requires Step(rand, placed, c, TotalTries(tries), n)
    ensures Placed(rand, placed + [c], tries + [n])
    ensures TotalTries(tries + [n]) == TotalTries(tries) + n
  {
    var k := |placed|;
    assert (placed + [c])[..k] == placed && (tries + [n])[..k] == tries;
  }

  /** The loops of `placeSkillsWithSeparation`, placing `count` badges one after another. */
  method PlaceAll(rand: nat -> real, count: nat) returns (placed: seq<Point>, ghost tries: seq<nat>)
    requires IsRandom(rand)
    ensures |placed| == count
    ensures Placed(rand, placed, tries)
  {
    placed := [];
    tries := [];
    var t: nat := 0;  // tries taken so far
    for i := 0 to count
      invariant |placed| == i && Placed(rand, placed, tries)
      invariant t == TotalTries(tries)
    {
      var candidate, n := DrawCandidate(rand, placed, t);
      PlacedExtend(rand, placed, tries, candidate, n);
      placed := placed + [candidate];
      tries := tries + [n];
      t := t + n;
    }
  }

  class RocketScrollComponent {
    var ranks: seq<SkillRank>
    var animatedRanks: seq<bool>
    var rocketPos: RocketPos
    var currentXPercent: real
    var lastScroll: real
    var dragging: bool
    /** The space's bounding box, as last measured. */
    var spaceRect: Rect
    var pending: seq<Timeout<Job>>
    /** The tries each badge took when `ngAfterViewInit` placed it. */
    ghost var placementTries: seq<nat>

    ghost predicate Valid()
      reads this
    {
      && |animatedRanks| == |ranks|
      && 10.0 <= rocketPos.top <= 90.0
      && rocketPos.left == currentXPercent && currentXPercent >= 10.0
      && spaceRect.height >= 0.0
      && (forall t :: t in pending ==> t.job.index < |ranks|)
    }

    /**
     * `checkCollisions` ran with the rocket where it is now: a badge stays
     * animated, compared with `before`, exactly when the rocket does not touch it.
     */
    ghost predicate CollisionsChecked(before: seq<bool>)
      reads this
    {
      && |before| == |ranks| && |animatedRanks| == |ranks|
      && forall i :: 0 <= i < |ranks| ==> animatedRanks[i] == (before[i] && !Colliding(rocketPos, ranks[i].pos))
    }

    /** The component as created and then initialised by `ngAfterViewInit`. */
    constructor (rand: nat -> real, scrollY: real, scrollHeight: real, innerHeight: real, space: Rect)
      requires IsRandom(rand) && space.height >= 0.0
      ensures Valid()
      ensures |ranks| == |Skills()| && forall i :: 0 <= i < |ranks| ==> InField(ranks[i].pos)
      ensures forall i :: 0 <= i < |ranks| ==> ranks[i].rank == Skills()[i].rank && ranks[i].src == Skills()[i].src
      ensures Placed(rand, Positions(ranks), placementTries)
      ensures rocketPos == RocketPos(ClampTop(PercentY(scrollY, scrollHeight, innerHeight)), 10.0)
      ensures forall i :: 0 <= i < |ranks| ==> !animatedRanks[i]
      ensures pending == Blinks(ranks, RocketPos(50.0, 10.0), |ranks|) + Blinks(ranks, rocketPos, |ranks|)
      ensures lastScroll == 0.0 && !dragging && spaceRect == space
    {
      ranks := Skills();
      animatedRanks := [];
      rocketPos := RocketPos(50.0, 10.0);
      currentXPercent := 10.0;
      lastScroll := 0.0;
      dragging := false;
      spaceRect := Rect(0.0, 0.0);
      pending := [];
      placementTries := [];
      new;
      AfterViewInit(rand, scrollY, scrollHeight, innerHeight, space);
    }

    /**
     * `ngAfterViewInit`: place the badges, mark none animated, put the
     * rocket at the left edge and at the height the scroll gives, checking
     * collisions at each step, and measure the space for dragging.
     */
    method AfterViewInit(rand: nat -> real, scrollY: real, scrollHeight: real, innerHeight: real, space: Rect)
      requires IsRandom(rand) && space.height >= 0.0 && 10.0 <= rocketPos.top <= 90.0
      requires forall t :: t in pending ==> t.job.index < |ranks|
      modifies this
      ensures Valid()
      ensures |ranks| == old(|ranks|)
      ensures forall i :: 0 <= i < |ranks| ==>
                ranks[i].rank == old(ranks[i].rank) && ranks[i].src == old(ranks[i].src) && InField(ranks[i].pos)
      ensures Placed(rand, Positions(ranks), placementTries)
      ensures rocketPos == RocketPos(ClampTop(PercentY(scrollY, scrollHeight, innerHeight)), 10.0)
      ensures forall i :: 0 <= i < |ranks| ==> !animatedRanks[i]
      ensures pending == old(pending) + Blinks(ranks, RocketPos(old(rocketPos.top), 10.0), |ranks|)
                                      + Blinks(ranks, rocketPos, |ranks|)
      ensures lastScroll == old(lastScroll) && dragging == old(dragging) && spaceRect == space
    {
      // `setupMobileDrag` measures the space last; nothing before it reads the measure.
      spaceRect := space;
      PlaceBadges(rand);
      StartRocket(scrollY, scrollHeight, innerHeight);
    }

    /** The first two steps of `ngAfterViewInit`: place the badges, then mark none animated. */
    method PlaceBadges(rand: nat -> real)
      requires IsRandom(rand)
      modifies this`ranks, this`placementTries, this`animatedRanks
      ensures |ranks| == old(|ranks|) && |animatedRanks| == |ranks|
      ensures forall i :: 0 <= i < |ranks| ==>
                ranks[i].rank == old(ranks[i].rank) && ranks[i].src == old(ranks[i].src) && InField(ranks[i].pos)
      ensures Placed(rand, Positions(ranks), placementTries)
      ensures forall i :: 0 <= i < |ranks| ==> !animatedRanks[i]
    {
      placementTries := PlaceSkillsWithSeparation(rand);
      animatedRanks := seq(|ranks|, _ => false);
    }

    /**
     * The rest of `ngAfterViewInit`, with no badge animated: the rocket
     * goes to the left edge, then to the height the scroll gives, with a
     * collision check at each stop; no badge is animated afterwards.
     */
    method StartRocket(scrollY: real, scrollHeight: real, innerHeight: real)
      requires |animatedRanks| == |ranks| && forall i :: 0 <= i < |ranks| ==> !animatedRanks[i]
      requires spaceRect.height >= 0.0 && 10.0 <= rocketPos.top <= 90.0
      requires forall t :: t in pending ==> t.job.index < |ranks|
      modifies this`currentXPercent, this`rocketPos, this`animatedRanks, this`pending
      ensures Valid()
      ensures rocketPos == RocketPos(ClampTop(PercentY(scrollY, scrollHeight, innerHeight)), 10.0)
      ensures forall i :: 0 <= i < |ranks| ==> !animatedRanks[i]
      ensures pending == old(pending) + Blinks(ranks, RocketPos(old(rocketPos.top), 10.0), |ranks|)
                                      + Blinks(ranks, rocketPos, |ranks|)
    {
      InitRocketScroll();
      UpdateRocketPosFromScroll(scrollY, scrollHeight, innerHeight);
      CheckCollisions();
    }

    /**
     * `placeSkillsWithSeparation`: badge by badge, draw candidates until
     * one keeps the minimum separation from the badges already placed or
     * 300 tries are spent, and put the badge at the last candidate drawn;
     * names and images stay where they were.
     */
    method PlaceSkillsWithSeparation(rand: nat -> real) returns (ghost tries: seq<nat>)
      requires IsRandom(rand)
      modifies this`ranks
      ensures |ranks| == |old(ranks)|
      ensures forall i :: 0 <= i < |ranks| ==> ranks[i].rank == old(ranks[i].rank) && ranks[i].src == old(ranks[i].src)
      ensures Placed(rand, Positions(ranks), tries)
      ensures forall i :: 0 <= i < |ranks| ==> InField(ranks[i].pos)
    {
      var placed;
      placed, tries := PlaceAll(rand, |ranks|);
      var current := ranks;
      ranks := seq(|current|, k requires 0 <= k < |current| => current[k].(pos := placed[k]));
      assert Positions(ranks) == placed;
      forall i | 0 <= i < |ranks|
        ensures InField(ranks[i].pos)
      {
        PlacedEach(rand, placed, tries, i);
      }
    }

    /** `initRocketScroll` as it runs once: the rocket starts at the left edge. */
    method InitRocketScroll()
      requires |animatedRanks| == |ranks| && spaceRect.height >= 0.0 && 10.0 <= rocketPos.top <= 90.0
      requires forall t :: t in pending ==> t.job.index < |ranks|
      modifies this`currentXPercent, this`rocketPos, this`animatedRanks, this`pending
      ensures Valid()
      ensures currentXPercent == 10.0 && rocketPos == RocketPos(old(rocketPos.top), 10.0)
      ensures CollisionsChecked(old(animatedRanks))
      ensures pending == old(pending) + Blinks(ranks, rocketPos, |ranks|)
    {
      currentXPercent := 10.0;
      UpdateRocket();
    }

    /** `updateRocket`: the rocket's left follows `currentXPercent`, then collisions are checked. */
    method UpdateRocket()
      requires |animatedRanks| == |ranks| && spaceRect.height >= 0.0 && currentXPercent >= 10.0
      requires 10.0 <= rocketPos.top <= 90.0 && (forall t :: t in pending ==> t.job.index < |ranks|)
      modifies this`rocketPos, this`animatedRanks, this`pending
      ensures Valid()
      ensures rocketPos == RocketPos(old(rocketPos.top), currentXPercent)
      ensures CollisionsChecked(old(animatedRanks))
      ensures pending == old(pending) + Blinks(ranks, rocketPos, |ranks|)
    {
      rocketPos := rocketPos.(left := currentXPercent);
      CheckCollisions();
    }

    /**
     * The `scroll` listener of `initRocketScroll`: drift right by a fifth of
     * the scroll delta, clamp, move the rocket, and remember the scroll.
     */
    method OnScrollDrift(scrollY: real, spaceWidth: nat, rocketWidth: nat)
      requires Valid()
      modifies this`currentXPercent, this`rocketPos, this`animatedRanks, this`pending, this`lastScroll
      ensures Valid()
      ensures currentXPercent == ClampX(old(currentXPercent) + (scrollY - old(lastScroll)) * 0.2,
                                        MaxXPercent(spaceWidth, rocketWidth))
      ensures rocketPos == RocketPos(old(rocketPos.top), currentXPercent)
      ensures lastScroll == scrollY
      ensures CollisionsChecked(old(animatedRanks))
      ensures pending == old(pending) + Blinks(ranks, rocketPos, |ranks|)
    {
      var delta := scrollY - lastScroll;
      currentXPercent := currentXPercent + delta * 0.2;
      currentXPercent := ClampX(currentXPercent, MaxXPercent(spaceWidth, rocketWidth));
      UpdateRocket();
      lastScroll := scrollY;
    }

    /** The `resize` listener: re-clamp against the new widths and move the rocket. */
    method OnResize(spaceWidth: nat, rocketWidth: nat)
      requires Valid()
      modifies this`currentXPercent, this`rocketPos, this`animatedRanks, this`pending
      ensures Valid()
      ensures currentXPercent == ClampX(old(currentXPercent), MaxXPercent(spaceWidth, rocketWidth))
      ensures rocketPos == RocketPos(old(rocketPos.top), currentXPercent)
      ensures CollisionsChecked(old(animatedRanks))
      ensures pending == old(pending) + Blinks(ranks, rocketPos, |ranks|)
    {
      currentXPercent := ClampX(currentXPercent, MaxXPercent(spaceWidth, rocketWidth));
      UpdateRocket();
    }

    /** `updateRocketPosFromScroll`: the height follows the vertical scroll, clamped. */
    method UpdateRocketPosFromScroll(scrollY: real, scrollHeight: real, innerHeight: real)
      modifies this`rocketPos
      ensures rocketPos == RocketPos(ClampTop(PercentY(scrollY, scrollHeight, innerHeight)), old(rocketPos.left))
    {
      var percentY := PercentY(scrollY, scrollHeight, innerHeight);
      rocketPos := rocketPos.(top := ClampTop(percentY));
    }

    /** The `window:scroll` host listener: move the rocket up or down, then check collisions. */
    method OnWindowScroll(scrollY: real, scrollHeight: real, innerHeight: real)
      requires Valid()
      modifies this`rocketPos, this`animatedRanks, this`pending
      ensures Valid()
      ensures rocketPos == RocketPos(ClampTop(PercentY(scrollY, scrollHeight, innerHeight)), old(rocketPos.left))
      ensures CollisionsChecked(old(animatedRanks))
      ensures pending == old(pending) + Blinks(ranks, rocketPos, |ranks|)
    {
      UpdateRocketPosFromScroll(scrollY, scrollHeight, innerHeight);
      CheckCollisions();
    }

    /**
     * `checkCollisions`: every badge the rocket touches has its animation
     * reset and a blink armed; the others are left alone.
     */
    method CheckCollisions()
      requires |animatedRanks| == |ranks| && (forall t :: t in pending ==> t.job.index < |ranks|)
      modifies this`animatedRanks, this`pending
      ensures |animatedRanks| == |ranks| && (forall t :: t in pending ==> t.job.index < |ranks|)
      ensures CollisionsChecked(old(animatedRanks))
      ensures pending == old(pending) + Blinks(ranks, rocketPos, |ranks|)
    {
      for i := 0 to |ranks|
        invariant |animatedRanks| == |ranks|
        invariant forall k :: 0 <= k < i ==>
                    animatedRanks[k] == (old(animatedRanks[k]) && !Colliding(rocketPos, ranks[k].pos))
        invariant forall k :: i <= k < |ranks| ==> animatedRanks[k] == old(animatedRanks[k])
        invariant pending == old(pending) + Blinks(ranks, rocketPos, i)
        invariant forall t :: t in pending ==> t.job.index < |ranks|
      {
        if Colliding(rocketPos, ranks[i].pos) {
          TriggerSkillAnimation(i);
        }
      }
    }

    /** `triggerSkillAnimation`: reset the badge's animation and blink it 10 ms later. */
    method TriggerSkillAnimation(index: nat)
      requires index < |animatedRanks|
      modifies this`animatedRanks, this`pending
      ensures animatedRanks == old(animatedRanks)[index := false]
      ensures pending == old(pending) + [Timeout(10, Blink(index))]
    {
      animatedRanks := animatedRanks[index := false];
      pending := pending + [Timeout(10, Blink(index))];
    }

    /** The k-th timer runs out: a blink lights the badge for 900 ms, an un-blink switches it off. */
    method FireTimer(k: nat)
      requires Valid() && k < |pending|
      modifies this`animatedRanks, this`pending
      ensures Valid()
      ensures var rest := old(pending[..k] + pending[k + 1..]);
              match old(pending[k].job)
              case Blink(i) => animatedRanks == old(animatedRanks)[i := true] && pending == rest + [Timeout(900, Unblink(i))]
              case Unblink(i) => animatedRanks == old(animatedRanks)[i := false] && pending == rest
    {
      var job := pending[k].job;
      assert pending[k] in pending;
      var rest := pending[..k] + pending[k + 1..];
      assert forall t :: t in rest ==> t in pending;
      pending := rest;
      match job
      case Blink(i) =>
        animatedRanks := animatedRanks[i := true];
        pending := pending + [Timeout(900, Unblink(i))];
      case Unblink(i) =>
        animatedRanks := animatedRanks[i := false];
    }

    /** `touchstart` / `mousedown` on the rocket: start dragging and re-measure the space. */
    method StartDrag(space: Rect)
      requires Valid() && space.height >= 0.0
      modifies this`dragging, this`spaceRect
      ensures Valid() && dragging && spaceRect == space
    {
      dragging := true;
      spaceRect := space;
    }

    /** `touchend` / `mouseup`: stop dragging. */
    method EndDrag()
      requires Valid()
      modifies this`dragging
      ensures Valid() && !dragging
    {
      dragging := false;
    }

    /**
     * `touchmove` / `mousemove`: while dragging, the pointer's height in
     * the space sets the rocket's height, clamped, and collisions are
     * checked; otherwise nothing happens. A space of zero height sends the
     * pointer to plus or minus infinity, which clamps to 90 or 10.
     */
    method PointerMove(clientY: real)
      requires Valid()
      requires spaceRect.height > 0.0 || clientY != spaceRect.top
      modifies this`rocketPos, this`animatedRanks, this`pending
      ensures Valid()
      ensures !dragging ==> unchanged(this)
      ensures dragging ==> rocketPos == RocketPos(DragTop(clientY, spaceRect), old(rocketPos.left))
      ensures dragging ==> CollisionsChecked(old(animatedRanks))
      ensures dragging ==> pending == old(pending) + Blinks(ranks, rocketPos, |ranks|)
    {
      if dragging {
        rocketPos := rocketPos.(top := DragTop(clientY, spaceRect));
        CheckCollisions();
      }
    }
  }

  /** The height `moveHandler` gives the rocket for a pointer at `clientY`. */
  function DragTop(clientY: real, space: Rect): (r: real)
    requires space.height >= 0.0
    requires space.height > 0.0 || clientY != space.top
    ensures 10.0 <= r <= 90.0
    ensures space.height == 0.0 ==> (r == 90.0 <==> clientY > space.top)
  {
    if space.height > 0.0 then
      ClampTop((clientY - space.top) / space.height * 100.0)
    else if clientY > space.top then 90.0
    else 10.0
  }
}
