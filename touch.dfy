/**
 * The mobile canvas-click handler of ui.js: a click while the game runs either
 * places the tower type being placed (a second click within 250 ms) or selects the
 * nearest tower within 20 pixels of the click.
 */
module TouchInput {
  import opened Basics
  import opened PathModel

  /** Two clicks less than this many milliseconds apart make a double click. */
  const DOUBLE_CLICK_MS := 250
  /** A tower is selectable when its centre is less than this far from the click. */
  const SELECT_RADIUS := 20.0
  /** The search's starting distance, larger than any distance it accepts. */
  const FAR := 99999.0

  /** The ghost tower drawn under the finger while a type is being placed. */
  datatype Preview = Preview(at: Point, kind: string)

  /** A call to Game.placeTower, recorded rather than carried out. */
  datatype Placement = Placement(at: Point, kind: string)

  /** What a click did. */
  datatype Outcome = Ignored | NothingToPlace | Placed | Selected

  /**
   * `r` is what the selection search must answer for a click at p: the index of a tower
   * strictly within SELECT_RADIUS that no tower is strictly closer than and that every
   * earlier tower is farther than, or None when no tower is within SELECT_RADIUS.
   */
  predicate IsNearest(towers: seq<Point>, p: Point, r: Option<nat>)
  {
    match r
    case None => forall j | 0 <= j < |towers| :: !StrictlyWithin(towers[j], p, SELECT_RADIUS)
    case Some(i) =>
      && i < |towers|
      && StrictlyWithin(towers[i], p, SELECT_RADIUS)
      && (forall j | 0 <= j < |towers| :: DistSq(towers[i], p) <= DistSq(towers[j], p))
      && (forall j | 0 <= j < i :: DistSq(towers[i], p) < DistSq(towers[j], p))
  }

  /** The selection rule pins down at most one answer, so ties go to the earliest tower. */
  lemma NearestUnique(towers: seq<Point>, p: Point, r1: Option<nat>, r2: Option<nat>)
    requires IsNearest(towers, p, r1) && IsNearest(towers, p, r2)
    ensures r1 == r2
  {
  }

  /**
   * The single-click search: walks the towers keeping the closest one seen whose distance
   * `Math.hypot(t.x - x, t.y - y)` is below both SELECT_RADIUS and the best distance so far.
   */
  method NearestTower(towers: seq<Point>, p: Point, hypot: (real, real) -> real) returns (closest: Option<nat>)
    requires IsHypot(hypot)
    ensures IsNearest(towers, p, closest)
  {
    closest := None;
    var closestDist := FAR;
    var i := 0;
    while i < |towers|
      invariant 0 <= i <= |towers|
      invariant closest.None? ==> closestDist == FAR
      invariant closest.None? ==> forall j | 0 <= j < i :: !StrictlyWithin(towers[j], p, SELECT_RADIUS)
      invariant closest.Some? ==> Chosen(towers, p, i, closest.value, closestDist)
    {
      var t := towers[i];
      var d := hypot(t.x - p.x, t.y - p.y);
      assert d >= 0.0 && d * d == DistSq(t, p);
      HypotCompare(d, DistSq(t, p), SELECT_RADIUS);
      HypotCompare(d, DistSq(t, p), closestDist);
      if d < SELECT_RADIUS && d < closestDist {
        closest := Some(i);
        closestDist := d;
      }
      i := i + 1;
    }
  }

  /** The search's state after the first n towers: tower c, at distance dist, is the pick so far. */
  ghost predicate Chosen(towers: seq<Point>, p: Point, n: nat, c: nat, dist: real)
  {
    && c < n <= |towers|
    && dist >= 0.0 && dist * dist == DistSq(towers[c], p)
    && StrictlyWithin(towers[c], p, SELECT_RADIUS)
    && (forall j | 0 <= j < n :: DistSq(towers[c], p) <= DistSq(towers[j], p))
    && (forall j | 0 <= j < c :: DistSq(towers[c], p) < DistSq(towers[j], p))
  }

  /** The state of the game that the handler reads and writes, and the handler's own `lastClickTime`. */
  class Touch {
    var running: bool
    /** Game.placingType; null and "" are both falsy and are both the empty string here. */
    var placingType: string
    var placementPreview: Option<Preview>
    var towers: seq<Point>
    var selectedTower: Option<nat>
    var lastClickTime: int
    var placements: seq<Placement>

    constructor (running: bool, placingType: string, towers: seq<Point>)
      ensures this.running == running && this.placingType == placingType && this.towers == towers
      ensures placementPreview == None && selectedTower == None && lastClickTime == 0 && placements == []
    {
      this.running := running;
      this.placingType := placingType;
      this.towers := towers;
      placementPreview := None;
      selectedTower := None;
      lastClickTime := 0;
      placements := [];
    }

    /**
     * A click at (x, y) at time `now` (Date.now()). Ignored while the game is not running;
     * otherwise it records the time, moves the placement preview under the finger, and
     * then either handles a double click or selects the nearest tower.
     */
    method Click(x: real, y: real, now: int, hypot: (real, real) -> real) returns (outcome: Outcome)
      requires IsHypot(hypot)
      modifies this`lastClickTime, this`placementPreview, this`selectedTower, this`placements
      ensures !running ==> outcome == Ignored && unchanged(this)
      ensures outcome == Ignored <==> !running
      ensures running && now - old(lastClickTime) >= DOUBLE_CLICK_MS ==> outcome == Selected
      ensures running ==> lastClickTime == now
      ensures outcome in {NothingToPlace, Placed} <==> running && now - old(lastClickTime) < DOUBLE_CLICK_MS
      ensures outcome == NothingToPlace ==> placingType == [] && placementPreview == old(placementPreview)
      ensures outcome == Placed ==> placingType != [] && placementPreview == None
      ensures placements == old(placements) + (if outcome == Placed then [Placement(Point(x, y), placingType)] else [])
      ensures outcome != Selected ==> selectedTower == old(selectedTower)
      ensures outcome == Selected ==> IsNearest(towers, Point(x, y), selectedTower)
      ensures outcome == Selected ==>
                placementPreview == if placingType != [] then Some(Preview(Point(x, y), placingType)) else old(placementPreview)
    {
      if !running {
        return Ignored;
      }
      var p := Point(x, y);
      var delta := now - lastClickTime;
      lastClickTime := now;
      if placingType != [] {
        placementPreview := Some(Preview(p, placingType));
      }
      if delta < DOUBLE_CLICK_MS {
        if placingType == [] {
          return NothingToPlace;
        }
        placements := placements + [Placement(p, placingType)];
        placementPreview := None;
        return Placed;
      }
      selectedTower := NearestTower(towers, p, hypot);
      outcome := Selected;
    }
  }
}
