/**
 * The per-tick rules of game.js stated on plain values: how an enemy moves and dies,
 * which enemy a tower aims at, when a homing bullet hits, and the clamped frame time.
 * The classes in module Entities and the loop in module Simulation are proved against these.
 */
module Combat {
  import opened Basics
  import opened PathModel

  /** The three keys of TOWER_DEFS. */
  datatype TowerKind = Basic | Rapid | Slow

  /** Movement factor while slowed; hard-coded in Enemy.update (the table's `slow: 0.55` is never read). */
  const SLOW_MULTIPLIER := 0.5
  /** Money credited for an enemy whose hp is at most 0 when it updates. */
  const KILL_REWARD := 8
  /** A slow bullet raises the target's slow timer to at least this many seconds. */
  const SLOW_SECONDS := 1.5
  /** Cooldowns and bullet steps are counted in 60ths of a second. */
  const FRAMES_PER_SECOND := 60.0
  /** Upper bound on the frame time fed to the simulation. */
  const MAX_DT := 0.033

  /** The frame time of one loop call: min(0.033, (now - last) / 1000), timestamps in ms. */
  function FrameDelta(now: real, last: real): (dt: real)
    ensures dt <= MAX_DT
    ensures now >= last ==> dt >= 0.0
    ensures (now - last) / 1000.0 <= MAX_DT ==> dt == (now - last) / 1000.0
  {
    MinReal(MAX_DT, (now - last) / 1000.0)
  }

  // ---------- enemy movement ----------

  datatype EnemyState = EnemyState(t: real, hp: int, slowTimer: real)

  /** What Enemy.update leaves behind: new progress and slow timer, and which of its two checks fired. */
  datatype EnemyUpdate = EnemyUpdate(t: real, slowTimer: real, leaked: bool, killed: bool)

  /** The movement factor of Enemy.update: halved exactly while the slow timer runs. */
  function SlowFactor(slowTimer: real): (f: real)
    ensures 0.0 < f <= 1.0
    ensures f < 1.0 <==> slowTimer > 0.0
  {
    if slowTimer > 0.0 then SLOW_MULTIPLIER else 1.0
  }

  /**
   * Enemy.update(dt): advance by speed * dt, halved while the slow timer runs; run the
   * timer down towards 0; then the leak test (t >= 1) and the kill test (hp <= 0), which
   * are independent of each other.
   */
  function EnemyStep(e: EnemyState, speed: real, dt: real): (r: EnemyUpdate)
    ensures speed >= 0.0 && dt >= 0.0 ==> r.t >= e.t
    ensures e.slowTimer >= 0.0 ==> r.slowTimer >= 0.0
    ensures dt >= 0.0 ==> r.slowTimer <= e.slowTimer
    ensures e.slowTimer > 0.0 ==> r.slowTimer == MaxReal(0.0, e.slowTimer - dt)
    ensures e.slowTimer <= 0.0 ==> r.slowTimer == e.slowTimer
    ensures r.leaked <==> r.t >= 1.0
    ensures r.killed <==> e.hp <= 0
  {
    var t := e.t + speed * dt * SlowFactor(e.slowTimer);
    ProductNonNeg(speed, dt, SlowFactor(e.slowTimer));
    var slowTimer := if e.slowTimer > 0.0 then MaxReal(0.0, e.slowTimer - dt) else e.slowTimer;
    EnemyUpdate(t, slowTimer, t >= 1.0, e.hp <= 0)
  }

  lemma ProductNonNeg(a: real, b: real, c: real)
    ensures a >= 0.0 && b >= 0.0 && c >= 0.0 ==> a * b * c >= 0.0
  {
    if a >= 0.0 && b >= 0.0 && c >= 0.0 {
      MulNonNeg(a, b);
      MulNonNeg(a * b, c);
    }
  }

  function Advance(e: EnemyState, speed: real, dt: real): real
  {
    EnemyStep(e, speed, dt).t - e.t
  }

  /** A running slow timer halves the distance covered, compared with the same enemy unslowed. */
  lemma SlowHalvesAdvance(e: EnemyState, speed: real, dt: real)
    requires e.slowTimer > 0.0
    ensures Advance(e, speed, dt) == Advance(e.(slowTimer := 0.0), speed, dt) / 2.0
  {
  }

  /** Without a running slow timer an enemy advances by exactly speed * dt. */
  lemma UnslowedAdvance(e: EnemyState, speed: real, dt: real)
    requires e.slowTimer <= 0.0
    ensures EnemyStep(e, speed, dt).t == e.t + speed * dt
  {
  }

  /**
   * The two checks of Enemy.update are not exclusive: an enemy with no hp left that also
   * reaches the end costs a life and pays the reward in the same update.
   */
  lemma LeakAndKillInOneUpdate()
    ensures var r := EnemyStep(EnemyState(0.99, 0, 0.0), 1.0, 0.02); r.leaked && r.killed
  {
  }

  // ---------- targeting ----------

  /** What the targeting loop looks at for one enemy: its dead flag, position and progress. */
  datatype Candidate = Candidate(dead: bool, at: Point, t: real)

  predicate Eligible(c: Candidate, from: Point, range: real)
  {
    !c.dead && WithinRange(from, c.at, range)
  }

  /** Progress of the current best, or the loop's starting value -1 when there is none. */
  function BestT(cs: seq<Candidate>, best: Option<nat>): real
    requires best.Some? ==> best.value < |cs|
  {
    if best.None? then -1.0 else cs[best.value].t
  }

  /**
   * The targeting loop of Tower.update and of the interval step, scanned left to right:
   * an eligible enemy replaces the best so far only when its progress is strictly greater.
   */
  function Pick(cs: seq<Candidate>, from: Point, range: real): (r: Option<nat>)
    ensures r.Some? ==> r.value < |cs|
    decreases |cs|
  {
    if cs == [] then None
    else
      var prev := Pick(cs[..|cs| - 1], from, range);
      var last := cs[|cs| - 1];
      if Eligible(last, from, range) && last.t > BestT(cs, prev) then Some(|cs| - 1) else prev
  }

  /**
   * The chosen enemy is alive and in range, no eligible enemy is further along, and every
   * eligible enemy before it is strictly behind (the first one wins a tie). Nothing is
   * chosen exactly when no eligible enemy has progress above -1.
   */
  lemma {:induction false} PickIsFurthestFirst(cs: seq<Candidate>, from: Point, range: real)
    ensures match Pick(cs, from, range)
      case Some(i) =>
        && i < |cs| && Eligible(cs[i], from, range) && cs[i].t > -1.0
        && (forall j | 0 <= j < |cs| && Eligible(cs[j], from, range) :: cs[j].t <= cs[i].t)
        && (forall j | 0 <= j < i && Eligible(cs[j], from, range) :: cs[j].t < cs[i].t)
      case None =>
        forall j | 0 <= j < |cs| && Eligible(cs[j], from, range) :: cs[j].t <= -1.0
    decreases |cs|
  {
    if cs != [] {
      var n := |cs| - 1;
      var init := cs[..n];
      PickIsFurthestFirst(init, from, range);
      assert forall j | 0 <= j < n :: init[j] == cs[j];
    }
  }

  // ---------- bullets ----------

  /**
   * The hit test of the bullet pass, `(hypot(dx, dy) || 1) <= speed * dt * 60`, stated on
   * the squared distance d2: a zero distance counts as 1.
   */
  predicate BulletHits(d2: real, step: real): (hit: bool)
    ensures hit ==> step >= 0.0
    ensures 0.0 <= d2 <= step * step && step >= 1.0 ==> hit
  {
    if d2 == 0.0 then 1.0 <= step else step >= 0.0 && d2 <= step * step
  }

  /** The square-free test above decides exactly as the game's test on the distance h itself. */
  lemma HitTestAgrees(h: real, d2: real, step: real)
    requires h >= 0.0 && h * h == d2
    ensures ((if h == 0.0 then 1.0 else h) <= step) == BulletHits(d2, step)
  {
    SquareZero(h, d2);
    if h != 0.0 && step >= 0.0 {
      SquareMonotone(h, step);
    }
  }
}
