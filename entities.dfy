/**
 * The game objects of game.js: the shared tower definitions, enemies, towers and the
 * homing bullets they fire, with the targeting loop both firing paths run.
 */
module Entities {
  import opened Basics
  import opened PathModel
  import opened Combat
  import opened Economy

  /** Lifetime of a bullet fired by Tower.update, and of one fired by the interval step. */
  const FRAME_BULLET_TTL := 0.6
  const INTERVAL_BULLET_TTL := 1.2

  /**
   * One TOWER_DEFS entry. Every tower of a kind points at the same entry, so an upgrade,
   * which rewrites range and dmg here, changes all towers of that kind.
   */
  class TowerDef {
    const kind: TowerKind
    const cost: int
    const rate: int
    const upgradeCost: int
    var range: int
    var dmg: int

    constructor (kind: TowerKind)
      ensures this.kind == kind && Stats() == InitialDef(kind)
    {
      var d := InitialDef(kind);
      this.kind := kind;
      cost, rate, upgradeCost := d.cost, d.rate, d.upgradeCost;
      range, dmg := d.range, d.dmg;
    }

    function Stats(): DefStats
      reads this
    {
      DefStats(cost, range, rate, dmg, upgradeCost)
    }
  }

  class Enemy {
    var t: NonNegReal
    var hp: int
    const maxHp: int
    const speed: NonNegReal
    var slowTimer: NonNegReal
    var dead: bool

    constructor (hp: int, speed: NonNegReal)
      ensures t == 0.0 && this.hp == hp && maxHp == hp && this.speed == speed
      ensures slowTimer == 0.0 && !dead
    {
      t := 0.0;
      this.hp := hp;
      maxHp := hp;
      this.speed := speed;
      slowTimer := 0.0;
      dead := false;
    }

    function State(): EnemyState
      reads this
    {
      EnemyState(t, hp, slowTimer)
    }

    /** Enemy.pos: where the enemy stands on the path. */
    function Pos(path: seq<Point>): (p: Point)
      reads this
      ensures |path| < 2 ==> p == ORIGIN
      ensures |path| >= 2 && t == 0.0 ==> p == path[0]
      ensures |path| >= 2 && t == 1.0 ==> p == path[|path| - 1]
    {
      PointOnPath(path, t)
    }

    /**
     * Enemy.update(dt). The life it costs and the reward it pays are applied by the caller,
     * which is told through `leaked` and `killed`; hp is left alone.
     */
    method Update(dt: real) returns (leaked: bool, killed: bool)
      requires dt >= 0.0
      modifies this
      ensures var r := EnemyStep(old(State()), speed, dt);
              t == r.t && slowTimer == r.slowTimer && leaked == r.leaked && killed == r.killed
      ensures hp == old(hp)
      ensures dead == (old(dead) || leaked || killed)
    {
      var slowMult := if slowTimer > 0.0 then SLOW_MULTIPLIER else 1.0;
      ProductNonNeg(speed, dt, slowMult);
      t := t + speed * dt * slowMult;
      if slowTimer > 0.0 {
        slowTimer := MaxReal(0.0, slowTimer - dt);
      }
      leaked, killed := false, false;
      if t >= 1.0 {
        leaked := true;
        dead := true;
      }
      if hp <= 0 {
        killed := true;
        dead := true;
      }
    }
  }

  /**
   * A bullet in flight. It keeps a reference to its target, which stays valid (and can still
   * be hit) after the enemy has left the enemy list.
   */
  datatype Bullet = Bullet(x: real, y: real, target: Enemy, speed: real, dmg: int, kind: TowerKind, ttl: real, dead: bool)

  /** What the targeting loop sees of one enemy. */
  function CandidateOf(e: Enemy, path: seq<Point>): Candidate
    reads e
  {
    Candidate(e.dead, if e.dead then ORIGIN else e.Pos(path), e.t)
  }

  function Candidates(es: seq<Enemy>, path: seq<Point>): (cs: seq<Candidate>)
    reads es
    ensures |cs| == |es|
    ensures forall i | 0 <= i < |es| :: cs[i] == CandidateOf(es[i], path)
  {
    if es == [] then [] else Candidates(es[..|es| - 1], path) + [CandidateOf(es[|es| - 1], path)]
  }

  /**
   * The targeting loop of Tower.update and of the interval step: the enemy Pick chooses
   * (see Combat.PickIsFurthestFirst), or null.
   */
  method FurthestInRange(es: seq<Enemy>, path: seq<Point>, from: Point, range: real) returns (best: Enemy?)
    ensures match Pick(Candidates(es, path), from, range)
      case None => best == null
      case Some(i) => best == es[i]
  {
    ghost var cs := Candidates(es, path);
    ghost var pick: Option<nat> := None;
    var bestT: real := -1.0;
    best := null;
    var i := 0;
    while i < |es|
      invariant 0 <= i <= |es|
      invariant pick == Pick(cs[..i], from, range)
      invariant pick.None? ==> best == null && bestT == -1.0
      invariant pick.Some? ==> pick.value < i && best == es[pick.value] && bestT == cs[pick.value].t
    {
      var e := es[i];
      if !e.dead {
        var p := e.Pos(path);
        if WithinRange(from, p, range) {
          if e.t > bestT {
            bestT := e.t;
            best := e;
            pick := Some(i);
          }
        }
      }
      assert cs[..i + 1][..i] == cs[..i];
      i := i + 1;
    }
    assert cs[..|es|] == cs;
  }

  /** Tower.update's cooldown step, in frames: cd drops by dt * 60 while positive and stops at 0. */
  function Cooled(cd: real, dt: real): (r: real)
    ensures cd >= 0.0 ==> r >= 0.0
    ensures dt >= 0.0 ==> r <= cd
    ensures cd > 0.0 && cd <= dt * FRAMES_PER_SECOND ==> r == 0.0
    ensures cd <= 0.0 ==> r == cd
  {
    if cd > 0.0 then MaxReal(0.0, cd - dt * FRAMES_PER_SECOND) else cd
  }

  /** What a tower's shot depends on: where it stands, its kind, and its entry's range, rate and damage. */
  datatype TowerView = TowerView(at: Point, kind: TowerKind, range: int, rate: int, dmg: int)

  /** _bulletSpeed: 8 + rate / 20, in pixels per frame. */
  function BulletSpeed(rate: int): (s: real)
    ensures rate >= 0 ==> s >= 8.0
  {
    8.0 + rate as real / 20.0
  }

  /** The bullet a tower fires at `target`: from the tower, with the entry's current damage, not yet done. */
  function ShotAt(v: TowerView, target: Enemy, ttl: real): (b: Bullet)
    ensures b.target == target && b.dmg == v.dmg && b.kind == v.kind && b.ttl == ttl && !b.dead
    ensures b.x == v.at.x && b.y == v.at.y && b.speed == BulletSpeed(v.rate)
  {
    Bullet(v.at.x, v.at.y, target, BulletSpeed(v.rate), v.dmg, v.kind, ttl, false)
  }

  class Tower {
    const x: real
    const y: real
    const kind: TowerKind
    const def: TowerDef
    var cd: real
    var level: int
    /** The interval step's counter (`_tick`, created as 0 on first use). */
    var tick: int

    constructor (x: real, y: real, kind: TowerKind, def: TowerDef)
      ensures this.x == x && this.y == y && this.kind == kind && this.def == def
      ensures cd == 0.0 && level == 1 && tick == 0
    {
      this.x, this.y, this.kind, this.def := x, y, kind, def;
      cd := 0.0;
      level := 1;
      tick := 0;
    }

    function At(): Point
    {
      Point(x, y)
    }

    /** The tower as its shots see it, with the shared entry's current numbers. */
    function View(): (v: TowerView)
      reads def
      ensures v.at == At() && v.kind == kind && v.range == def.range && v.rate == def.rate && v.dmg == def.dmg
    {
      TowerView(At(), kind, def.range, def.rate, def.dmg)
    }

    /**
     * Tower.update(dt): cool down; once cool, aim at the enemy Pick chooses among those within
     * the entry's range and fire one bullet, restarting the cooldown at the entry's rate.
     */
    method Update(dt: real, es: seq<Enemy>, path: seq<Point>) returns (shot: Option<Bullet>)
        modifies this`cd
      ensures shot == old(FrameShot(View(), cd, dt, Candidates(es, path), es))
      ensures cd == old(FrameCooldown(View(), cd, dt, Candidates(es, path), es))
    {
      ghost var v, cs := View(), Candidates(es, path);
      ghost var next := FrameCooldown(v, cd, dt, cs, es);
      ghost var fired := FrameShot(v, cd, dt, cs, es);
      if cd > 0.0 {
        cd := MaxReal(0.0, cd - dt * FRAMES_PER_SECOND);
      }
      shot := None;
      if cd <= 0.0 {
        var best := FurthestInRange(es, path, At(), def.range as real);
        if best != null {
          shot := Some(ShotAt(View(), best, FRAME_BULLET_TTL));
          cd := def.rate as real;
        }
      }
      assert shot == fired && cd == next;
    }

    /**
     * One tower's turn in the 80 ms interval step: count a tick; once the count reaches the
     * entry's rate, reset it and fire at the enemy Pick chooses, if any.
     */
    method IntervalFire(es: seq<Enemy>, path: seq<Point>) returns (shot: Option<Bullet>)
        modifies this`tick
      ensures old(tick) + 1 < def.rate ==> tick == old(tick) + 1 && shot.None?
      ensures old(tick) + 1 >= def.rate ==> tick == 0
      ensures tick == NextTick(View(), old(tick))
      ensures old(tick) + 1 >= def.rate ==>
        match Pick(Candidates(es, path), At(), def.range as real)
        case None => shot.None?
        case Some(i) => shot == Some(ShotAt(View(), es[i], INTERVAL_BULLET_TTL))
      ensures shot == old(IntervalShot(View(), tick, Candidates(es, path), es))
    {
      ghost var fired := IntervalShot(View(), tick, Candidates(es, path), es);
      ghost var next := NextTick(View(), tick);
      tick := tick + 1;
      shot := None;
      if tick >= def.rate {
        tick := 0;
        var best := FurthestInRange(es, path, At(), def.range as real);
        if best != null {
          shot := Some(ShotAt(View(), best, INTERVAL_BULLET_TTL));
        }
      }
      assert shot == fired && tick == next;
    }
  }

  /** The bullet Tower.update fires when called with cooldown `cd`, given what the targeting loop sees. */
  function FrameShot(v: TowerView, cd: real, dt: real, cs: seq<Candidate>, es: seq<Enemy>): (shot: Option<Bullet>)
    requires |cs| == |es|
    ensures shot.Some? <==> Cooled(cd, dt) <= 0.0 && Pick(cs, v.at, v.range as real).Some?
    ensures shot.Some? ==> shot.value == ShotAt(v, es[Pick(cs, v.at, v.range as real).value], FRAME_BULLET_TTL)
    ensures shot.Some? ==> shot.value.target in es && !shot.value.dead && shot.value.ttl == FRAME_BULLET_TTL
  {
    if Cooled(cd, dt) > 0.0 then None
    else match Pick(cs, v.at, v.range as real)
      case None => None
      case Some(i) => Some(ShotAt(v, es[i], FRAME_BULLET_TTL))
  }

  /** A tower's cooldown after its Tower.update: restarted at the rate after a shot, else cooled. */
  function FrameCooldown(v: TowerView, cd: real, dt: real, cs: seq<Candidate>, es: seq<Enemy>): (r: real)
    requires |cs| == |es|
    ensures cd >= 0.0 && v.rate >= 0 ==> r >= 0.0
    ensures FrameShot(v, cd, dt, cs, es).Some? ==> r == v.rate as real
    ensures FrameShot(v, cd, dt, cs, es).None? ==> r == Cooled(cd, dt)
  {
    if FrameShot(v, cd, dt, cs, es).Some? then v.rate as real else Cooled(cd, dt)
  }

  /** A tower's interval counter after its turn: one more, or 0 once it reached the rate. */
  function NextTick(v: TowerView, tick: int): (r: int)
    ensures r == 0 || r == tick + 1
    ensures tick >= 0 && v.rate >= 1 ==> 0 <= r < v.rate
  {
    if tick + 1 < v.rate then tick + 1 else 0
  }

  /** The bullet the interval step fires for a tower whose counter stood at `tick`, if any. */
  function IntervalShot(v: TowerView, tick: int, cs: seq<Candidate>, es: seq<Enemy>): (shot: Option<Bullet>)
    requires |cs| == |es|
    ensures shot.Some? <==> tick + 1 >= v.rate && Pick(cs, v.at, v.range as real).Some?
    ensures shot.Some? ==> shot.value == ShotAt(v, es[Pick(cs, v.at, v.range as real).value], INTERVAL_BULLET_TTL)
    ensures shot.Some? ==> shot.value.target in es && !shot.value.dead && shot.value.ttl == INTERVAL_BULLET_TTL
  {
    if tick + 1 < v.rate then None
    else match Pick(cs, v.at, v.range as real)
      case None => None
      case Some(i) => Some(ShotAt(v, es[i], INTERVAL_BULLET_TTL))
  }

  /**
   * The hit test of the bullet pass against the target's current position: the distance, or
   * 1 when it is 0, is at most speed * dt * 60. With `hypot` a true square root this is the
   * square-free test Combat.BulletHits.
   */
  function Hits(b: Bullet, tp: Point, dt: real, hypot: (real, real) -> real): (hit: bool)
    requires IsHypot(hypot)
    ensures hit <==> BulletHits(DistSq(tp, Point(b.x, b.y)), b.speed * dt * FRAMES_PER_SECOND)
  {
    var h := hypot(tp.x - b.x, tp.y - b.y);
    assert h >= 0.0 && h * h == DistSq(tp, Point(b.x, b.y));
    HitTestAgrees(h, DistSq(tp, Point(b.x, b.y)), b.speed * dt * FRAMES_PER_SECOND);
    (if h == 0.0 then 1.0 else h) <= b.speed * dt * FRAMES_PER_SECOND
  }

  /**
   * The rest of one bullet's turn: a bullet that missed moves `step` towards the target;
   * every bullet loses dt of lifetime, and is done when it hit or its lifetime ran out.
   */
  function Fly(b: Bullet, tp: Point, dt: real, hit: bool, hypot: (real, real) -> real): (r: Bullet)
    ensures r.target == b.target && r.speed == b.speed && r.dmg == b.dmg && r.kind == b.kind
    ensures r.ttl == b.ttl - dt
    ensures r.dead <==> b.dead || hit || b.ttl - dt <= 0.0
    ensures hit ==> r.x == b.x && r.y == b.y
  {
    var dx, dy := tp.x - b.x, tp.y - b.y;
    var h := hypot(dx, dy);
    var dist := if h == 0.0 then 1.0 else h;
    var step := b.speed * dt * FRAMES_PER_SECOND;
    var moved := if hit then b else b.(x := b.x + dx / dist * step, y := b.y + dy / dist * step);
    moved.(ttl := b.ttl - dt, dead := b.dead || hit || b.ttl - dt <= 0.0)
  }
}
