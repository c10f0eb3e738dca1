/**
 * The game state of game.js and everything that changes it: the menu and panel handlers
 * (start, pause, type select, place, select, upgrade, sell, next wave), one call of the
 * animation loop, and one firing round of the 80 ms interval.
 */
module Simulation {
  import opened Basics
  import opened PathModel
  import opened Combat
  import opened Economy
  import opened Entities

  /** Seconds between two spawns of a wave. */
  const SPAWN_GAP := 0.6

  /** Enemies in wave w: 6 + 2w. */
  function WaveSize(wave: int): (n: int)
    ensures wave >= 0 ==> n >= 6
    ensures n % 2 == 0
  {
    6 + 2 * wave
  }

  /** Hit points of an enemy spawned in wave w: 30 + floor(10w). */
  function SpawnHp(wave: int): (hp: int)
    ensures hp == 30 + 10 * wave
  {
    assert (wave as real * 10.0).Floor == 10 * wave;
    30 + (wave as real * 10.0).Floor
  }

  /** Speed of an enemy spawned in wave w: 0.035 + min(0.05, 0.003w), path fractions per second. */
  function SpawnSpeed(wave: int): (s: real)
    ensures wave >= 0 ==> 0.035 <= s <= 0.085
    ensures 0 <= wave <= 16 ==> s == 0.035 + wave as real * 0.003
  {
    0.035 + MinReal(0.05, wave as real * 0.003)
  }

  /** Later waves never field weaker or slower enemies. */
  lemma WavesGrowHarder(w1: int, w2: int)
    requires 0 <= w1 <= w2
    ensures SpawnHp(w1) < SpawnHp(w2) || w1 == w2
    ensures SpawnSpeed(w1) <= SpawnSpeed(w2)
    ensures WaveSize(w1) <= WaveSize(w2)
  {
    assert (w1 as real * 10.0).Floor == 10 * w1;
    assert (w2 as real * 10.0).Floor == 10 * w2;
  }

  /** The enemies the bullets chase. */
  function Targets(bs: seq<Bullet>): set<Enemy>
  {
    set i | 0 <= i < |bs| :: bs[i].target
  }

  /** What every enemy update of one loop call does, in list order, computed before any of them. */
  function Updates(es: seq<Enemy>, dt: real): (us: seq<EnemyUpdate>)
    reads es
    ensures |us| == |es|
    ensures forall i | 0 <= i < |es| :: us[i] == EnemyStep(es[i].State(), es[i].speed, dt)
  {
    if es == [] then [] else Updates(es[..|es| - 1], dt) + [EnemyStep(es[|es| - 1].State(), es[|es| - 1].speed, dt)]
  }

  function LeakCount(us: seq<EnemyUpdate>): (n: nat)
    ensures n <= |us|
  {
    if us == [] then 0 else LeakCount(us[..|us| - 1]) + (if us[|us| - 1].leaked then 1 else 0)
  }

  function KillCount(us: seq<EnemyUpdate>): (n: nat)
    ensures n <= |us|
  {
    if us == [] then 0 else KillCount(us[..|us| - 1]) + (if us[|us| - 1].killed then 1 else 0)
  }

  /** Which enemies outlive their update: those that neither leaked nor were killed. */
  function Outlives(us: seq<EnemyUpdate>): (keep: seq<bool>)
    ensures |keep| == |us|
    ensures forall i | 0 <= i < |us| :: keep[i] == !(us[i].leaked || us[i].killed)
  {
    seq(|us|, i requires 0 <= i < |us| => !(us[i].leaked || us[i].killed))
  }

  /** Whether each bullet hits this call, judged on the targets' positions before the bullet pass. */
  function HitMask(bs: seq<Bullet>, path: seq<Point>, dt: real, hypot: (real, real) -> real): (hits: seq<bool>)
    reads set i | 0 <= i < |bs| :: bs[i].target
    requires IsHypot(hypot)
    ensures |hits| == |bs|
    ensures forall i | 0 <= i < |bs| :: hits[i] == Hits(bs[i], PointOnPath(path, bs[i].target.t), dt, hypot)
  {
    seq(|bs|, i requires 0 <= i < |bs| reads set j | 0 <= j < |bs| :: bs[j].target =>
      Hits(bs[i], PointOnPath(path, bs[i].target.t), dt, hypot))
  }

  /** Every bullet after its turn of the bullet pass, before the dead ones are dropped. */
  function Flights(bs: seq<Bullet>, hits: seq<bool>, path: seq<Point>, dt: real, hypot: (real, real) -> real): (fs: seq<Bullet>)
    reads set i | 0 <= i < |bs| :: bs[i].target
    requires |hits| == |bs|
    ensures |fs| == |bs|
    ensures forall i | 0 <= i < |bs| :: fs[i] == Fly(bs[i], PointOnPath(path, bs[i].target.t), dt, hits[i], hypot)
  {
    seq(|bs|, i requires 0 <= i < |bs| reads set j | 0 <= j < |bs| :: bs[j].target =>
      Fly(bs[i], PointOnPath(path, bs[i].target.t), dt, hits[i], hypot))
  }

  /** The bullets that are not dead. */
  function NotDead(bs: seq<Bullet>): (keep: seq<bool>)
    ensures |keep| == |bs|
    ensures forall i | 0 <= i < |bs| :: keep[i] == !bs[i].dead
  {
    seq(|bs|, i requires 0 <= i < |bs| => !bs[i].dead)
  }

  /** Total damage the hitting bullets among `bs` deal to enemy e. */
  function DamageTo(bs: seq<Bullet>, hits: seq<bool>, e: Enemy): int
    requires |hits| == |bs|
  {
    if bs == [] then 0
    else
      var n := |bs| - 1;
      DamageTo(bs[..n], hits[..n], e) + (if hits[n] && bs[n].target == e then bs[n].dmg else 0)
  }

  /** Whether some hitting slow bullet among `bs` targets enemy e. */
  function SlowedBy(bs: seq<Bullet>, hits: seq<bool>, e: Enemy): bool
    requires |hits| == |bs|
  {
    if bs == [] then false
    else
      var n := |bs| - 1;
      SlowedBy(bs[..n], hits[..n], e) || (hits[n] && bs[n].target == e && bs[n].kind == Slow)
  }

  /** The bullets the first n towers fire in one frame's tower pass, given each tower's cooldown before it. */
  function FrameVolley(vs: seq<TowerView>, cds: seq<real>, dt: real, cs: seq<Candidate>, es: seq<Enemy>, n: nat): (bs: seq<Bullet>)
    requires |cds| == |vs| && |cs| == |es| && n <= |vs|
    ensures |bs| <= n
    ensures forall k | 0 <= k < |bs| :: bs[k].target in es && !bs[k].dead
  {
    if n == 0 then []
    else
      var shot := FrameShot(vs[n - 1], cds[n - 1], dt, cs, es);
      FrameVolley(vs, cds, dt, cs, es, n - 1) + (if shot.Some? then [shot.value] else [])
  }

  /** The bullets the first n towers fire in one interval round, given each tower's counter before it. */
  function IntervalVolley(vs: seq<TowerView>, ticks: seq<int>, cs: seq<Candidate>, es: seq<Enemy>, n: nat): (bs: seq<Bullet>)
    requires |ticks| == |vs| && |cs| == |es| && n <= |vs|
    ensures |bs| <= n
    ensures forall k | 0 <= k < |bs| :: bs[k].target in es && !bs[k].dead
  {
    if n == 0 then []
    else
      var shot := IntervalShot(vs[n - 1], ticks[n - 1], cs, es);
      IntervalVolley(vs, ticks, cs, es, n - 1) + (if shot.Some? then [shot.value] else [])
  }

  /** Every tower as its shots see it. */
  function Views(ts: seq<Tower>): (vs: seq<TowerView>)
    reads set t | t in ts :: t.def
    ensures |vs| == |ts| && forall i | 0 <= i < |ts| :: vs[i] == ts[i].View()
  {
    seq(|ts|, i requires 0 <= i < |ts| reads set t | t in ts :: t.def => ts[i].View())
  }

  function Cooldowns(ts: seq<Tower>): (cds: seq<real>)
    reads ts
    ensures |cds| == |ts| && forall i | 0 <= i < |ts| :: cds[i] == ts[i].cd
  {
    seq(|ts|, i requires 0 <= i < |ts| reads ts => ts[i].cd)
  }

  function Ticks(ts: seq<Tower>): (ticks: seq<int>)
    reads ts
    ensures |ticks| == |ts| && forall i | 0 <= i < |ts| :: ticks[i] == ts[i].tick
  {
    seq(|ts|, i requires 0 <= i < |ts| reads ts => ts[i].tick)
  }

  class Sim {
    /** The waypoints in pixels. */
    const path: seq<Point>
    /** The three TOWER_DEFS entries. */
    const basicDef: TowerDef
    const rapidDef: TowerDef
    const slowDef: TowerDef

    var money: int
    var lives: int
    var wave: int
    var running: bool
    var paused: bool
    var endless: bool

    var towers: seq<Tower>
    var enemies: seq<Enemy>
    var bullets: seq<Bullet>
    var spawning: bool
    var waveInProgress: bool
    var selectedType: Option<TowerKind>
    var selectedTower: Tower?

    var spawnTimer: real
    var toSpawn: int
    /** Timestamp of the previous loop call, in ms. */
    var last: real

    /** Every enemy this game has spawned: the ones on the field and the ones bullets still chase. */
    ghost var spawned: set<Enemy>

    function DefOf(kind: TowerKind): TowerDef
    {
      match kind
      case Basic => basicDef
      case Rapid => rapidDef
      case Slow => slowDef
    }

    /** The entries are the three kinds', with costs, rates and upgrade costs as in TOWER_DEFS. */
    predicate DefsOk()
    {
      && basicDef.kind == Basic && rapidDef.kind == Rapid && slowDef.kind == Slow
      && (forall k: TowerKind ::
            && DefOf(k).cost == InitialDef(k).cost
            && DefOf(k).rate == InitialDef(k).rate
            && DefOf(k).upgradeCost == InitialDef(k).upgradeCost)
    }

    ghost predicate TowersOk()
      reads this`towers, this`selectedTower, towers`level
    {
      && Distinct(towers)
      && (forall t | t in towers :: t.def == DefOf(t.kind) && t.level >= 1)
      && (selectedTower == null || selectedTower in towers)
    }

    ghost predicate EnemiesOk()
      reads this`enemies, this`bullets, this`spawned
    {
      && Distinct(enemies)
      && (forall e | e in enemies :: e in spawned)
      && (forall i | 0 <= i < |bullets| :: bullets[i].target in spawned)
    }

    /** Everything the game keeps true between two events, except that the enemy list holds no dead enemy. */
    ghost predicate Core()
      reads this, towers`level
    {
      && DefsOk()
      && money >= 0 && wave >= 0 && toSpawn >= 0
      && (spawning <==> toSpawn > 0)
      && (spawning ==> waveInProgress)
      && TowersOk()
      && EnemiesOk()
    }

    /** Every enemy in the list is alive: the dead are filtered out at the end of the enemy pass. */
    ghost predicate EnemiesAlive()
      reads this`enemies, enemies`dead
    {
      forall e | e in enemies :: !e.dead
    }

    /** Every bullet in the list is in flight: the spent ones are filtered out at the end of the bullet pass. */
    ghost predicate BulletsLive()
      reads this`bullets
    {
      forall i | 0 <= i < |bullets| :: !bullets[i].dead
    }

    ghost predicate Valid()
      reads this, towers`level, enemies`dead
    {
      Core() && EnemiesAlive() && BulletsLive()
    }

    /** The page load: 150 money, 10 lives, wave 0, nothing on the field, the loop not yet running. */
    constructor (path: seq<Point>, now: real)
      ensures Valid() && this.path == path && last == now
      ensures money == START_MONEY && lives == START_LIVES && wave == 0
      ensures !running && !paused && !endless
      ensures towers == [] && enemies == [] && bullets == []
      ensures !spawning && !waveInProgress && selectedType.None? && selectedTower == null
      ensures spawnTimer == 0.0 && toSpawn == 0
      ensures basicDef.Stats() == InitialDef(Basic) && rapidDef.Stats() == InitialDef(Rapid)
      ensures slowDef.Stats() == InitialDef(Slow)
    {
      this.path := path;
      basicDef := new TowerDef(Basic);
      rapidDef := new TowerDef(Rapid);
      slowDef := new TowerDef(Slow);
      money, lives, wave := START_MONEY, START_LIVES, 0;
      running, paused, endless := false, false, false;
      towers, enemies, bullets := [], [], [];
      spawning, waveInProgress := false, false;
      selectedType, selectedTower := None, null;
      spawnTimer, toSpawn := 0.0, 0;
      last := now;
      spawned := {};
    }

    /** The start button: run the loop, in endless mode when the toggle is checked. Nothing is reset. */
    method Start(endlessChecked: bool)
      requires Valid()
      modifies this`running, this`endless
      ensures Valid() && running && endless == endlessChecked
    {
      running := true;
      endless := endlessChecked;
    }

    /** The pause button. */
    method TogglePause()
      requires Valid()
      modifies this`paused
      ensures Valid() && paused == !old(paused)
    {
      paused := !paused;
    }

    /** A tower-select button. */
    method SelectType(kind: TowerKind)
      requires Valid()
      modifies this`selectedType
      ensures Valid() && selectedType == Some(kind)
    {
      selectedType := Some(kind);
    }

    /**
     * The double-click handler: with a type selected and enough money, a new tower of that
     * type is appended at (x, y) and its cost is paid; otherwise nothing changes.
     */
    method Place(x: real, y: real) returns (placed: bool)
      requires Valid()
      modifies this`towers, this`money
      ensures Valid()
      ensures placed <==> selectedType.Some? && old(money) >= DefOf(selectedType.value).cost
      ensures !placed ==> towers == old(towers) && money == old(money)
      ensures placed ==>
        && money == old(money) - DefOf(selectedType.value).cost
        && |towers| == |old(towers)| + 1 && towers[..|old(towers)|] == old(towers)
        && fresh(towers[|old(towers)|])
        && towers[|old(towers)|].At() == Point(x, y) && towers[|old(towers)|].kind == selectedType.value
        && towers[|old(towers)|].level == 1 && towers[|old(towers)|].cd == 0.0 && towers[|old(towers)|].tick == 0
    {
      placed := false;
      if selectedType.None? {
        return;
      }
      var def := DefOf(selectedType.value);
      if money < def.cost {
        return;
      }
      var t := new Tower(x, y, selectedType.value, def);
      towers := towers + [t];
      money := money - def.cost;
      placed := true;
    }

    /** The click handler: the first tower closer than 18 to (x, y) is selected, or none. */
    method Select(x: real, y: real)
      requires Valid()
      modifies this`selectedTower
      ensures Valid()
      ensures selectedTower == null <==> forall t | t in towers :: !StrictlyWithin(t.At(), Point(x, y), 18.0)
      ensures selectedTower != null ==>
        exists i | 0 <= i < |towers| :: towers[i] == selectedTower
          && StrictlyWithin(towers[i].At(), Point(x, y), 18.0)
          && forall j | 0 <= j < i :: !StrictlyWithin(towers[j].At(), Point(x, y), 18.0)
    {
      var found := FirstTowerWithin(towers, Point(x, y), 18.0);
      selectedTower := if found.Some? then towers[found.value] else null;
    }

    /**
     * The upgrade button: with a tower selected and enough money for upgradeCost * level, pay,
     * raise the level by one and rewrite range and damage on the shared entry, which changes
     * every tower of that kind. Otherwise nothing changes.
     */
    method Upgrade() returns (upgraded: bool)
      requires Valid()
      modifies this`money, selectedTower, if selectedTower == null then null else selectedTower.def
      ensures Valid()
      ensures upgraded <==>
        (old(selectedTower) != null
         && old(money) >= UpgradePrice(old(selectedTower.def.upgradeCost), old(selectedTower.level)))
      ensures !upgraded ==> money == old(money)
      ensures !upgraded && selectedTower != null ==>
        && selectedTower.level == old(selectedTower.level)
        && selectedTower.def.range == old(selectedTower.def.range)
        && selectedTower.def.dmg == old(selectedTower.def.dmg)
      ensures upgraded ==> var t := selectedTower;
        && money == old(money) - UpgradePrice(t.def.upgradeCost, old(t.level))
        && t.level == old(t.level) + 1
        && t.def.range == UpgradedRange(old(t.def.range)) && t.def.dmg == UpgradedDamage(old(t.def.dmg))
        && (forall u | u in towers && u.kind == t.kind :: u.def.range == t.def.range && u.def.dmg == t.def.dmg)
        && (forall u | u in towers && u != t :: u.level == old(u.level) && u.cd == old(u.cd))
      ensures selectedTower == old(selectedTower) && towers == old(towers)
      ensures selectedTower != null ==> selectedTower.cd == old(selectedTower.cd) && selectedTower.tick == old(selectedTower.tick)
    {
      upgraded := false;
      var t := selectedTower;
      if t == null {
        return;
      }
      var cost := t.def.upgradeCost * t.level;
      if money < cost {
        return;
      }
      money := money - cost;
      t.level := t.level + 1;
      t.def.range := Round(t.def.range as real * 1.12);
      t.def.dmg := Round(t.def.dmg as real * 1.18);
      upgraded := true;
    }

    /**
     * The sell button: with a tower selected, credit floor(cost / 2) + 10 per upgrade, take that
     * tower (its first occurrence) out of the list keeping the others in order, and close the panel.
     */
    method Sell() returns (sold: bool)
      requires Valid()
      modifies this`money, this`towers, this`selectedTower
      ensures Valid()
      ensures sold <==> old(selectedTower) != null
      ensures !sold ==> money == old(money) && towers == old(towers)
      ensures sold ==> var t := old(selectedTower);
        && money == old(money) + Refund(t.def.cost, t.level)
        && money >= old(money)
        && t !in towers
        && exists i | 0 <= i < |old(towers)| :: old(towers)[i] == t && towers == old(towers)[..i] + old(towers)[i + 1..]
      ensures selectedTower == null
    {
      var t := selectedTower;
      sold := t != null;
      if t == null {
        return;
      }
      RefundWithinInvestment(t.def.cost, t.def.upgradeCost, t.level);
      money := money + Refund(t.def.cost, t.level);
      var i := IndexOf(towers, t);
      if i >= 0 {
        RemoveKeepsDistinct(towers, i);
        towers := towers[..i] + towers[i + 1..];
      }
      selectedTower := null;
    }

    /**
     * The next-wave button (and the endless-mode timer): ignored while a wave is in progress;
     * otherwise the wave number goes up by one and 6 + 2 * wave enemies are queued.
     */
    method StartWave()
      requires Valid()
      modifies this`wave, this`toSpawn, this`spawnTimer, this`spawning, this`waveInProgress
      ensures Valid()
      ensures old(waveInProgress) ==>
        && wave == old(wave) && toSpawn == old(toSpawn)
        && spawnTimer == old(spawnTimer) && spawning == old(spawning) && waveInProgress
      ensures !old(waveInProgress) ==>
        && wave == old(wave) + 1 && toSpawn == WaveSize(wave)
        && spawnTimer == 0.0 && spawning && waveInProgress
    {
      if waveInProgress {
        return;
      }
      wave := wave + 1;
      toSpawn := 6 + wave * 2;
      spawnTimer := 0.0;
      spawning := true;
      waveInProgress := true;
    }

    /** The spawn step of the loop: while spawning, one enemy each time the spawn timer runs out. */
    method SpawnPhase(dt: real)
      requires Valid()
      modifies this`spawnTimer, this`toSpawn, this`spawning, this`enemies, this`spawned
      ensures Valid()
      ensures old(spawning) && old(spawnTimer) - dt <= 0.0 ==>
        && toSpawn == old(toSpawn) - 1 && spawnTimer == SPAWN_GAP
        && |enemies| == |old(enemies)| + 1 && enemies[..|old(enemies)|] == old(enemies)
        && fresh(enemies[|old(enemies)|]) && spawned == old(spawned) + {enemies[|old(enemies)|]}
        && enemies[|old(enemies)|].t == 0.0 && enemies[|old(enemies)|].hp == SpawnHp(wave)
        && enemies[|old(enemies)|].maxHp == SpawnHp(wave) && enemies[|old(enemies)|].speed == SpawnSpeed(wave)
        && enemies[|old(enemies)|].slowTimer == 0.0 && !enemies[|old(enemies)|].dead
      ensures !(old(spawning) && old(spawnTimer) - dt <= 0.0) ==>
        && enemies == old(enemies) && toSpawn == old(toSpawn) && spawned == old(spawned)
        && spawnTimer == (if old(spawning) then old(spawnTimer) - dt else old(spawnTimer))
      ensures spawning == (toSpawn > 0)
    {
      if spawning && toSpawn > 0 {
        spawnTimer := spawnTimer - dt;
        if spawnTimer <= 0.0 {
          var hp := 30 + (wave as real * 10.0).Floor;
          var spd := 0.035 + MinReal(0.05, wave as real * 0.003);
          var e := new Enemy(hp, spd);
          enemies := enemies + [e];
          spawned := spawned + {e};
          toSpawn := toSpawn - 1;
          spawnTimer := SPAWN_GAP;
        }
        if toSpawn <= 0 {
          spawning := false;
        }
      }
    }

    /**
     * The enemy loop of the animation loop: every enemy updates once, in list order; each leak
     * costs a life and each kill pays KILL_REWARD.
     */
    method AdvanceEnemies(dt: real) returns (ghost us: seq<EnemyUpdate>)
      requires Valid() && dt >= 0.0
      modifies this`lives, this`money, enemies
      ensures Core() && BulletsLive() && enemies == old(enemies)
      ensures us == old(Updates(enemies, dt))
      ensures lives == old(lives) - LeakCount(us)
      ensures money == old(money) + KILL_REWARD * KillCount(us)
      ensures forall i | 0 <= i < |enemies| ::
        && enemies[i].t == us[i].t && enemies[i].slowTimer == us[i].slowTimer && enemies[i].hp == old(enemies[i].hp)
        && enemies[i].dead == (us[i].leaked || us[i].killed)
    {
      ghost var olds, deads := States(enemies), Deads(enemies);
      us := Updates(enemies, dt);
      var leaks, kills := UpdateAll(enemies, dt, us, olds, deads);
      lives, money := lives - leaks, money + KILL_REWARD * kills;
    }

    /** The filter that ends the enemy pass: the dead enemies leave the list, the others keep their order. */
    method SweepDead()
      requires Core() && BulletsLive()
      modifies this`enemies
      ensures Valid()
      ensures enemies == Survivors(old(enemies))
    {
      enemies := Survivors(enemies);
    }

    /** The tower pass of the loop: every tower runs Tower.update in list order; shots are appended. */
    method UpdateTowers(dt: real)
      requires Valid()
      modifies this`bullets, towers`cd
      ensures Valid()
      ensures bullets == old(bullets + FrameVolley(Views(towers), Cooldowns(towers), dt, Candidates(enemies, path), enemies, |towers|))
      ensures forall i | 0 <= i < |towers| ::
        towers[i].cd == FrameCooldown(old(towers[i].View()), old(towers[i].cd), dt, old(Candidates(enemies, path)), old(enemies))
    {
      ghost var vs, cds, cs := Views(towers), Cooldowns(towers), Candidates(enemies, path);
      var shots := FireFrame(towers, dt, enemies, path, vs, cds, cs);
      AppendShots(shots);
    }

    /** New bullets join the end of the list. */
    method AppendShots(shots: seq<Bullet>)
      requires Valid()
      requires forall k | 0 <= k < |shots| :: shots[k].target in enemies && !shots[k].dead
      modifies this`bullets
      ensures Valid() && bullets == old(bullets) + shots
    {
      bullets := bullets + shots;
    }

    /**
     * The bullet loop of the animation loop. Each bullet is judged against its target's position
     * (which the pass does not move); a hit takes the bullet's damage off the target, and a slow
     * bullet raises the target's slow timer to at least SLOW_SECONDS. Every bullet loses dt of
     * lifetime and is marked dead once it hit or ran out.
     */
    method FlyBullets(dt: real, hypot: (real, real) -> real)
      requires Valid() && IsHypot(hypot)
      modifies this`bullets, Targets(bullets)`hp, Targets(bullets)`slowTimer
      ensures Core() && EnemiesAlive()
      ensures bullets == old(Flights(bullets, HitMask(bullets, path, dt, hypot), path, dt, hypot))
      ensures forall e | e in old(Targets(bullets)) ::
        && e.hp == old(e.hp) - DamageTo(old(bullets), old(HitMask(bullets, path, dt, hypot)), e)
        && e.slowTimer == (if SlowedBy(old(bullets), old(HitMask(bullets, path, dt, hypot)), e)
                           then MaxReal(old(e.slowTimer), SLOW_SECONDS) else old(e.slowTimer))
    {
      ghost var was := TargetStates(bullets);
      ghost var hits := HitMask(bullets, path, dt, hypot);
      var flown := FlyAll(bullets, path, dt, hypot, was, hits);
      bullets := flown;
    }

    /** The filter that ends the bullet pass: the dead bullets leave the list, the others keep their order. */
    method SweepBullets()
      requires Core() && EnemiesAlive()
      modifies this`bullets
      ensures Valid()
      ensures bullets == Keep(old(bullets), NotDead(old(bullets)))
    {
      var live := Keep(bullets, NotDead(bullets));
      forall k | 0 <= k < |live| ensures live[k].target in spawned && !live[k].dead {
        assert live[k] in live;
        var j :| 0 <= j < |bullets| && bullets[j] == live[k] && NotDead(bullets)[j];
      }
      bullets := live;
    }

    /** The enemy pass and its filter: leaks cost lives, kills pay, and the dead leave the list. */
    method EnemyPhase(dt: real) returns (ghost us: seq<EnemyUpdate>)
      requires Valid() && dt >= 0.0
      modifies this`lives, this`money, this`enemies, enemies
      ensures Valid()
      ensures us == old(Updates(enemies, dt))
      ensures lives == old(lives) - LeakCount(us) && money == old(money) + KILL_REWARD * KillCount(us)
      ensures enemies == Keep(old(enemies), Outlives(us))
    {
      us := AdvanceEnemies(dt);
      assert Living(enemies) == Outlives(us);
      SweepDead();
    }

    /** The tower pass and the bullet pass of one frame, each followed by its filter. */
    method CombatPhase(dt: real, hypot: (real, real) -> real)
      requires Valid() && IsHypot(hypot)
      modifies this`bullets, towers`cd, spawned`hp, spawned`slowTimer
      ensures Valid()
    {
      UpdateTowers(dt);
      FlyBullets(dt, hypot);
      SweepBullets();
    }

    /** The body of a running, unpaused frame before the wave-end checks: spawn, enemies, towers, bullets. */
    method Step(dt: real, hypot: (real, real) -> real)
      requires Valid() && dt >= 0.0 && IsHypot(hypot)
      modifies this`spawnTimer, this`toSpawn, this`spawning, this`enemies, this`spawned
      modifies this`lives, this`money, this`bullets, spawned, towers`cd
      ensures Valid()
      ensures lives <= old(lives) && money >= old(money)
      ensures old(toSpawn) - 1 <= toSpawn <= old(toSpawn)
    {
      SpawnPhase(dt);
      Fight(dt, hypot);
    }

    /** The enemy pass, then the tower and bullet passes: lives only fall and money only rises. */
    method Fight(dt: real, hypot: (real, real) -> real)
      requires Valid() && dt >= 0.0 && IsHypot(hypot)
      modifies this`lives, this`money, this`enemies, this`bullets, enemies, towers`cd, spawned`hp, spawned`slowTimer
      ensures Valid()
      ensures lives <= old(lives) && money >= old(money)
    {
      ghost var us := EnemyPhase(dt);
      CombatPhase(dt, hypot);
    }

    /**
     * One call of the animation loop at timestamp `now` (ms). The frame time is clamped and the
     * timestamp kept even when the game is stopped or paused, in which case nothing else happens.
     * Otherwise: spawn, enemy pass, tower pass, bullet pass, then the wave-end and game-over
     * checks. In endless mode the end of a wave schedules the next one (`nextWaveScheduled`),
     * which the caller runs as StartWave 900 ms later.
     */
    method Loop(now: real, hypot: (real, real) -> real) returns (nextWaveScheduled: bool)
      requires Valid() && IsHypot(hypot)
      requires running && !paused ==> now >= last
      modifies this, towers, spawned
      ensures Valid() && last == now
      ensures paused == old(paused) && endless == old(endless)
      ensures selectedType == old(selectedType) && selectedTower == old(selectedTower)
      ensures !old(running) || old(paused) ==>
        && spawned == old(spawned) && unchanged(old(towers)) && unchanged(old(spawned))
        && !nextWaveScheduled
        && money == old(money) && lives == old(lives) && wave == old(wave) && running == old(running)
        && towers == old(towers) && enemies == old(enemies) && bullets == old(bullets)
        && spawning == old(spawning) && waveInProgress == old(waveInProgress)
        && spawnTimer == old(spawnTimer) && toSpawn == old(toSpawn)
      ensures old(running) && !old(paused) ==>
        && wave == old(wave) && towers == old(towers)
        && lives <= old(lives) && money >= old(money)
        && old(toSpawn) - 1 <= toSpawn <= old(toSpawn)
        && (waveInProgress ==> old(waveInProgress))
        && (old(waveInProgress) && !waveInProgress ==> !spawning && enemies == [])
        && (nextWaveScheduled <==> endless && old(waveInProgress) && !waveInProgress)
        && (!spawning && enemies == [] ==> !waveInProgress)
        && (running <==> lives > 0)
    {
      var dt := FrameDelta(now, last);
      last := now;
      nextWaveScheduled := false;
      if !running || paused {
        return;
      }
      nextWaveScheduled := Frame(dt, hypot);
    }

    /** A frame of a running, unpaused game: the four passes, then the wave-end and game-over checks. */
    method Frame(dt: real, hypot: (real, real) -> real) returns (nextWaveScheduled: bool)
      requires Valid() && running && dt >= 0.0 && IsHypot(hypot)
      modifies this`spawnTimer, this`toSpawn, this`spawning, this`enemies, this`spawned
      modifies this`lives, this`money, this`bullets, this`waveInProgress, this`running, spawned, towers`cd
      ensures Valid()
      ensures lives <= old(lives) && money >= old(money)
      ensures old(toSpawn) - 1 <= toSpawn <= old(toSpawn)
      ensures waveInProgress ==> old(waveInProgress)
      ensures old(waveInProgress) && !waveInProgress ==> !spawning && enemies == []
      ensures nextWaveScheduled <==> endless && old(waveInProgress) && !waveInProgress
      ensures !spawning && enemies == [] ==> !waveInProgress
      ensures running <==> lives > 0
    {
      Step(dt, hypot);
      nextWaveScheduled := false;
      if !spawning && |enemies| == 0 && waveInProgress {
        waveInProgress := false;
        if endless {
          nextWaveScheduled := true;
        }
      }
      if lives <= 0 {
        running := false;
      }
    }

    /**
     * One round of the 80 ms interval: every tower counts a tick and, on reaching its rate,
     * fires at the enemy Pick chooses. It runs whether or not the game is running or paused.
     */
    method FireInterval()
      requires Valid()
      modifies this`bullets, towers`tick
      ensures Valid()
      ensures bullets == old(bullets + IntervalVolley(Views(towers), Ticks(towers), Candidates(enemies, path), enemies, |towers|))
      ensures forall i | 0 <= i < |towers| :: towers[i].tick == NextTick(old(towers[i].View()), old(towers[i].tick))
    {
      ghost var vs, ticks, cs := Views(towers), Ticks(towers), Candidates(enemies, path);
      var shots := FireRound(towers, enemies, path, vs, ticks, cs);
      AppendShots(shots);
    }
  }

  /** Every enemy's progress, hit points and slow timer. */
  function States(es: seq<Enemy>): (ss: seq<EnemyState>)
    reads es
    ensures |ss| == |es| && forall i | 0 <= i < |es| :: ss[i] == es[i].State()
  {
    seq(|es|, i requires 0 <= i < |es| reads es => es[i].State())
  }

  /** Which enemies are not dead. */
  function Living(es: seq<Enemy>): (keep: seq<bool>)
    reads es
    ensures |keep| == |es| && forall i | 0 <= i < |es| :: keep[i] == !es[i].dead
  {
    seq(|es|, i requires 0 <= i < |es| reads es => !es[i].dead)
  }

  /** The filter after the enemy pass: the enemies that are not dead, in order. */
  function Survivors(es: seq<Enemy>): (r: seq<Enemy>)
    reads es
    requires Distinct(es)
    ensures r == Keep(es, Living(es))
    ensures Distinct(r)
    ensures forall e | e in r :: e in es && !e.dead
    ensures forall i | 0 <= i < |es| :: es[i] in r <==> !es[i].dead
  {
    var alive := Living(es);
    KeepDistinct(es, alive);
    forall i | 0 <= i < |es| && !alive[i] ensures es[i] !in Keep(es, alive) {
      KeepDrops(es, alive, i);
    }
    Keep(es, alive)
  }

  /** Every enemy's dead flag. */
  function Deads(es: seq<Enemy>): (ds: seq<bool>)
    reads es
    ensures |ds| == |es| && forall i | 0 <= i < |es| :: ds[i] == es[i].dead
  {
    seq(|es|, i requires 0 <= i < |es| reads es => es[i].dead)
  }

  /** Where the enemy pass stands once the first i enemies have updated. */
  /** What the enemy pass will do, fixed before it starts: enemy j's update is EnemyStep of its old state. */
  ghost predicate EnemyPlan(es: seq<Enemy>, dt: real, us: seq<EnemyUpdate>, olds: seq<EnemyState>, deads: seq<bool>)
  {
    && |us| == |es| && |olds| == |es| && |deads| == |es|
    && forall j | 0 <= j < |es| :: us[j] == EnemyStep(olds[j], es[j].speed, dt)
  }

  ghost predicate EnemyPassAt(es: seq<Enemy>, dt: real, us: seq<EnemyUpdate>, olds: seq<EnemyState>, deads: seq<bool>,
                              i: nat, leaks: nat, kills: nat)
    reads es
    requires EnemyPlan(es, dt, us, olds, deads)
  {
    && i <= |es|
    && leaks == LeakCount(us[..i]) && kills == KillCount(us[..i])
    && (forall j | 0 <= j < i ::
          && es[j].t == us[j].t && es[j].slowTimer == us[j].slowTimer && es[j].hp == olds[j].hp
          && es[j].dead == (deads[j] || us[j].leaked || us[j].killed))
    && (forall j | i <= j < |es| :: es[j].State() == olds[j] && es[j].dead == deads[j])
  }

  /** Enemy i's turn in the enemy pass: Enemy.update, and its leak and kill counted. */
  method EnemyTurn(es: seq<Enemy>, i: nat, e: Enemy, dt: real,
                   ghost us: seq<EnemyUpdate>, ghost olds: seq<EnemyState>, ghost deads: seq<bool>, leaks: nat, kills: nat)
    returns (leaks': nat, kills': nat)
    requires Distinct(es) && i < |es| && e == es[i] && dt >= 0.0
    requires EnemyPlan(es, dt, us, olds, deads)
    requires EnemyPassAt(es, dt, us, olds, deads, i, leaks, kills)
    modifies e
    ensures EnemyPassAt(es, dt, us, olds, deads, i + 1, leaks', kills')
  {
    var leaked, killed := e.Update(dt);
    leaks' := if leaked then leaks + 1 else leaks;
    kills' := if killed then kills + 1 else kills;
    assert us[..i + 1][..i] == us[..i];
  }

  /**
   * The loop over the enemy list: Enemy.update on each, in order, against what the enemies
   * were (olds, deads) when the pass began. The lives and money it takes and pays are counted
   * and returned; nothing reads them during the pass.
   */
  method UpdateAll(es: seq<Enemy>, dt: real, ghost us: seq<EnemyUpdate>, ghost olds: seq<EnemyState>, ghost deads: seq<bool>)
    returns (leaks: nat, kills: nat)
    requires Distinct(es)
    requires dt >= 0.0 && olds == States(es) && deads == Deads(es) && us == Updates(es, dt)
    modifies es
    ensures leaks == LeakCount(us) && kills == KillCount(us)
    ensures forall i | 0 <= i < |es| ::
      && es[i].t == us[i].t && es[i].slowTimer == us[i].slowTimer && es[i].hp == olds[i].hp
      && es[i].dead == (deads[i] || us[i].leaked || us[i].killed)
  {
    leaks, kills := 0, 0;
    var i := 0;
    assert EnemyPlan(es, dt, us, olds, deads);
    while i < |es|
      invariant EnemyPassAt(es, dt, us, olds, deads, i, leaks, kills)
    {
      leaks, kills := EnemyTurn(es, i, es[i], dt, us, olds, deads, leaks, kills);
      i := i + 1;
    }
    assert us[..|es|] == us;
  }

  /** Where the frame's tower pass stands once the first i towers have had their turn. */
  ghost predicate FramePassAt(ts: seq<Tower>, dt: real, es: seq<Enemy>, path: seq<Point>,
                              vs: seq<TowerView>, cds: seq<real>, cs: seq<Candidate>, i: nat, shots: seq<Bullet>)
    reads ts, set t | t in ts :: t.def, es
  {
    && i <= |ts| && |vs| == |ts| && |cds| == |ts| && |cs| == |es|
    && Views(ts) == vs && Candidates(es, path) == cs
    && shots == FrameVolley(vs, cds, dt, cs, es, i)
    && (forall j | 0 <= j < i :: ts[j].cd == FrameCooldown(vs[j], cds[j], dt, cs, es))
    && (forall j | i <= j < |ts| :: ts[j].cd == cds[j])
  }

  /** Tower i's turn in the frame's tower pass: Tower.update, and its shot appended. */
  method FrameTurn(ts: seq<Tower>, i: nat, t: Tower, dt: real, es: seq<Enemy>, path: seq<Point>,
                   ghost vs: seq<TowerView>, ghost cds: seq<real>, ghost cs: seq<Candidate>, shots: seq<Bullet>)
    returns (shots': seq<Bullet>)
    requires Distinct(ts) && i < |ts| && t == ts[i]
    requires FramePassAt(ts, dt, es, path, vs, cds, cs, i, shots)
    modifies t`cd
    ensures FramePassAt(ts, dt, es, path, vs, cds, cs, i + 1, shots')
  {
    assert t.View() == vs[i] && t.cd == cds[i];
    var shot := t.Update(dt, es, path);
    shots' := if shot.Some? then shots + [shot.value] else shots;
    assert shots' == FrameVolley(vs, cds, dt, cs, es, i + 1);
    forall j | 0 <= j < |ts| && j != i ensures ts[j].cd == old(ts[j].cd) {
      assert ts[j] != t;
    }
  }

  /**
   * The loop over the tower list in the animation loop: Tower.update on each, in order,
   * judged on what the towers and enemies were (vs, cds, cs) when the pass began.
   */
  method FireFrame(ts: seq<Tower>, dt: real, es: seq<Enemy>, path: seq<Point>,
                   ghost vs: seq<TowerView>, ghost cds: seq<real>, ghost cs: seq<Candidate>)
    returns (shots: seq<Bullet>)
    requires Distinct(ts)
    requires vs == Views(ts) && cds == Cooldowns(ts) && cs == Candidates(es, path)
    modifies ts`cd
    ensures shots == FrameVolley(vs, cds, dt, cs, es, |ts|)
    ensures forall i | 0 <= i < |ts| :: ts[i].cd == FrameCooldown(vs[i], cds[i], dt, cs, es)
  {
    shots := [];
    var i := 0;
    while i < |ts|
      invariant FramePassAt(ts, dt, es, path, vs, cds, cs, i, shots)
    {
      shots := FrameTurn(ts, i, ts[i], dt, es, path, vs, cds, cs, shots);
      i := i + 1;
    }
  }

  /** Where the interval round stands once the first i towers have had their turn. */
  ghost predicate RoundAt(ts: seq<Tower>, es: seq<Enemy>, path: seq<Point>,
                          vs: seq<TowerView>, ticks: seq<int>, cs: seq<Candidate>, i: nat, shots: seq<Bullet>)
    reads ts, set t | t in ts :: t.def, es
  {
    && i <= |ts| && |vs| == |ts| && |ticks| == |ts| && |cs| == |es|
    && Views(ts) == vs && Candidates(es, path) == cs
    && shots == IntervalVolley(vs, ticks, cs, es, i)
    && (forall j | 0 <= j < i :: ts[j].tick == NextTick(vs[j], ticks[j]))
    && (forall j | i <= j < |ts| :: ts[j].tick == ticks[j])
  }

  /** Tower i's turn in the interval round: count, maybe fire, and the shot appended. */
  method RoundTurn(ts: seq<Tower>, i: nat, t: Tower, es: seq<Enemy>, path: seq<Point>,
                   ghost vs: seq<TowerView>, ghost ticks: seq<int>, ghost cs: seq<Candidate>, shots: seq<Bullet>)
    returns (shots': seq<Bullet>)
    requires Distinct(ts) && i < |ts| && t == ts[i]
    requires RoundAt(ts, es, path, vs, ticks, cs, i, shots)
    modifies t`tick
    ensures RoundAt(ts, es, path, vs, ticks, cs, i + 1, shots')
  {
    assert t.View() == vs[i] && t.tick == ticks[i];
    var shot := t.IntervalFire(es, path);
    shots' := if shot.Some? then shots + [shot.value] else shots;
    assert shots' == IntervalVolley(vs, ticks, cs, es, i + 1);
    forall j | 0 <= j < |ts| && j != i ensures ts[j].tick == old(ts[j].tick) {
      assert ts[j] != t;
    }
  }

  /** The loop over the tower list in the interval step. */
  method FireRound(ts: seq<Tower>, es: seq<Enemy>, path: seq<Point>,
                   ghost vs: seq<TowerView>, ghost ticks: seq<int>, ghost cs: seq<Candidate>)
    returns (shots: seq<Bullet>)
    requires Distinct(ts)
    requires vs == Views(ts) && ticks == Ticks(ts) && cs == Candidates(es, path)
    modifies ts`tick
    ensures shots == IntervalVolley(vs, ticks, cs, es, |ts|)
    ensures forall i | 0 <= i < |ts| :: ts[i].tick == NextTick(vs[i], ticks[i])
  {
    shots := [];
    var i := 0;
    while i < |ts|
      invariant RoundAt(ts, es, path, vs, ticks, cs, i, shots)
    {
      shots := RoundTurn(ts, i, ts[i], es, path, vs, ticks, cs, shots);
      i := i + 1;
    }
  }

  /** Progress, hit points and slow timer of every enemy a bullet chases. */
  function TargetStates(bs: seq<Bullet>): (was: map<Enemy, EnemyState>)
    reads set i | 0 <= i < |bs| :: bs[i].target
    ensures forall i | 0 <= i < |bs| :: bs[i].target in was
    ensures forall e | e in was :: e in Targets(bs) && was[e] == e.State()
  {
    map e | e in Targets(bs) :: e.State()
  }

  /**
   * Where the bullet pass stands once the first i bullets have flown: each target's hit points
   * and slow timer reflect the hits among those bullets, and nothing else has changed.
   */
  ghost predicate FlightAt(bs: seq<Bullet>, path: seq<Point>, dt: real, hypot: (real, real) -> real,
                           was: map<Enemy, EnemyState>, hits: seq<bool>, i: nat, flown: seq<Bullet>)
    reads was.Keys
    requires FlightPlan(bs, path, dt, hypot, was, hits)
  {
    && i <= |bs|
    && flown == FlownSoFar(bs, path, dt, hypot, was, hits, i)
    && (forall e | e in was :: e.t == was[e].t && TookHits(bs, hits, was, i, e))
  }

  /** The hit verdicts, judged on the targets' progress as snapshotted in `was`. */
  ghost predicate FlightPlan(bs: seq<Bullet>, path: seq<Point>, dt: real, hypot: (real, real) -> real,
                             was: map<Enemy, EnemyState>, hits: seq<bool>)
  {
    && IsHypot(hypot) && |hits| == |bs|
    && (forall j | 0 <= j < |bs| :: bs[j].target in was)
    && (forall e | e in was :: was[e].t >= 0.0)
    && (forall j | 0 <= j < |bs| ::
          hits[j] == Hits(bs[j], PointOnPath(path, was[bs[j].target].t), dt, hypot))
  }

  /** The bullet list once the first i bullets have had their flight. */
  ghost function FlownSoFar(bs: seq<Bullet>, path: seq<Point>, dt: real, hypot: (real, real) -> real,
                            was: map<Enemy, EnemyState>, hits: seq<bool>, i: nat): (flown: seq<Bullet>)
    requires FlightPlan(bs, path, dt, hypot, was, hits) && i <= |bs|
    ensures |flown| == |bs|
    ensures forall j | 0 <= j < i :: flown[j] == Fly(bs[j], PointOnPath(path, was[bs[j].target].t), dt, hits[j], hypot)
    ensures forall j | i <= j < |bs| :: flown[j] == bs[j]
  {
    seq(|bs|, j requires 0 <= j < |bs| =>
      if j < i then Fly(bs[j], PointOnPath(path, was[bs[j].target].t), dt, hits[j], hypot) else bs[j])
  }

  /** Enemy e has taken exactly the hits of the first i bullets. */
  ghost predicate TookHits(bs: seq<Bullet>, hits: seq<bool>, was: map<Enemy, EnemyState>, i: nat, e: Enemy)
    reads e
    requires |hits| == |bs| && i <= |bs| && e in was
  {
    && e.hp == was[e].hp - DamageTo(bs[..i], hits[..i], e)
    && e.slowTimer == (if SlowedBy(bs[..i], hits[..i], e) then MaxReal(was[e].slowTimer, SLOW_SECONDS) else was[e].slowTimer)
  }

  /** Bullet i's turn in the bullet pass. */
  method FlightTurn(bs: seq<Bullet>, i: nat, path: seq<Point>, dt: real, hypot: (real, real) -> real,
                    ghost was: map<Enemy, EnemyState>, ghost hits: seq<bool>, flown: seq<Bullet>)
    returns (flown': seq<Bullet>)
    requires i < |bs| && FlightPlan(bs, path, dt, hypot, was, hits)
    requires FlightAt(bs, path, dt, hypot, was, hits, i, flown)
    modifies bs[i].target`hp, bs[i].target`slowTimer
    ensures FlightAt(bs, path, dt, hypot, was, hits, i + 1, flown')
  {
    var b := bs[i];
    var tgt := b.target;
    var tp := tgt.Pos(path);
    var hit := Hits(b, tp, dt, hypot);
    if hit {
      tgt.hp := tgt.hp - b.dmg;
      if b.kind == Slow {
        tgt.slowTimer := MaxReal(tgt.slowTimer, SLOW_SECONDS);
      }
    }
    flown' := flown[i := Fly(b, tp, dt, hit, hypot)];
    assert bs[..i + 1][..i] == bs[..i];
    assert hits[..i + 1][..i] == hits[..i];
  }

  /**
   * The loop over the bullet list: each bullet's turn, in order, against the targets as they
   * were (was) when the pass began; the dead are dropped by the caller.
   */
  method FlyAll(bs: seq<Bullet>, path: seq<Point>, dt: real, hypot: (real, real) -> real,
                ghost was: map<Enemy, EnemyState>, ghost hits: seq<bool>)
    returns (flown: seq<Bullet>)
    requires IsHypot(hypot)
    requires was == TargetStates(bs) && hits == HitMask(bs, path, dt, hypot)
    modifies Targets(bs)`hp, Targets(bs)`slowTimer
    ensures flown == old(Flights(bs, hits, path, dt, hypot))
    ensures forall e | e in was ::
      && e.hp == was[e].hp - DamageTo(bs, hits, e)
      && e.slowTimer == (if SlowedBy(bs, hits, e) then MaxReal(was[e].slowTimer, SLOW_SECONDS) else was[e].slowTimer)
  {
    ghost var fs := Flights(bs, hits, path, dt, hypot);
    FlightStarts(bs, path, dt, hypot, was, hits, fs);
    flown := bs;
    var i := 0;
    while i < |bs|
      invariant FlightAt(bs, path, dt, hypot, was, hits, i, flown)
    {
      flown := FlightTurn(bs, i, path, dt, hypot, was, hits, flown);
      i := i + 1;
    }
    FlightEnds(bs, path, dt, hypot, was, hits, fs, flown);
  }

  /** Before the first bullet flies, the pass stands at its start, and the flights can be read off the snapshot. */
  lemma FlightStarts(bs: seq<Bullet>, path: seq<Point>, dt: real, hypot: (real, real) -> real,
                     was: map<Enemy, EnemyState>, hits: seq<bool>, fs: seq<Bullet>)
    requires IsHypot(hypot)
    requires was == TargetStates(bs) && hits == HitMask(bs, path, dt, hypot)
    requires fs == Flights(bs, hits, path, dt, hypot)
    ensures FlightPlan(bs, path, dt, hypot, was, hits)
    ensures FlightAt(bs, path, dt, hypot, was, hits, 0, bs)
    ensures |fs| == |bs| && forall j | 0 <= j < |bs| ::
      fs[j] == Fly(bs[j], PointOnPath(path, was[bs[j].target].t), dt, hits[j], hypot)
  {
    forall e | e in was ensures was[e].t >= 0.0 {
      var j :| 0 <= j < |bs| && bs[j].target == e;
    }
  }

  /** Once every bullet has flown, the flights are the snapshot's, and every target took exactly its hits. */
  lemma FlightEnds(bs: seq<Bullet>, path: seq<Point>, dt: real, hypot: (real, real) -> real,
                   was: map<Enemy, EnemyState>, hits: seq<bool>, fs: seq<Bullet>, flown: seq<Bullet>)
    requires FlightPlan(bs, path, dt, hypot, was, hits)
    requires FlightAt(bs, path, dt, hypot, was, hits, |bs|, flown)
    requires |fs| == |bs| && forall j | 0 <= j < |bs| ::
      fs[j] == Fly(bs[j], PointOnPath(path, was[bs[j].target].t), dt, hits[j], hypot)
    ensures flown == fs
    ensures forall e | e in was ::
      && e.hp == was[e].hp - DamageTo(bs, hits, e)
      && e.slowTimer == (if SlowedBy(bs, hits, e) then MaxReal(was[e].slowTimer, SLOW_SECONDS) else was[e].slowTimer)
  {
    assert bs[..|bs|] == bs;
    assert hits[..|bs|] == hits;
  }

  /** The selection loop of the click handler: the first tower strictly closer than r to p. */
  method FirstTowerWithin(ts: seq<Tower>, p: Point, r: real) returns (found: Option<nat>)
    ensures found.None? <==> forall t | t in ts :: !StrictlyWithin(t.At(), p, r)
    ensures found.Some? ==>
      && found.value < |ts| && StrictlyWithin(ts[found.value].At(), p, r)
      && forall j | 0 <= j < found.value :: !StrictlyWithin(ts[j].At(), p, r)
  {
    found := None;
    var i := 0;
    while i < |ts|
      invariant 0 <= i <= |ts|
      invariant forall j | 0 <= j < i :: !StrictlyWithin(ts[j].At(), p, r)
    {
      if StrictlyWithin(ts[i].At(), p, r) {
        found := Some(i);
        return;
      }
      i := i + 1;
    }
  }

  lemma RemoveKeepsDistinct<T>(xs: seq<T>, i: nat)
    requires i < |xs| && Distinct(xs)
    ensures Distinct(xs[..i] + xs[i + 1..])
    ensures xs[i] !in xs[..i] + xs[i + 1..]
    ensures forall x | x in xs[..i] + xs[i + 1..] :: x in xs
  {
    var r := xs[..i] + xs[i + 1..];
    assert forall k | 0 <= k < |r| :: r[k] == if k < i then xs[k] else xs[k + 1];
  }
}
