/**
 * The money side of game.js: the starting values of TOWER_DEFS, what a placement and an
 * upgrade cost, what a sale refunds, and how an upgrade rewrites range and damage.
 */
module Economy {
  import opened Basics
  import opened Combat

  /** The numbers of one TOWER_DEFS entry (colour and the unread `slow` field left out). */
  datatype DefStats = DefStats(cost: int, range: int, rate: int, dmg: int, upgradeCost: int)

  /** TOWER_DEFS as the page loads it. */
  function InitialDef(kind: TowerKind): (d: DefStats)
    ensures d.cost > 0 && d.range > 0 && d.rate > 0 && d.dmg > 0 && d.upgradeCost >= 10
  {
    match kind
    case Basic => DefStats(50, 110, 45, 22, 60)
    case Rapid => DefStats(80, 90, 14, 8, 80)
    case Slow => DefStats(90, 120, 80, 12, 90)
  }

  /** Money the game starts with, and lives. */
  const START_MONEY := 150
  const START_LIVES := 10

  /** JavaScript's Math.round: the nearest integer, halves rounded up. */
  function Round(x: real): (r: int)
    ensures x - 0.5 < r as real <= x + 0.5
  {
    (x + 0.5).Floor
  }

  /** Range after one upgrade: Math.round(range * 1.12). */
  function UpgradedRange(range: int): (r: int)
    ensures r == (112 * range + 50) / 100
  {
    assert range as real * 1.12 + 0.5 == (112 * range + 50) as real / 100 as real;
    FloorDiv(112 * range + 50, 100);
    Round(range as real * 1.12)
  }

  /** Damage after one upgrade: Math.round(dmg * 1.18). */
  function UpgradedDamage(dmg: int): (r: int)
    ensures r == (118 * dmg + 50) / 100
  {
    assert dmg as real * 1.18 + 0.5 == (118 * dmg + 50) as real / 100 as real;
    FloorDiv(118 * dmg + 50, 100);
    Round(dmg as real * 1.18)
  }

  /** An upgrade never lowers a non-negative stat, and raises any stat of at least 5 (range) or 3 (damage). */
  lemma UpgradeNeverWeakens(v: int)
    requires v >= 0
    ensures UpgradedRange(v) >= v && UpgradedDamage(v) >= v
    ensures v >= 5 ==> UpgradedRange(v) > v
    ensures v >= 3 ==> UpgradedDamage(v) > v
  {
    var vr := v as real;
    assert vr * 1.12 == vr + vr * 0.12;
    assert vr * 1.18 == vr + vr * 0.18;
  }

  /** The price of the next upgrade of a tower at `level`: upgradeCost * level. */
  function UpgradePrice(upgradeCost: int, level: int): (p: int)
    ensures upgradeCost >= 0 && level >= 1 ==> p >= upgradeCost
  {
    upgradeCost * level
  }

  /** Sale price: Math.floor(cost * 0.5) + (level - 1) * 10. */
  function Refund(cost: int, level: int): (r: int)
    ensures r == cost / 2 + 10 * (level - 1)
  {
    assert cost as real * 0.5 == cost as real / 2 as real;
    FloorDiv(cost, 2);
    (cost as real * 0.5).Floor + (level - 1) * 10
  }

  /** What a tower of `level` has cost its owner: the placement plus every upgrade it went through. */
  function Invested(cost: int, upgradeCost: int, level: int): int
    requires level >= 1
    decreases level
  {
    if level == 1 then cost else Invested(cost, upgradeCost, level - 1) + UpgradePrice(upgradeCost, level - 1)
  }

  /**
   * Selling never pays back more than was spent on the tower, and never takes money: with a
   * non-negative cost and upgrades of at least 10, the refund lies between 0 and the investment.
   */
  lemma {:induction false} RefundWithinInvestment(cost: int, upgradeCost: int, level: int)
    requires cost >= 0 && upgradeCost >= 10 && level >= 1
    ensures 0 <= Refund(cost, level) <= Invested(cost, upgradeCost, level)
    decreases level
  {
    if level == 1 {
      assert (cost as real * 0.5).Floor <= cost;
    } else {
      RefundWithinInvestment(cost, upgradeCost, level - 1);
      assert Refund(cost, level) == Refund(cost, level - 1) + 10;
      assert UpgradePrice(upgradeCost, level - 1) >= 10 by {
        assert upgradeCost * (level - 1) >= upgradeCost;
      }
    }
  }
}
