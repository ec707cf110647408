/** Towers and enemies: their construction from type data, the tower upgrade,
    the enemy's per-frame status-effect and movement steps, the lives table,
    soldiers, traps and paragon merging. */
module EntityFactories {
  import opened GameConstants
  import opened Geometry
  import opened GameLogic

  // =====================================================================
  // Towers

  /** What a tower has been paid for when it stands at `level`: its price
      and each upgrade, each charged at the level it was bought from. */
  function Paid(cost: nat, level: int): int
    decreases level
  {
    if level <= 1 then cost
    else Paid(cost, level - 1) + UpgradeCost(cost, level - 1, false)
  }

  /** The investment recorded by the container's inline tower, whose upgrade
      adds the cost of the level it has just reached. */
  function InlineInvestment(cost: nat, level: int): int
    decreases level
  {
    if level <= 1 then cost
    else InlineInvestment(cost, level - 1) + UpgradeCost(cost, level, false)
  }

  class Tower {
    const pos: Point
    const kind: string
    const config: TowerConfig
    const isParagon: bool
    var level: int
    var damage: real
    var range: real
    var cooldown: int
    var totalInvestment: int
    /** Set once a trap has gone off; nothing in the game sets it yet. */
    var used: bool

    predicate Valid()
      reads this`level, this`totalInvestment
    {
      level >= 1 && totalInvestment >= 0
    }

    /** The tower's recorded investment is exactly what was paid for it. */
    predicate PaidUp()
      reads this
    {
      !isParagon ==> totalInvestment == Paid(config.cost, level)
    }

    /** `createTower`. */
    constructor Create(p: Point, kind: string, config: TowerConfig)
      ensures this.pos == p && this.kind == kind && this.config == config
      ensures level == 1 && damage == config.damage && range == config.range
      ensures cooldown == 0 && !isParagon && totalInvestment == config.cost && !used
      ensures Valid() && PaidUp()
    {
      this.pos := p;
      this.kind := kind;
      this.config := config;
      this.isParagon := false;
      level := 1;
      damage := config.damage;
      range := config.range;
      cooldown := 0;
      totalInvestment := config.cost;
      used := false;
    }

    /** `createParagonTower`: tower1's fields, moved to the centroid of the
        three, restarted at level 1 with 5x damage and 1.5x range, holding
        the investment of all three. */
    constructor Merge(t1: Tower, t2: Tower, t3: Tower)
      requires t1.Valid() && t2.Valid() && t3.Valid()
      ensures pos == Point((t1.pos.x + t2.pos.x + t3.pos.x) / 3.0, (t1.pos.y + t2.pos.y + t3.pos.y) / 3.0)
      ensures kind == t1.kind && config == t1.config && cooldown == t1.cooldown && used == t1.used
      ensures level == 1 && isParagon
      ensures damage == t1.damage * ParagonDamageMultiplier && range == t1.range * ParagonRangeMultiplier
      ensures totalInvestment == t1.totalInvestment + t2.totalInvestment + t3.totalInvestment
      ensures Valid()
    {
      pos := Point((t1.pos.x + t2.pos.x + t3.pos.x) / 3.0, (t1.pos.y + t2.pos.y + t3.pos.y) / 3.0);
      kind := t1.kind;
      config := t1.config;
      isParagon := true;
      level := 1;
      damage := t1.damage * ParagonDamageMultiplier;
      range := t1.range * ParagonRangeMultiplier;
      cooldown := t1.cooldown;
      totalInvestment := t1.totalInvestment + t2.totalInvestment + t3.totalInvestment;
      used := t1.used;
    }

    /** `{...tower}`: a new object with the same fields. */
    constructor Copy(t: Tower)
      ensures pos == t.pos && kind == t.kind && config == t.config && isParagon == t.isParagon
      ensures level == t.level && damage == t.damage && range == t.range && cooldown == t.cooldown
      ensures totalInvestment == t.totalInvestment && used == t.used
    {
      pos := t.pos;
      kind := t.kind;
      config := t.config;
      isParagon := t.isParagon;
      level := t.level;
      damage := t.damage;
      range := t.range;
      cooldown := t.cooldown;
      totalInvestment := t.totalInvestment;
      used := t.used;
    }

    /** `getUpgradeCost`. */
    function CurrentUpgradeCost(): int
      reads this
    {
      UpgradeCost(config.cost, level, isParagon)
    }

    /** `getSellValue`. */
    function CurrentSellValue(): int
      reads this
    {
      SellValue(totalInvestment)
    }

    /** `upgrade` of `createTower`: nothing for a paragon; otherwise one level
        up, damage x1.4, range x1.1, and the investment grows by the cost
        charged for this upgrade (taken before the level changes). */
    method Upgrade()
      modifies this
      ensures isParagon ==> level == old(level) && damage == old(damage) && range == old(range)
                            && totalInvestment == old(totalInvestment)
      ensures !isParagon ==> level == old(level) + 1
                             && damage == old(damage) * UpgradeDamageMultiplier
                             && range == old(range) * UpgradeRangeMultiplier
                             && totalInvestment == old(totalInvestment) + old(CurrentUpgradeCost())
      ensures cooldown == old(cooldown) && used == old(used)
      ensures old(Valid()) ==> Valid()
      ensures old(Valid() && PaidUp()) ==> PaidUp()
      ensures old(level) >= 0 ==> CurrentSellValue() >= old(CurrentSellValue())
    {
      if isParagon {
        return;
      }
      var cost := CurrentUpgradeCost();
      if level >= 0 {
        assert config.cost * level >= 0;
        SellValueMonotone(totalInvestment, totalInvestment + cost);
      }
      level := level + 1;
      damage := damage * UpgradeDamageMultiplier;
      range := range * UpgradeRangeMultiplier;
      totalInvestment := totalInvestment + cost;
    }

    /** `upgrade` of the tower built inline by the canvas click handler: the
        level goes up first, so the investment grows by the cost of the NEXT
        upgrade rather than the one just bought. */
    method UpgradeInline()
      modifies this
      ensures isParagon ==> level == old(level) && damage == old(damage) && range == old(range)
                            && totalInvestment == old(totalInvestment)
      ensures !isParagon ==> level == old(level) + 1
                             && damage == old(damage) * UpgradeDamageMultiplier
                             && range == old(range) * UpgradeRangeMultiplier
                             && totalInvestment == old(totalInvestment) + UpgradeCost(config.cost, level, false)
      ensures !isParagon && old(totalInvestment) == InlineInvestment(config.cost, old(level)) && old(level) >= 1
              ==> totalInvestment == InlineInvestment(config.cost, level)
      ensures cooldown == old(cooldown) && used == old(used)
    {
      if isParagon {
        return;
      }
      level := level + 1;
      damage := damage * UpgradeDamageMultiplier;
      range := range * UpgradeRangeMultiplier;
      totalInvestment := totalInvestment + CurrentUpgradeCost();
    }
  }

  /** Each upgrade costs strictly more than the one before once the tower's
      price is at least 2. */
  lemma UpgradeCostIncreases(cost: nat, level: int)
    requires cost >= 2 && level >= 0
    ensures UpgradeCost(cost, level, false) < UpgradeCost(cost, level + 1, false)
  {
    assert 3 * cost * (level + 1) == 3 * cost * level + 3 * cost;
  }

  /** Paid-up investment never exceeds what the inline tower records, and for
      any upgraded tower priced 2 or more it is strictly less. */
  lemma {:induction false} InlineOvercounts(cost: nat, level: int)
    requires cost >= 2 && level >= 2
    ensures InlineInvestment(cost, level) - Paid(cost, level)
         == UpgradeCost(cost, level, false) - UpgradeCost(cost, 1, false)
    ensures InlineInvestment(cost, level) > Paid(cost, level)
  {
    if level > 2 {
      InlineOvercounts(cost, level - 1);
    }
    UpgradeCostIncreases(cost, level - 1);
    if level > 2 {
      UpgradeCostMonotone(cost, 1, level - 1);
    }
  }

  /** A concrete case: a 100-coin tower upgraded twice has been paid 325 but
      records 475 inline, so selling it returns 332, more than was paid. */
  lemma InlineUpgradeSellsAtProfit()
    ensures Paid(100, 3) == 325
    ensures InlineInvestment(100, 3) == 475
    ensures SellValue(InlineInvestment(100, 3)) == 332 > Paid(100, 3)
  {
    assert UpgradeCost(100, 1, false) == 75;
    assert UpgradeCost(100, 2, false) == 150;
    assert UpgradeCost(100, 3, false) == 225;
  }

  /** What a tower has been paid at any level is at least its price. */
  lemma {:induction false} PaidAtLeastPrice(cost: nat, level: int)
    ensures Paid(cost, level) >= cost
  {
    if level > 1 {
      PaidAtLeastPrice(cost, level - 1);
      assert UpgradeCost(cost, level - 1, false) >= 0;
    }
  }

  /** Merging three towers never loses sell value. */
  lemma MergeKeepsSellValue(i1: int, i2: int, i3: int)
    ensures SellValue(i1 + i2 + i3) >= SellValue(i1) + SellValue(i2) + SellValue(i3)
  {
  }

  predicate ParagonReady(t: Tower, targetType: string)
    reads t
  {
    t.kind == targetType && t.level >= ParagonMinLevel && !t.isParagon
  }

  /** The indices of the towers ready to merge into a paragon of
      `targetType`, ascending: every ready tower's index, and only those. */
  function ReadyIndices(towers: seq<Tower>, targetType: string): (idx: seq<nat>)
    reads towers
    ensures forall k :: 0 <= k < |idx| ==> idx[k] < |towers| && ParagonReady(towers[idx[k]], targetType)
    ensures forall k, l :: 0 <= k < l < |idx| ==> idx[k] < idx[l]
    ensures forall j :: 0 <= j < |towers| && ParagonReady(towers[j], targetType) ==> j in idx
  {
    if |towers| == 0 then []
    else
      var n := |towers| - 1;
      var front := ReadyIndices(towers[..n], targetType);
      assert forall k :: 0 <= k < |front| ==> towers[..n][front[k]] == towers[front[k]];
      front + (if ParagonReady(towers[n], targetType) then [n] else [])
  }

  /** The towers of `targetType` at level 10 or more that are not paragons
      (`towers.filter`): the ready towers, in list order. */
  function Eligible(towers: seq<Tower>, targetType: string): (r: seq<Tower>)
    reads towers
    ensures |r| == |ReadyIndices(towers, targetType)|
    ensures forall k :: 0 <= k < |r| ==> r[k] == towers[ReadyIndices(towers, targetType)[k]]
  {
    if |towers| == 0 then []
    else
      var n := |towers| - 1;
      var t := towers[n];
      var front := Eligible(towers[..n], targetType);
      assert forall k :: 0 <= k < |front| ==> front[k] == towers[ReadyIndices(towers[..n], targetType)[k]];
      front + (if ParagonReady(t, targetType) then [t] else [])
  }

  /** The filter keeps exactly the ready towers: each kept tower is listed
      and ready, and each ready tower is kept. */
  lemma EligibleExactly(towers: seq<Tower>, targetType: string)
    ensures var r := Eligible(towers, targetType);
            && (forall i :: 0 <= i < |r| ==> r[i] in towers && ParagonReady(r[i], targetType))
            && (forall i :: 0 <= i < |towers| && ParagonReady(towers[i], targetType) ==> towers[i] in r)
  {
    var r, idx := Eligible(towers, targetType), ReadyIndices(towers, targetType);
    forall i | 0 <= i < |towers| && ParagonReady(towers[i], targetType)
      ensures towers[i] in r
    {
      var k :| 0 <= k < |idx| && idx[k] == i;
      assert r[k] == towers[i];
    }
  }

  /** `findParagonCandidates`: the first three eligible towers in list
      order, or None when fewer than three are eligible. */
  function FindParagonCandidates(towers: seq<Tower>, targetType: string): (r: Option<seq<Tower>>)
    reads towers
    ensures r.None? <==> |ReadyIndices(towers, targetType)| < ParagonMergeCount
    ensures r.Some? ==>
              var idx := ReadyIndices(towers, targetType);
              r.value == [towers[idx[0]], towers[idx[1]], towers[idx[2]]]
  {
    var eligible := Eligible(towers, targetType);
    if |eligible| >= ParagonMergeCount then Some(eligible[..3]) else None
  }

  /** The candidates are the first three ready towers: three ready towers
      in list order, with no other ready tower before the third. */
  lemma CandidatesComeFirst(towers: seq<Tower>, targetType: string)
    ensures var r := FindParagonCandidates(towers, targetType);
            r.Some? ==>
              exists i0, i1, i2 ::
                && 0 <= i0 < i1 < i2 < |towers|
                && r.value == [towers[i0], towers[i1], towers[i2]]
                && ParagonReady(towers[i0], targetType) && ParagonReady(towers[i1], targetType)
                && ParagonReady(towers[i2], targetType)
                && forall j :: 0 <= j < i2 && ParagonReady(towers[j], targetType) ==> j == i0 || j == i1
  {
    var idx := ReadyIndices(towers, targetType);
    if |idx| >= ParagonMergeCount {
      assert idx[0] < idx[1] < idx[2];
      forall j | 0 <= j < idx[2] && ParagonReady(towers[j], targetType)
        ensures j == idx[0] || j == idx[1]
      {
        var k :| 0 <= k < |idx| && idx[k] == j;
        assert k < 2;
      }
      assert FindParagonCandidates(towers, targetType).value == [towers[idx[0]], towers[idx[1]], towers[idx[2]]];
    }
  }

  // =====================================================================
  // Enemies

  /** The status-effect fields of an enemy, together with its health. */
  datatype Status = Status(
    health: real,
    isFrozen: bool, freezeTimer: int,
    isBurning: bool, burnTimer: int, burnTickTimer: int,
    isVoided: bool, voidTimer: int)

  function FreezeStep(s: Status): Status {
    if !s.isFrozen then s
    else s.(freezeTimer := s.freezeTimer - 1, isFrozen := s.freezeTimer - 1 > 0)
  }

  function BurnStep(s: Status): Status {
    if !s.isBurning then s
    else
      var tick := s.burnTickTimer + 1;
      var s1 := if tick >= BurnTickRate then s.(burnTickTimer := 0, health := s.health - BurnDamage)
                else s.(burnTickTimer := tick);
      s1.(burnTimer := s.burnTimer - 1, isBurning := s.burnTimer - 1 > 0)
  }

  function VoidStep(s: Status): Status {
    if !s.isVoided then s
    else s.(voidTimer := s.voidTimer - 1, isVoided := s.voidTimer - 1 > 0)
  }

  /** `updateEnemyStatusEffects` on values: freeze, then burn, then void. */
  function StatusStep(s: Status): Status {
    VoidStep(BurnStep(FreezeStep(s)))
  }

  /** A timer counts down only while its flag is set, and the flag clears
      exactly when the timer reaches zero or below. */
  lemma TimersCountDown(s: Status)
    ensures var r := StatusStep(s);
      && r.freezeTimer == (if s.isFrozen then s.freezeTimer - 1 else s.freezeTimer)
      && r.isFrozen == (s.isFrozen && r.freezeTimer > 0)
      && r.burnTimer == (if s.isBurning then s.burnTimer - 1 else s.burnTimer)
      && r.isBurning == (s.isBurning && r.burnTimer > 0)
      && r.voidTimer == (if s.isVoided then s.voidTimer - 1 else s.voidTimer)
      && r.isVoided == (s.isVoided && r.voidTimer > 0)
  {
  }

  /** Burn damage lands exactly when the tick counter reaches the tick rate,
      which resets it; only burning changes health. */
  lemma BurnTicks(s: Status)
    ensures var r := StatusStep(s);
      && (s.isBurning && s.burnTickTimer + 1 >= BurnTickRate ==> r.burnTickTimer == 0 && r.health == s.health - BurnDamage)
      && (s.isBurning && s.burnTickTimer + 1 < BurnTickRate ==> r.burnTickTimer == s.burnTickTimer + 1 && r.health == s.health)
      && (!s.isBurning ==> r.burnTickTimer == s.burnTickTimer && r.health == s.health)
  {
  }

  /** The three effects are independent: each one's fields after the step
      depend only on its own fields before it. The freeze: */
  lemma FreezeIndependent(s: Status, t: Status)
    requires s.isFrozen == t.isFrozen && s.freezeTimer == t.freezeTimer
    ensures StatusStep(s).isFrozen == StatusStep(t).isFrozen && StatusStep(s).freezeTimer == StatusStep(t).freezeTimer
  {
    assert FreezeStep(s).freezeTimer == FreezeStep(t).freezeTimer;
  }

  /** The burn, whose damage is the same whatever the health it lands on. */
  lemma BurnIndependent(s: Status, t: Status)
    requires s.isBurning == t.isBurning && s.burnTimer == t.burnTimer && s.burnTickTimer == t.burnTickTimer
    ensures var rs, rt := StatusStep(s), StatusStep(t);
            && rs.isBurning == rt.isBurning && rs.burnTimer == rt.burnTimer && rs.burnTickTimer == rt.burnTickTimer
            && rs.health - s.health == rt.health - t.health
  {
    var fs, ft := FreezeStep(s), FreezeStep(t);
    assert fs.isBurning == s.isBurning && fs.burnTimer == s.burnTimer && fs.burnTickTimer == s.burnTickTimer && fs.health == s.health;
    assert ft.isBurning == t.isBurning && ft.burnTimer == t.burnTimer && ft.burnTickTimer == t.burnTickTimer && ft.health == t.health;
  }

  /** The void. */
  lemma VoidIndependent(s: Status, t: Status)
    requires s.isVoided == t.isVoided && s.voidTimer == t.voidTimer
    ensures StatusStep(s).isVoided == StatusStep(t).isVoided && StatusStep(s).voidTimer == StatusStep(t).voidTimer
  {
    var bs, bt := BurnStep(FreezeStep(s)), BurnStep(FreezeStep(t));
    assert bs.isVoided == s.isVoided && bs.voidTimer == s.voidTimer;
    assert bt.isVoided == t.isVoided && bt.voidTimer == t.voidTimer;
  }

  /** k frames of status effects. */
  function StatusSteps(s: Status, k: nat): Status {
    if k == 0 then s else StatusStep(StatusSteps(s, k - 1))
  }

  /** Over the first k frames of a burn with T frames left (k <= T), the enemy
      takes 5 damage each time the tick counter wraps at 15. */
  lemma {:induction false} BurnDamageOverTime(s: Status, k: nat)
    requires s.isBurning && 0 <= s.burnTickTimer < BurnTickRate && k <= s.burnTimer
    ensures var r := StatusSteps(s, k);
      && r.health == s.health - BurnDamage * (((s.burnTickTimer + k) / BurnTickRate) as real)
      && r.burnTimer == s.burnTimer - k
      && r.burnTickTimer == (s.burnTickTimer + k) % BurnTickRate
      && (k > 0 ==> r.isBurning == (k < s.burnTimer))
  {
    if k > 0 {
      BurnDamageOverTime(s, k - 1);
      var prev := StatusSteps(s, k - 1);
      assert prev.isBurning;
      assert StatusSteps(s, k) == StatusStep(prev);
      assert StatusStep(prev).burnTimer == prev.burnTimer - 1;
      var c := s.burnTickTimer + k - 1;
      assert (c + 1) / BurnTickRate == c / BurnTickRate + (if c % BurnTickRate + 1 == BurnTickRate then 1 else 0);
      assert (c + 1) % BurnTickRate == (if c % BurnTickRate + 1 == BurnTickRate then 0 else c % BurnTickRate + 1);
    }
  }

  /** A fresh full burn (120 frames from tick 0) does 40 damage in all and
      then stops. */
  lemma FullBurn(s: Status)
    requires s.isBurning && s.burnTickTimer == 0 && s.burnTimer == BurnDuration
    ensures StatusSteps(s, BurnDuration as nat).health == s.health - 40.0
    ensures !StatusSteps(s, BurnDuration as nat).isBurning
  {
    BurnDamageOverTime(s, BurnDuration as nat);
  }

  /** Position and progress along the path. */
  datatype Motion = Motion(pos: Point, waypointIndex: nat)

  datatype MoveResult = MoveResult(motion: Motion, reachedEnd: bool)

  /** `updateEnemyMovement` on values. `step(from, to, d)` stands for moving
      `from` a distance d towards `to` (the source's normalised
      `dx / dist * speed`), which the model leaves abstract. */
  function MoveStep(m: Motion, isVoided: bool, isFrozen: bool, speed: real,
                    path: Option<seq<Point>>, w: real, h: real,
                    step: (Point, Point, real) -> Point): MoveResult
  {
    if isVoided then MoveResult(m, false)
    else if path.None? || m.waypointIndex >= |path.value| - 1 then MoveResult(m, true)
    else
      var next := path.value[m.waypointIndex + 1];
      var target := ToCanvas(next, w, h);
      var effectiveSpeed := if isFrozen then speed * FreezeSlowMultiplier else speed;
      if CloserThan(m.pos, target, effectiveSpeed) then MoveResult(m.(waypointIndex := m.waypointIndex + 1), false)
      else MoveResult(m.(pos := step(m.pos, target, effectiveSpeed)), false)
  }

  /** Movement never goes back along the path: the waypoint index stays or
      rises by one; a voided enemy does not move; the end is reported exactly
      for a present enemy with no path or at the last waypoint. */
  lemma MovementProgress(m: Motion, isVoided: bool, isFrozen: bool, speed: real,
                         path: Option<seq<Point>>, w: real, h: real, step: (Point, Point, real) -> Point)
    ensures var r := MoveStep(m, isVoided, isFrozen, speed, path, w, h, step);
      && (r.motion.waypointIndex == m.waypointIndex || r.motion.waypointIndex == m.waypointIndex + 1)
      && (isVoided ==> r == MoveResult(m, false))
      && (r.reachedEnd <==> !isVoided && (path.None? || m.waypointIndex >= |path.value| - 1))
      && (r.reachedEnd ==> r.motion == m)
      && (r.motion.waypointIndex == m.waypointIndex + 1 ==> r.motion.pos == m.pos)
  {
  }

  /** `calculateLivesDamage`. */
  function LivesDamage(isBoss: bool, kind: string): (d: int)
    ensures d >= BasicLivesDamage
    ensures d == BasicLivesDamage <==> !isBoss
  {
    if !isBoss then BasicLivesDamage
    else if kind == "emperor" then EmperorLivesDamage
    else if kind == "king" then KingLivesDamage
    else BossLivesDamage
  }

  /** The emperor costs the most lives, then the king, then any other boss. */
  lemma LivesDamageOrder(kind: string)
    requires kind != "emperor" && kind != "king"
    ensures LivesDamage(true, "emperor") > LivesDamage(true, "king") > LivesDamage(true, kind) > LivesDamage(false, kind)
  {
  }

  /** Whether `sub` occurs in `s` (`String.prototype.includes`). */
  predicate Contains(s: string, sub: string)
    decreases |s|
  {
    |sub| <= |s| && (s[..|sub|] == sub || Contains(s[1..], sub))
  }

  /** Health at wave n for a growth of g per wave: base * (1 + n * g). */
  function ScaledHealth(base: real, wave: int, growth: real): real {
    base * (1.0 + (wave as real) * growth)
  }

  /** For a live type on a wave after 0, two growth rates give the same
      health only when they are equal. */
  lemma ScaledHealthInjective(base: real, wave: int, g1: real, g2: real)
    requires base != 0.0 && wave != 0
    ensures ScaledHealth(base, wave, g1) == ScaledHealth(base, wave, g2) <==> g1 == g2
  {
    var n := wave as real;
    if ScaledHealth(base, wave, g1) == ScaledHealth(base, wave, g2) {
      assert base * (n * g1) == base * (n * g2);
      assert n * g1 == n * g2 by {
        if n * g1 != n * g2 {
          NonZeroProduct(base, n * g1 - n * g2);
        }
      }
      assert n * (g1 - g2) == 0.0;
      if g1 != g2 {
        NonZeroProduct(n, g1 - g2);
      }
    }
  }

  lemma NonZeroProduct(a: real, b: real)
    requires a != 0.0 && b != 0.0
    ensures a * b != 0.0
  {
  }

  class Enemy {
    const kind: string
    const maxHealth: real
    const speed: real
    const bounty: int
    const pathIndex: int
    const isStealthed: bool
    const isArmored: bool
    const isBoss: bool
    var pos: Point
    var health: real
    var waypointIndex: nat
    var isFrozen: bool
    var freezeTimer: int
    var isBurning: bool
    var burnTimer: int
    var burnTickTimer: int
    var isVoided: bool
    var voidTimer: int

    function GetStatus(): Status
      reads this`health, this`isFrozen, this`freezeTimer, this`isBurning, this`burnTimer, this`burnTickTimer
      reads this`isVoided, this`voidTimer
    {
      Status(health, isFrozen, freezeTimer, isBurning, burnTimer, burnTickTimer, isVoided, voidTimer)
    }

    function GetMotion(): Motion
      reads this`pos, this`waypointIndex
    {
      Motion(pos, waypointIndex)
    }

    /** `createEnemy` (growth 0.2 per wave) and the spawn phase of the game
        loop (growth from the balance data): health scaled by the wave, speed
        by the difficulty, standing on the first waypoint, no effects. */
    constructor Create(kind: string, data: EnemyData, wave: int, growth: real, start: Point,
                       w: real, h: real, speedMultiplier: real)
      ensures this.kind == kind && pos == ToCanvas(start, w, h)
      ensures health == maxHealth == ScaledHealth(data.baseHealth, wave, growth)
      ensures speed == data.baseSpeed * speedMultiplier && bounty == data.bounty
      ensures pathIndex == 0 && waypointIndex == 0
      ensures !isFrozen && freezeTimer == 0 && !isBurning && burnTimer == 0 && burnTickTimer == 0
      ensures !isVoided && voidTimer == 0
      ensures isStealthed <==> data.category == Stealth
      ensures isArmored <==> data.category == Armored || Contains(kind, "reinforced")
      ensures isBoss <==> data.category == Boss
    {
      this.kind := kind;
      pos := ToCanvas(start, w, h);
      var hp := data.baseHealth * (1.0 + (wave as real) * growth);
      health := hp;
      maxHealth := hp;
      speed := data.baseSpeed * speedMultiplier;
      bounty := data.bounty;
      pathIndex := 0;
      waypointIndex := 0;
      isFrozen := false;
      freezeTimer := 0;
      isBurning := false;
      burnTimer := 0;
      burnTickTimer := 0;
      isVoided := false;
      voidTimer := 0;
      isStealthed := data.category == Stealth;
      isArmored := data.category == Armored || Contains(kind, "reinforced");
      isBoss := data.category == Boss;
    }

    /** `updateEnemyStatusEffects`: the freeze, the burn and the void tick in
        that order; position and progress along the path stay. */
    method UpdateStatusEffects()
      modifies this`health, this`isFrozen, this`freezeTimer, this`isBurning, this`burnTimer, this`burnTickTimer
      modifies this`isVoided, this`voidTimer
      ensures GetStatus() == StatusStep(old(GetStatus()))
    {
      TickFreeze();
      TickBurn();
      TickVoid();
    }

    /** The freeze block of `updateEnemyStatusEffects`. */
    method TickFreeze()
      modifies this`isFrozen, this`freezeTimer
      ensures GetStatus() == FreezeStep(old(GetStatus()))
    {
      if isFrozen {
        freezeTimer := freezeTimer - 1;
        if freezeTimer <= 0 {
          isFrozen := false;
        }
      }
    }

    /** The burn block of `updateEnemyStatusEffects`. */
    method TickBurn()
      modifies this`health, this`isBurning, this`burnTimer, this`burnTickTimer
      ensures GetStatus() == BurnStep(old(GetStatus()))
    {
      if isBurning {
        burnTimer := burnTimer - 1;
        burnTickTimer := burnTickTimer + 1;
        if burnTickTimer >= BurnTickRate {
          burnTickTimer := 0;
          health := health - BurnDamage;
        }
        if burnTimer <= 0 {
          isBurning := false;
        }
      }
    }

    /** The void block of `updateEnemyStatusEffects`. */
    method TickVoid()
      modifies this`isVoided, this`voidTimer
      ensures GetStatus() == VoidStep(old(GetStatus()))
    {
      if isVoided {
        voidTimer := voidTimer - 1;
        if voidTimer <= 0 {
          isVoided := false;
        }
      }
    }

    /** `updateEnemyMovement`: returns whether the enemy has reached the end. */
    method UpdateMovement(path: Option<seq<Point>>, w: real, h: real, step: (Point, Point, real) -> Point)
      returns (reachedEnd: bool)
      modifies this
      ensures MoveResult(GetMotion(), reachedEnd)
           == MoveStep(old(GetMotion()), isVoided, isFrozen, speed, path, w, h, step)
      ensures GetStatus() == old(GetStatus())
    {
      if isVoided {
        return false;
      }
      if path.None? || waypointIndex >= |path.value| - 1 {
        return true;
      }
      var next := path.value[waypointIndex + 1];
      var target := ToCanvas(next, w, h);
      var effectiveSpeed := if isFrozen then speed * FreezeSlowMultiplier else speed;
      if CloserThan(pos, target, effectiveSpeed) {
        waypointIndex := waypointIndex + 1;
      } else {
        pos := step(pos, target, effectiveSpeed);
      }
      return false;
    }
  }

  /** The armoured flag of every reinforced type, whatever its category. */
  lemma ReinforcedNinjaIsArmored()
    ensures Contains(ReinforcedNinja, "reinforced")
  {
    assert ReinforcedNinja[..10] == "reinforced";
  }

  /** `checkTrapActivation`: nothing for a non-trap or a used trap; otherwise
      the first enemy (in list order) within the trap's range, if any. */
  function CheckTrapActivation(trap: Tower, enemies: seq<Enemy>): (r: Option<Enemy>)
    reads trap, enemies
    ensures !trap.config.isTrap || trap.used ==> r.None?
    ensures r.Some? ==> r.value in enemies && WithinDistance(r.value.pos, trap.pos, trap.range)
    ensures r.None? && trap.config.isTrap && !trap.used ==>
              forall i :: 0 <= i < |enemies| ==> !WithinDistance(enemies[i].pos, trap.pos, trap.range)
  {
    if !trap.config.isTrap || trap.used then None
    else FirstWithin(enemies, trap.pos, trap.range)
  }

  /** The first enemy of the list within distance d of p. */
  function FirstWithin(enemies: seq<Enemy>, p: Point, d: real): (r: Option<Enemy>)
    reads enemies
    ensures r.Some? ==> r.value in enemies && WithinDistance(r.value.pos, p, d)
    ensures r.Some? ==> exists i :: 0 <= i < |enemies| && enemies[i] == r.value
                                    && forall j :: 0 <= j < i ==> !WithinDistance(enemies[j].pos, p, d)
    ensures r.None? ==> forall i :: 0 <= i < |enemies| ==> !WithinDistance(enemies[i].pos, p, d)
  {
    if |enemies| == 0 then None
    else if WithinDistance(enemies[0].pos, p, d) then Some(enemies[0])
    else
      var rest := FirstWithin(enemies[1..], p, d);
      assert rest.Some? ==> exists i :: 1 <= i < |enemies| && enemies[i] == rest.value
                                        && forall j :: 1 <= j < i ==> !WithinDistance(enemies[j].pos, p, d);
      rest
  }

  // =====================================================================
  // Soldiers

  datatype Soldier = Soldier(
    pos: Point, health: int, maxHealth: int, damage: int, range: real, speed: real,
    regenRate: int, regenTimer: int, cooldown: int, attackCooldown: int, radius: real)

  /** `createSoldier`: a barracks soldier whose health and damage scale with
      the barracks level; the other stats are fixed. */
  function CreateSoldier(p: Point, barracksLevel: int): (s: Soldier)
    ensures s.pos == p && s.health == s.maxHealth && s.health == 10 * s.damage
    ensures s.damage == 10 * barracksLevel
    ensures s.regenTimer == 0 && s.cooldown == 0
  {
    Soldier(p, 100 * barracksLevel, 100 * barracksLevel, 10 * barracksLevel, 40.0, 0.5, 2, 0, 0, 30, 15.0)
  }
}
