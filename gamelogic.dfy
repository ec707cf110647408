/** The pure rules of the game: where a tower may be placed, how much damage
    a hit does, which enemies a wave is made of, and what upgrades cost and
    towers sell for. */
module GameLogic {
  import opened GameConstants
  import opened Geometry

  // =====================================================================
  // Placement validation

  /** Why a placement was refused, one constructor per message of the source. */
  datatype Reason =
    | TooCloseToEdge
    | HeroLimit
    | UnderGlass
    | TooCloseToPath
    | TrapNotOnPath
    | TowerCollision
    | WaterTowerOnStump
    | WaterTowerNeedsWater
    | CannotBuildOnWater

  datatype Verdict = Valid | Invalid(reason: Reason)

  /** Outside the build area: too near the sides, the HUD or the tower panel. */
  predicate OutsideMargins(p: Point, w: real, h: real) {
    p.x < MarginX || p.x > w - MarginX || p.y < MarginTop || p.y > h - MarginBottom
  }

  /** Segment i of the path (from waypoint i to i+1) passes closer than d to p. */
  predicate SegmentNear(p: Point, path: seq<Point>, i: int, d: real)
    requires 0 <= i < |path| - 1
  {
    d > 0.0 && PointToSegmentDistSq(p, path[i], path[i + 1]) < d * d
  }

  /** Some segment of some path passes closer than d to p. */
  predicate NearPath(p: Point, paths: seq<seq<Point>>, d: real) {
    exists k, i :: 0 <= k < |paths| && 0 <= i < |paths[k]| - 1 && SegmentNear(p, paths[k], i, d)
  }

  /** Some already placed tower stands closer than d to p. */
  predicate Collides(p: Point, towers: seq<Point>, d: real) {
    exists i :: 0 <= i < |towers| && CloserThan(towers[i], p, d)
  }

  /** The stump of the map, if it has one, in canvas coordinates. */
  predicate OnStump(p: Point, m: MapData, w: real, h: real) {
    m.stump.Some? && CloserThan(p, ToCanvas(m.stump.value, w, h), StumpRadius)
  }

  function CollisionRadius(cfg: TowerConfig): real {
    if cfg.isTrap then TrapCollisionRadius else TowerCollisionRadius
  }

  /** `isValidPlacement` as a function: the checks of the source in their
      order, the first failing one deciding the reason. `paths` and `towers`
      are in canvas coordinates; `openQuadrant` is the covered-garden
      quadrant (None for the source's null); `heroes` counts placed heroes. */
  function Placement(p: Point, cfg: TowerConfig, towers: seq<Point>, paths: seq<seq<Point>>,
                     m: MapData, w: real, h: real, openQuadrant: Option<int>, heroes: int): Verdict
    requires w > 0.0 && h > 0.0
  {
    if OutsideMargins(p, w, h) then Invalid(TooCloseToEdge)
    else if cfg.isHero && heroes > 0 then Invalid(HeroLimit)
    else if m.isCovered && IsUnderGlass(p, w, h, openQuadrant) then Invalid(UnderGlass)
    else if !cfg.isTrap && NearPath(p, paths, TowerPathMinDistance) then Invalid(TooCloseToPath)
    else if cfg.isTrap && !NearPath(p, paths, TrapPathMaxDistance) then Invalid(TrapNotOnPath)
    else if Collides(p, towers, CollisionRadius(cfg)) then Invalid(TowerCollision)
    else if cfg.isTrap then Valid
    else if OnStump(p, m, w, h) then (if cfg.waterOnly then Invalid(WaterTowerOnStump) else Valid)
    else if cfg.amphibious then Valid
    else if cfg.waterOnly && !InWater(p, w, h, m.waterZones, m.isGlassFloor) then Invalid(WaterTowerNeedsWater)
    else if !cfg.waterOnly && InWater(p, w, h, m.waterZones, m.isGlassFloor) && !m.isGlassFloor
    then Invalid(CannotBuildOnWater)
    else Valid
  }

  /** The segment loops of `isValidPlacement`: `onPath` records whether some
      segment is within the trap distance; for a non-trap the scan stops at
      the first segment within the tower distance (`tooClose`). */
  method ScanPaths(p: Point, paths: seq<seq<Point>>, isTrap: bool) returns (onPath: bool, tooClose: bool)
    ensures tooClose <==> !isTrap && NearPath(p, paths, TowerPathMinDistance)
    ensures !tooClose ==> (onPath <==> NearPath(p, paths, TrapPathMaxDistance))
  {
    onPath, tooClose := false, false;
    for k := 0 to |paths|
      invariant onPath <==> exists k', i :: 0 <= k' < k && 0 <= i < |paths[k']| - 1
                                         && SegmentNear(p, paths[k'], i, TrapPathMaxDistance)
      invariant !isTrap ==> forall k', i :: 0 <= k' < k && 0 <= i < |paths[k']| - 1
                                         ==> !SegmentNear(p, paths[k'], i, TowerPathMinDistance)
    {
      var path := paths[k];
      var i := 0;
      while i < |path| - 1
        invariant 0 <= i <= Max(0, |path| - 1)
        invariant onPath <==> ((exists k', i' :: 0 <= k' < k && 0 <= i' < |paths[k']| - 1
                                             && SegmentNear(p, paths[k'], i', TrapPathMaxDistance))
                               || (exists i' :: 0 <= i' < i && SegmentNear(p, path, i', TrapPathMaxDistance)))
        invariant !isTrap ==> forall i' :: 0 <= i' < i ==> !SegmentNear(p, path, i', TowerPathMinDistance)
      {
        var d := PointToSegmentDistSq(p, path[i], path[i + 1]);
        if d < TrapPathMaxDistance * TrapPathMaxDistance {
          assert SegmentNear(p, path, i, TrapPathMaxDistance);
          onPath := true;
        }
        if !isTrap && d < TowerPathMinDistance * TowerPathMinDistance {
          assert SegmentNear(p, paths[k], i, TowerPathMinDistance);
          return onPath, true;
        }
        i := i + 1;
      }
      assert path == paths[k];
    }
  }

  /** `isValidPlacement`: the segment loops record whether the point is on a
      path (for traps) and return as soon as a tower is too close to one;
      the tower loop returns on the first collision. */
  method IsValidPlacement(p: Point, cfg: TowerConfig, towers: seq<Point>, paths: seq<seq<Point>>,
                          m: MapData, w: real, h: real, openQuadrant: Option<int>, heroes: int)
    returns (v: Verdict)
    requires w > 0.0 && h > 0.0
    ensures v == Placement(p, cfg, towers, paths, m, w, h, openQuadrant, heroes)
  {
    if p.x < MarginX || p.x > w - MarginX || p.y < MarginTop || p.y > h - MarginBottom {
      return Invalid(TooCloseToEdge);
    }
    if cfg.isHero && heroes > 0 {
      return Invalid(HeroLimit);
    }
    if m.isCovered && IsUnderGlass(p, w, h, openQuadrant) {
      return Invalid(UnderGlass);
    }

    var onPath, tooClose := ScanPaths(p, paths, cfg.isTrap);
    if tooClose {
      return Invalid(TooCloseToPath);
    }

    if cfg.isTrap && !onPath {
      return Invalid(TrapNotOnPath);
    }

    var collisionDist := if cfg.isTrap then TrapCollisionRadius else TowerCollisionRadius;
    for i := 0 to |towers|
      invariant forall i' :: 0 <= i' < i ==> !CloserThan(towers[i'], p, collisionDist)
    {
      if CloserThan(towers[i], p, collisionDist) {
        return Invalid(TowerCollision);
      }
    }

    if cfg.isTrap {
      return Valid;
    }

    var inWater := IsPointInWater(p, w, h, m.waterZones, m.isGlassFloor);

    if m.stump.Some? {
      var s := ToCanvas(m.stump.value, w, h);
      if CloserThan(p, s, StumpRadius) {
        if cfg.waterOnly {
          return Invalid(WaterTowerOnStump);
        }
        return Valid;
      }
    }

    if cfg.amphibious {
      return Valid;
    }
    if cfg.waterOnly && !inWater {
      return Invalid(WaterTowerNeedsWater);
    }
    if !cfg.waterOnly && inWater && !m.isGlassFloor {
      return Invalid(CannotBuildOnWater);
    }
    if m.isGlassFloor && !cfg.waterOnly {
      return Valid;
    }
    return Valid;
  }

  /** What an accepted placement guarantees, whatever the order of the
      checks: inside the margins, clear of every placed tower by the
      collision radius, a trap on a path, any other tower clear of every path,
      and a tower on water only when it is built for water (or on glass). */
  lemma ValidPlacementMeans(p: Point, cfg: TowerConfig, towers: seq<Point>, paths: seq<seq<Point>>,
                            m: MapData, w: real, h: real, openQuadrant: Option<int>, heroes: int)
    requires w > 0.0 && h > 0.0
    requires Placement(p, cfg, towers, paths, m, w, h, openQuadrant, heroes) == Valid
    ensures !OutsideMargins(p, w, h)
    ensures cfg.isHero ==> heroes <= 0
    ensures m.isCovered ==> openQuadrant == Some(Quadrant(p, w, h))
    ensures forall i :: 0 <= i < |towers| ==> !CloserThan(towers[i], p, CollisionRadius(cfg))
    ensures cfg.isTrap ==> NearPath(p, paths, TrapPathMaxDistance)
    ensures !cfg.isTrap ==> forall k, i :: 0 <= k < |paths| && 0 <= i < |paths[k]| - 1
                                       ==> PointToSegmentDistSq(p, paths[k][i], paths[k][i + 1])
                                           >= TowerPathMinDistance * TowerPathMinDistance
    ensures !cfg.isTrap && cfg.waterOnly ==> !OnStump(p, m, w, h)
    ensures !cfg.isTrap && cfg.waterOnly && !cfg.amphibious ==> InWater(p, w, h, m.waterZones, m.isGlassFloor)
    ensures !cfg.isTrap && !cfg.waterOnly && !cfg.amphibious && !OnStump(p, m, w, h) && !m.isGlassFloor
            ==> !InWater(p, w, h, m.waterZones, m.isGlassFloor)
  {
    if !cfg.isTrap {
      forall k, i | 0 <= k < |paths| && 0 <= i < |paths[k]| - 1
        ensures PointToSegmentDistSq(p, paths[k][i], paths[k][i + 1])
                >= TowerPathMinDistance * TowerPathMinDistance
      {
        assert !SegmentNear(p, paths[k], i, TowerPathMinDistance);
      }
    }
  }

  /** The checks run in a fixed order: each reason is given only when every
      earlier check passed. */
  lemma PlacementOrder(p: Point, cfg: TowerConfig, towers: seq<Point>, paths: seq<seq<Point>>,
                       m: MapData, w: real, h: real, openQuadrant: Option<int>, heroes: int)
    requires w > 0.0 && h > 0.0
    ensures var v := Placement(p, cfg, towers, paths, m, w, h, openQuadrant, heroes);
      && (v == Invalid(TooCloseToEdge) <==> OutsideMargins(p, w, h))
      && (v == Invalid(TooCloseToPath) <==>
            !OutsideMargins(p, w, h) && !(cfg.isHero && heroes > 0)
            && !(m.isCovered && IsUnderGlass(p, w, h, openQuadrant))
            && !cfg.isTrap && NearPath(p, paths, TowerPathMinDistance))
      && (v == Invalid(TrapNotOnPath) <==>
            !OutsideMargins(p, w, h) && !(cfg.isHero && heroes > 0)
            && !(m.isCovered && IsUnderGlass(p, w, h, openQuadrant))
            && cfg.isTrap && !NearPath(p, paths, TrapPathMaxDistance))
      && (v == Invalid(TowerCollision) ==> Collides(p, towers, CollisionRadius(cfg)))
      && (cfg.isTrap ==> v.Valid? || v.reason in {TooCloseToEdge, HeroLimit, UnderGlass, TrapNotOnPath, TowerCollision})
      && (!cfg.isTrap && cfg.amphibious && !OnStump(p, m, w, h) ==>
            v.Valid? || v.reason in {TooCloseToEdge, HeroLimit, UnderGlass, TooCloseToPath, TowerCollision})
  {
  }

  /** With no open quadrant given, a covered map refuses every point that
      passes the margin and hero checks. */
  lemma CoveredMapWithoutOpenQuadrant(p: Point, cfg: TowerConfig, towers: seq<Point>, paths: seq<seq<Point>>,
                                      m: MapData, w: real, h: real, heroes: int)
    requires w > 0.0 && h > 0.0
    requires m.isCovered && !OutsideMargins(p, w, h) && !(cfg.isHero && heroes > 0)
    ensures Placement(p, cfg, towers, paths, m, w, h, None, heroes) == Invalid(UnderGlass)
  {
  }

  // =====================================================================
  // Damage resolution

  datatype DamageResult = DamageResult(damage: real, isResisted: bool)

  /** The effects that ignore armour. */
  predicate PiercesArmor(effect: Effect) {
    effect == Burn || effect == Explosive
  }

  /** The effects that hurt the reinforced ninja fully. */
  predicate HurtsNinja(effect: Effect) {
    effect == Burn || effect == Explosive || effect == Shock
  }

  const ReinforcedNinja: string := "reinforced_ninja"

  /** `calculateDamage`: the damage a projectile with damage `raw` and effect
      `effect` deals to an enemy of type `enemyType`. */
  function CalculateDamage(raw: real, effect: Effect, enemyType: string, isArmored: bool): (r: DamageResult)
    ensures r.isResisted <==> ((enemyType == ReinforcedNinja && !HurtsNinja(effect))
                               || (enemyType != ReinforcedNinja && isArmored && !PiercesArmor(effect)))
    ensures !r.isResisted ==> r.damage == raw
    ensures r.isResisted && enemyType == ReinforcedNinja ==> r.damage == ReinforcedNinjaDamage
    ensures r.isResisted && enemyType != ReinforcedNinja ==>
              r.damage >= 1.0 && r.damage == r.damage.Floor as real
              && (r.damage == 1.0 || r.damage <= raw * ArmorDamageReduction < r.damage + 1.0)
  {
    if enemyType == ReinforcedNinja then
      if HurtsNinja(effect) then DamageResult(raw, false)
      else DamageResult(ReinforcedNinjaDamage, true)
    else if isArmored then
      if PiercesArmor(effect) then DamageResult(raw, false)
      else
        var reduced := (raw * ArmorDamageReduction).Floor;
        DamageResult(if reduced < 1 then 1.0 else reduced as real, true)
    else DamageResult(raw, false)
  }

  /** A resisted hit never does more than an unresisted one would, for any
      projectile doing at least one point of damage. */
  lemma ResistedHitsAreNoStronger(raw: real, effect: Effect, enemyType: string, isArmored: bool)
    requires raw >= 1.0
    ensures 1.0 <= CalculateDamage(raw, effect, enemyType, isArmored).damage <= raw
  {
  }

  /** An armoured (non-ninja) target resisting a hit takes max(1, floor(raw * 0.2)). */
  lemma ArmoredDamage(raw: real, effect: Effect, enemyType: string)
    requires enemyType != ReinforcedNinja && !PiercesArmor(effect)
    ensures CalculateDamage(raw, effect, enemyType, true).damage
         == Max(1, (raw * ArmorDamageReduction).Floor) as real
  {
  }

  // =====================================================================
  // Wave composition

  /** JavaScript's `a % b === 0` on integers: false when b is 0 (NaN). */
  predicate JsRemZero(a: int, b: int) {
    b != 0 && a % b == 0
  }

  /** `Math.ceil(n / 10)`. */
  function CeilDiv10(n: int): (c: int)
    ensures 10 * (c - 1) < n <= 10 * c
  {
    -((-n) / 10)
  }

  /** The number of regular slots of wave n: `baseCount + floor(n * growthRate)`. */
  function SlotCount(n: int, waves: WaveConfig): int {
    waves.baseCount + ((n as real) * waves.growthRate).Floor
  }

  /** The boss entry of wave n: the highest tier whose period divides n. */
  function BossEntries(n: int, bosses: BossTable): (b: seq<string>)
    ensures |b| <= 1
    ensures |b| == 1 <==> n % 10 == 0
  {
    if JsRemZero(n, 100) then [bosses.wave100]
    else if JsRemZero(n, 50) then [bosses.wave50]
    else if JsRemZero(n, 10) then [bosses.wave10]
    else []
  }

  /** `ceil(n / 10)` sneaks when the sneak interval divides n. */
  function SneakEntries(n: int, interval: int): (s: seq<string>)
    ensures |s| == if JsRemZero(n, interval) then Max(0, CeilDiv10(n)) else 0
    ensures forall i :: 0 <= i < |s| ==> s[i] == "sneak"
  {
    if JsRemZero(n, interval) then Repeat("sneak", Max(0, CeilDiv10(n))) else []
  }

  function Repeat(e: string, k: nat): (s: seq<string>)
    ensures |s| == k && forall i :: 0 <= i < k ==> s[i] == e
  {
    if k == 0 then [] else Repeat(e, k - 1) + [e]
  }

  /** The weighted table that wave n draws its regular enemies from. */
  function Pool(n: int, rules: SpawnRules): seq<WeightedEnemy> {
    if n > 60 then rules.waves61plus
    else if n > 40 then rules.waves41to60
    else if n > 25 then rules.waves26to40
    else if n > 10 then rules.waves11to25
    else rules.waves1to10
  }

  /** The enemy of the first entry from index j on whose cumulative weight
      exceeds the draw r; None when r is at least every such weight. */
  function PickFrom(pool: seq<WeightedEnemy>, r: real, j: nat): (e: Option<string>)
    requires j <= |pool|
    decreases |pool| - j
    ensures e.None? <==> forall k :: j <= k < |pool| ==> r >= pool[k].weight
    ensures e.Some? ==> exists k :: j <= k < |pool| && r < pool[k].weight && e.value == pool[k].id
                                    && forall k' :: j <= k' < k ==> r >= pool[k'].weight
  {
    if j == |pool| then None
    else if r < pool[j].weight then Some(pool[j].id)
    else PickFrom(pool, r, j + 1)
  }

  function OptionToSeq(e: Option<string>): seq<string> {
    if e.Some? then [e.value] else []
  }

  /** The regular entries the draws select, one slot per draw, in order. */
  function RegularEntries(pool: seq<WeightedEnemy>, draws: seq<real>): seq<string> {
    if |draws| == 0 then []
    else RegularEntries(pool, draws[..|draws| - 1]) + OptionToSeq(PickFrom(pool, draws[|draws| - 1], 0))
  }

  /** The spawn queue of wave n before the shuffle: boss, sneaks, regulars. */
  function Unshuffled(n: int, waves: WaveConfig, draws: seq<real>): seq<string> {
    BossEntries(n, waves.bosses) + SneakEntries(n, waves.sneakSpawnInterval)
      + RegularEntries(Pool(n, waves.spawnRules), draws)
  }

  /** Some cumulative weight of the pool exceeds the draw r. */
  predicate Hits(pool: seq<WeightedEnemy>, r: real) {
    exists j :: 0 <= j < |pool| && r < pool[j].weight
  }

  /** One more draw appends at most the entry it picks. */
  lemma RegularEntriesSnoc(pool: seq<WeightedEnemy>, draws: seq<real>, i: int)
    requires 0 <= i < |draws|
    ensures RegularEntries(pool, draws[..i + 1])
         == RegularEntries(pool, draws[..i]) + OptionToSeq(PickFrom(pool, draws[i], 0))
  {
    assert draws[..i + 1][..i] == draws[..i];
  }

  /** Each slot adds at most one entry, and every entry is an enemy of the pool. */
  lemma {:induction false} RegularEntriesBounded(pool: seq<WeightedEnemy>, draws: seq<real>)
    ensures |RegularEntries(pool, draws)| <= |draws|
    ensures forall e :: e in RegularEntries(pool, draws) ==> exists j :: 0 <= j < |pool| && pool[j].id == e
  {
    if |draws| > 0 {
      RegularEntriesBounded(pool, draws[..|draws| - 1]);
    }
  }

  /** When every draw falls below some cumulative weight, every slot adds
      exactly one entry; a slot whose draw reaches every weight adds none. */
  lemma {:induction false} RegularEntriesExact(pool: seq<WeightedEnemy>, draws: seq<real>)
    requires forall i :: 0 <= i < |draws| ==> Hits(pool, draws[i])
    ensures |RegularEntries(pool, draws)| == |draws|
  {
    if |draws| > 0 {
      var front := draws[..|draws| - 1];
      assert forall i :: 0 <= i < |front| ==> front[i] == draws[i];
      RegularEntriesExact(pool, front);
      var r := draws[|draws| - 1];
      assert Hits(pool, r);
      assert PickFrom(pool, r, 0).Some?;
    }
  }

  /** The pre-shuffle queue has at most one boss, the sneaks, and at most one
      entry per slot. */
  lemma WaveSize(n: int, waves: WaveConfig, draws: seq<real>)
    requires |draws| == Max(0, SlotCount(n, waves))
    ensures |Unshuffled(n, waves, draws)|
         <= 1 + (if JsRemZero(n, waves.sneakSpawnInterval) then Max(0, CeilDiv10(n)) else 0)
              + Max(0, SlotCount(n, waves))
  {
    RegularEntriesBounded(Pool(n, waves.spawnRules), draws);
  }

  /** The comparator sort with a random comparator only reorders: modelled as
      a sequence of swaps chosen by `choices` (Fisher-Yates style). */
  method Shuffle(a: array<string>, choices: seq<nat>)
    modifies a
    ensures multiset(a[..]) == multiset(old(a[..]))
  {
    for i := 0 to a.Length
      invariant multiset(a[..]) == multiset(old(a[..]))
    {
      var j := if i < |choices| then choices[i] % (i + 1) else i;
      a[i], a[j] := a[j], a[i];
    }
  }

  /** The weight scan of one slot of `generateWaveComposition`: the enemy of
      the first cumulative weight above the draw r, or nothing. */
  method PickEntry(pool: seq<WeightedEnemy>, r: real) returns (picked: seq<string>)
    ensures picked == OptionToSeq(PickFrom(pool, r, 0))
  {
    picked := [];
    var j := 0;
    while j < |pool|
      invariant 0 <= j <= |pool|
      invariant PickFrom(pool, r, 0) == PickFrom(pool, r, j)
      invariant picked == []
    {
      if r < pool[j].weight {
        picked := [pool[j].id];
        return;
      }
      j := j + 1;
    }
  }

  /** The slot loop of `generateWaveComposition`: for each of the `count`
      slots, push the enemy of the first cumulative weight above that slot's
      draw, or nothing when there is none. */
  method PushRegularEntries(spawnQueue: seq<string>, pool: seq<WeightedEnemy>, draws: seq<real>, count: int)
    returns (q: seq<string>)
    requires |draws| == Max(0, count)
    ensures q == spawnQueue + RegularEntries(pool, draws)
  {
    q := spawnQueue;
    var i := 0;
    while i < count
      invariant 0 <= i <= |draws|
      invariant q == spawnQueue + RegularEntries(pool, draws[..i])
    {
      var picked := PickEntry(pool, draws[i]);
      RegularEntriesSnoc(pool, draws, i);
      q := q + picked;
      i := i + 1;
    }
    assert draws[..i] == draws;
  }

  /** The boss step of `generateWaveComposition`: the first tier, from the
      hundredth wave down, whose period divides the wave number. */
  method PushBoss(n: int, bosses: BossTable) returns (q: seq<string>)
    ensures q == BossEntries(n, bosses)
  {
    q := [];
    if JsRemZero(n, 100) {
      q := q + [bosses.wave100];
    } else if JsRemZero(n, 50) {
      q := q + [bosses.wave50];
    } else if JsRemZero(n, 10) {
      q := q + [bosses.wave10];
    }
  }

  /** The sneak loop of `generateWaveComposition`: ceil(n / 10) sneaks when
      the wave number is a multiple of the sneak interval. */
  method PushSneaks(spawnQueue: seq<string>, n: int, interval: int) returns (q: seq<string>)
    ensures q == spawnQueue + SneakEntries(n, interval)
  {
    q := spawnQueue;
    if JsRemZero(n, interval) {
      var sneakCount := CeilDiv10(n);
      var k := 0;
      while k < sneakCount
        invariant 0 <= k <= Max(0, sneakCount)
        invariant q == spawnQueue + Repeat("sneak", k)
      {
        q := q + ["sneak"];
        k := k + 1;
      }
    }
  }

  /** Copies the queue into an array, shuffles it there and reads it back. */
  method ShuffleQueue(spawnQueue: seq<string>, choices: seq<nat>) returns (queue: seq<string>)
    ensures multiset(queue) == multiset(spawnQueue)
  {
    var a := new string[|spawnQueue|](k requires 0 <= k < |spawnQueue| => spawnQueue[k]);
    assert a[..] == spawnQueue;
    Shuffle(a, choices);
    queue := a[..];
  }

  /** `generateWaveComposition`: boss, sneaks and one draw per slot pushed in
      turn, then shuffled. The draws stand for the source's `Math.random()`
      calls, one per slot; `choices` for the shuffle's. */
  method GenerateWaveComposition(n: int, waves: WaveConfig, draws: seq<real>, choices: seq<nat>)
    returns (queue: seq<string>)
    requires |draws| == Max(0, SlotCount(n, waves))
    ensures multiset(queue) == multiset(Unshuffled(n, waves, draws))
  {
    var count := waves.baseCount + ((n as real) * waves.growthRate).Floor;
    var spawnQueue := PushBoss(n, waves.bosses);
    spawnQueue := PushSneaks(spawnQueue, n, waves.sneakSpawnInterval);
    spawnQueue := PushRegularEntries(spawnQueue, Pool(n, waves.spawnRules), draws, count);
    queue := ShuffleQueue(spawnQueue, choices);
  }

  // =====================================================================
  // Economy

  /** `getUpgradeCost`: a paragon's sentinel, else floor(cost * 0.75 * level). */
  function UpgradeCost(cost: nat, level: int, isParagon: bool): (c: int)
    ensures isParagon ==> c == ParagonUpgradeSentinel
    ensures !isParagon ==> 4 * c <= 3 * cost * level < 4 * c + 4
  {
    if isParagon then ParagonUpgradeSentinel
    else ((cost as real) * UpgradeCostMultiplier * (level as real)).Floor
  }

  /** `getSellValue`: floor(totalInvestment * 0.7). */
  function SellValue(totalInvestment: int): (v: int)
    ensures 10 * v <= 7 * totalInvestment < 10 * v + 10
  {
    ((totalInvestment as real) * SellValueMultiplier).Floor
  }

  /** Selling returns at most what was invested, and never a negative amount
      for a non-negative investment. */
  lemma SellValueBounds(totalInvestment: int)
    requires totalInvestment >= 0
    ensures 0 <= SellValue(totalInvestment) <= totalInvestment
    ensures totalInvestment > 0 ==> SellValue(totalInvestment) < totalInvestment
  {
  }

  /** More investment never sells for less. */
  lemma SellValueMonotone(i1: int, i2: int)
    requires i1 <= i2
    ensures SellValue(i1) <= SellValue(i2)
  {
  }

  /** Each level costs at least as much to leave as the one before. */
  lemma UpgradeCostMonotone(cost: nat, l1: int, l2: int)
    requires 0 <= l1 <= l2
    ensures UpgradeCost(cost, l1, false) <= UpgradeCost(cost, l2, false)
  {
    assert 3 * cost * l1 <= 3 * cost * l2 by {
      MultiplyMonotone(3 * cost, l1, l2);
    }
  }

  lemma MultiplyMonotone(c: nat, a: int, b: int)
    requires a <= b
    ensures c * a <= c * b
  {
  }
}
