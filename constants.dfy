/** Game configuration shared by every part of the rule layer: the tuning
    constants of the game, the value types for points and effects, and the
    static tower, enemy, map and balance records the rules are applied to. */
module GameConstants {

  // === Spawn & wave system ===
  const SpawnDelayFrames: int := 40
  const WaveBonusMoney: int := 20

  // === Placement & collision (pixels) ===
  const MarginX: real := 20.0
  const MarginTop: real := 80.0
  const MarginBottom: real := 100.0
  const TowerCollisionRadius: real := 40.0
  const TrapCollisionRadius: real := 25.0
  const TowerPathMinDistance: real := 40.0
  const TrapPathMaxDistance: real := 35.0
  const StumpRadius: real := 35.0
  const TowerClickRadius: real := 20.0

  // === Towers & economy ===
  const UpgradeCostMultiplier: real := 0.75
  const SellValueMultiplier: real := 0.7
  const UpgradeDamageMultiplier: real := 1.4
  const UpgradeRangeMultiplier: real := 1.1
  const ParagonDamageMultiplier: real := 5.0
  const ParagonRangeMultiplier: real := 1.5
  /** What a paragon's upgrade "costs": more than any player can hold. */
  const ParagonUpgradeSentinel: int := 999999
  const ParagonMinLevel: int := 10
  const ParagonMergeCount: int := 3
  const BankIncomeAmount: int := 20
  /** Projectile speed used when a tower type names none. */
  const DefaultBulletSpeed: real := 8.0

  // === Status effects (frames) ===
  const FreezeDuration: int := 60
  const FreezeSlowMultiplier: real := 0.5
  const BurnDuration: int := 120
  const BurnDamage: real := 5.0
  const BurnTickRate: int := 15
  const VoidDuration: int := 60

  // === Damage resolution ===
  const ArmorDamageReduction: real := 0.2
  const ReinforcedNinjaDamage: real := 1.0
  /** The health growth per wave that the enemy factory hard-codes. */
  const FactoryHealthMultiplier: real := 0.2

  // === Lives ===
  const StartingLives: int := 20
  const EmperorLivesDamage: int := 1000
  const KingLivesDamage: int := 100
  const BossLivesDamage: int := 20
  const BasicLivesDamage: int := 1

  datatype Option<T> = None | Some(value: T)

  function Max(a: int, b: int): int { if a < b then b else a }

  /** A point on the canvas (pixels) or, for map data, in normalised [0,1] units. */
  datatype Point = Point(x: real, y: real)

  function SqDist(a: Point, b: Point): (d: real)
    ensures d >= 0.0
  {
    (a.x - b.x) * (a.x - b.x) + (a.y - b.y) * (a.y - b.y)
  }

  /** `Math.hypot(a - b) < d`, stated without the square root. */
  predicate CloserThan(a: Point, b: Point, d: real) {
    d > 0.0 && SqDist(a, b) < d * d
  }

  /** `Math.hypot(a - b) <= d`, stated without the square root. */
  predicate WithinDistance(a: Point, b: Point, d: real) {
    d >= 0.0 && SqDist(a, b) <= d * d
  }

  /** Squaring is strictly monotone on the non-negative reals. */
  lemma SquareMonotone(u: real, v: real)
    requires 0.0 <= u && 0.0 <= v
    ensures u < v <==> u * u < v * v
    ensures u <= v <==> u * u <= v * v
  {
    var uu, uv, vv := u * u, u * v, v * v;
    if u < v {
      assert uu <= uv && uv < vv;
    } else if v < u {
      assert vv <= uv && uv < uu;
    }
  }

  /** For any non-negative r with r*r equal to the squared distance (that is,
      r is the Euclidean distance), the two predicates above are exactly the
      comparisons `r < d` and `r <= d` the game makes on `Math.hypot`. */
  lemma DistanceComparisons(a: Point, b: Point, d: real, r: real)
    requires r >= 0.0 && r * r == SqDist(a, b)
    ensures CloserThan(a, b, d) <==> r < d
    ensures WithinDistance(a, b, d) <==> r <= d
  {
    if d >= 0.0 {
      SquareMonotone(r, d);
    }
  }

  /** The effect tag a tower type gives its projectiles. `NoEffect` is the
      source's null/undefined; `Other` is any string no rule looks at. */
  datatype Effect = NoEffect | Burn | Explosive | Shock | Freeze | Void | Income
                  | Slow | Poison | Barracks | Other

  /** The category an enemy type declares in the balance data. */
  datatype Category = Normal | Stealth | Armored | Boss

  /** A tower type from the shop/balance data. A cost is a whole number of coins. */
  datatype TowerConfig = TowerConfig(
    cost: nat,
    damage: real,
    range: real,
    cooldown: int,
    bulletSpeed: real,   // 0.0 when the type names none
    effect: Effect,
    isTrap: bool,
    isHero: bool,
    waterOnly: bool,
    amphibious: bool,
    camoDetection: bool,
    quantity: int)

  /** An enemy type from the balance data. */
  datatype EnemyData = EnemyData(baseHealth: real, baseSpeed: real, bounty: int, category: Category)

  /** One map: its paths (normalised waypoints), water polygons (normalised),
      the glass-floor and covered-garden flags, and the stump spot if any. */
  datatype MapData = MapData(
    paths: seq<seq<Point>>,
    waterZones: seq<seq<Point>>,
    isGlassFloor: bool,
    isCovered: bool,
    stump: Option<Point>)

  /** One tier of the regular spawn table: enemy ids with cumulative weights
      (the balance data's parallel `enemies` and `weights` lists, paired). */
  datatype WeightedEnemy = WeightedEnemy(id: string, weight: real)

  datatype SpawnRules = SpawnRules(
    waves1to10: seq<WeightedEnemy>,
    waves11to25: seq<WeightedEnemy>,
    waves26to40: seq<WeightedEnemy>,
    waves41to60: seq<WeightedEnemy>,
    waves61plus: seq<WeightedEnemy>)

  datatype BossTable = BossTable(wave10: string, wave50: string, wave100: string)

  /** The `waves` block of the balance data. */
  datatype WaveConfig = WaveConfig(
    baseCount: int,
    growthRate: real,
    healthMultiplier: real,
    bosses: BossTable,
    sneakSpawnInterval: int,
    spawnRules: SpawnRules)

  datatype Balance = Balance(enemies: map<string, EnemyData>, waves: WaveConfig)

  /** A difficulty level: starting money and enemy speed multiplier
      (0.0 when the level names none, which the engine reads as 1). */
  datatype Difficulty = Difficulty(startMoney: int, speedMultiplier: real)
}
