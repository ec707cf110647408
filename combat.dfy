/** The rules of one frame of the game loop that are not about enemies
    walking: the spawner that releases the wave's queue one enemy per delay,
    the towers (counting down, paying out as banks, firing at the first
    enemy in sight) and the projectiles (flying toward their target or
    striking it). */
module Combat {
  import opened GameConstants
  import opened GameLogic
  import opened EntityFactories
  import opened Lists

  // =====================================================================
  // Spawning

  /** The spawn queue and the frames counted since the last spawn. */
  datatype Spawner = Spawner(queue: seq<string>, timer: int)

  /** One frame of the spawner: while the wave is active and enemies wait,
      the timer counts up; when it reaches the delay it restarts and the
      front of the queue is released. */
  function SpawnStep(active: bool, s: Spawner): (Spawner, Option<string>) {
    if active && |s.queue| > 0 then
      if s.timer + 1 >= SpawnDelayFrames then (Spawner(s.queue[1..], 0), Some(s.queue[0]))
      else (Spawner(s.queue, s.timer + 1), None)
    else (s, None)
  }

  function Released(out: Option<string>): seq<string> {
    if out.Some? then [out.value] else []
  }

  /** The spawner over n frames of an active wave, with the ids it releases. */
  function SpawnSteps(s: Spawner, n: nat): (Spawner, seq<string>)
    decreases n
  {
    if n == 0 then (s, [])
    else
      var first := SpawnStep(true, s);
      var rest := SpawnSteps(first.0, n - 1);
      (rest.0, Released(first.1) + rest.1)
  }

  /** The timer stays below the delay, the queue only loses its front, and
      nothing is released while the wave is inactive or the queue empty. */
  lemma SpawnStepBounds(active: bool, s: Spawner)
    requires 0 <= s.timer < SpawnDelayFrames
    ensures var (s1, out) := SpawnStep(active, s);
            && 0 <= s1.timer < SpawnDelayFrames
            && (out.Some? <==> active && |s.queue| > 0 && s.timer == SpawnDelayFrames - 1)
            && (out.Some? ==> out.value == s.queue[0] && s1.queue == s.queue[1..] && s1.timer == 0)
            && (out.None? ==> s1.queue == s.queue)
  {
  }

  /** With t frames already counted, the next release comes exactly
      `SpawnDelayFrames - t` frames later and is the front of the queue. */
  lemma {:induction false} OneSpawnPerDelay(q: seq<string>, t: int)
    requires |q| > 0 && 0 <= t < SpawnDelayFrames
    ensures SpawnSteps(Spawner(q, t), SpawnDelayFrames - t) == (Spawner(q[1..], 0), [q[0]])
    decreases SpawnDelayFrames - t
  {
    var n := SpawnDelayFrames - t;
    if t + 1 < SpawnDelayFrames {
      OneSpawnPerDelay(q, t + 1);
      var rest := SpawnSteps(Spawner(q, t + 1), n - 1);
      assert SpawnStep(true, Spawner(q, t)) == (Spawner(q, t + 1), None);
      assert [] + rest.1 == rest.1;
    } else {
      assert SpawnStep(true, Spawner(q, t)) == (Spawner(q[1..], 0), Some(q[0]));
      assert [q[0]] + [] == [q[0]];
    }
  }

  lemma {:induction false} SpawnStepsAdd(s: Spawner, m: nat, n: nat)
    ensures var (s1, out1) := SpawnSteps(s, m);
            var (s2, out2) := SpawnSteps(s1, n);
            SpawnSteps(s, m + n) == (s2, out1 + out2)
    decreases m
  {
    if m > 0 {
      var s1 := SpawnStep(true, s).0;
      SpawnStepsAdd(s1, m - 1, n);
      var first := Released(SpawnStep(true, s).1);
      var r1 := SpawnSteps(s1, m - 1);
      var r2 := SpawnSteps(r1.0, n);
      assert SpawnSteps(s, m) == (r1.0, first + r1.1);
      assert SpawnSteps(s, m + n) == (r2.0, first + (r1.1 + r2.1));
      assert first + (r1.1 + r2.1) == (first + r1.1) + r2.1;
    } else {
      assert [] + SpawnSteps(s, n).1 == SpawnSteps(s, n).1;
    }
  }

  /** From a fresh timer, k delays release exactly the first k queued ids,
      in queue order, and leave the rest queued. */
  lemma {:induction false} QueueReleasedInOrder(q: seq<string>, k: nat)
    requires k <= |q|
    ensures SpawnSteps(Spawner(q, 0), k * SpawnDelayFrames) == (Spawner(q[k..], 0), q[..k])
  {
    if k > 0 {
      QueueReleasedInOrder(q, k - 1);
      OneSpawnPerDelay(q[k - 1..], 0);
      SpawnStepsAdd(Spawner(q, 0), (k - 1) * SpawnDelayFrames, SpawnDelayFrames);
      assert (k - 1) * SpawnDelayFrames + SpawnDelayFrames == k * SpawnDelayFrames;
      assert q[k - 1..][1..] == q[k..];
      assert q[..k - 1] + [q[k - 1]] == q[..k];
    }
  }

  // =====================================================================
  // Towers

  /** `bulletSpeed || 8`: a tower type naming no speed shoots at 8. */
  function ShotSpeed(cfg: TowerConfig): real {
    if cfg.bulletSpeed == 0.0 then DefaultBulletSpeed else cfg.bulletSpeed
  }

  class Projectile {
    var pos: Point
    const target: Enemy
    const damage: real
    const speed: real
    const effect: Effect
    const isParagon: bool

    /** The projectile a tower fires at an enemy: from the tower, with the
        tower's current damage and its type's speed and effect. */
    constructor Fire(t: Tower, e: Enemy)
      ensures pos == t.pos && target == e && damage == t.damage
      ensures speed == ShotSpeed(t.config) && effect == t.config.effect && isParagon == t.isParagon
    {
      pos := t.pos;
      target := e;
      damage := t.damage;
      speed := ShotSpeed(t.config);
      effect := t.config.effect;
      isParagon := t.isParagon;
    }
  }

  /** A projectile as launched: where it starts, whom it chases and what it
      carries. */
  datatype Shot = Shot(origin: Point, target: Enemy, damage: real, speed: real, effect: Effect, isParagon: bool)

  /** The projectile t fires at e: from the tower, with the tower's current
      damage and its type's speed and effect. */
  function ShotOf(t: Tower, e: Enemy): Shot
    reads t`damage
  {
    Shot(t.pos, e, t.damage, ShotSpeed(t.config), t.config.effect, t.isParagon)
  }

  /** What a projectile is, as launched. */
  function Launch(pr: Projectile): Shot
    reads pr`pos
  {
    Shot(pr.pos, pr.target, pr.damage, pr.speed, pr.effect, pr.isParagon)
  }

  function Launches(prs: seq<Projectile>): (r: seq<Shot>)
    reads prs`pos
    ensures |r| == |prs|
  {
    if |prs| == 0 then [] else Launches(prs[..|prs| - 1]) + [Launch(prs[|prs| - 1])]
  }

  lemma LaunchesSnoc(prs: seq<Projectile>, pr: Projectile)
    ensures Launches(prs + [pr]) == Launches(prs) + [Launch(pr)]
  {
    assert (prs + [pr])[..|prs|] == prs;
  }

  /** The j-th shot of a sequence of projectiles is the j-th projectile's. */
  lemma {:induction false} LaunchAt(prs: seq<Projectile>, j: int)
    requires 0 <= j < |prs|
    ensures Launches(prs)[j] == Launch(prs[j])
  {
    if j < |prs| - 1 {
      LaunchAt(prs[..|prs| - 1], j);
    }
  }

  /** What a tower does in one frame: the cooldown it ends with, the money
      it earns and whether it fires. */
  datatype TowerTick = TowerTick(cooldown: int, income: int, fires: bool)

  /** Whether a bank pays on this tick: `tick % cooldown === 0`, which is
      false (NaN) for a zero cooldown. */
  predicate PaysOn(cfg: TowerConfig, tick: int) {
    cfg.effect == Income && JsRemZero(tick, cfg.cooldown)
  }

  /** One tower's frame, given whether an enemy is in its sight: the
      cooldown counts down to 0; a bank pays on the ticks its cooldown
      divides; a tower that is neither trap nor bank and is ready fires and
      reloads. */
  function TowerFrame(cooldown: int, cfg: TowerConfig, tick: int, sighted: bool): TowerTick {
    var c := Max(0, cooldown - 1);
    var income := if PaysOn(cfg, tick) then BankIncomeAmount else 0;
    if c == 0 && !cfg.isTrap && cfg.effect != Income && sighted then TowerTick(cfg.cooldown, income, true)
    else TowerTick(c, income, false)
  }

  /** Only a ready tower with a target fires, and it reloads to its type's
      cooldown; banks and traps never fire; a bank earns exactly on the
      ticks its cooldown divides, and nothing else earns. */
  lemma TowerFrameRules(cooldown: int, cfg: TowerConfig, tick: int, sighted: bool)
    ensures var r := TowerFrame(cooldown, cfg, tick, sighted);
            && (r.fires <==> cooldown <= 1 && sighted && !cfg.isTrap && cfg.effect != Income)
            && (r.fires ==> r.cooldown == cfg.cooldown)
            && (!r.fires ==> r.cooldown == Max(0, cooldown - 1) && r.cooldown < Max(1, cooldown))
            && (r.income == BankIncomeAmount <==> cfg.effect == Income && cfg.cooldown != 0 && tick % cfg.cooldown == 0)
            && (r.income != BankIncomeAmount ==> r.income == 0)
            && !(r.fires && r.income > 0)
  {
  }

  /** A tower that can fire: neither trap nor bank, and reloading for at
      least a frame. */
  predicate Armed(cfg: TowerConfig) {
    !cfg.isTrap && cfg.effect != Income && cfg.cooldown >= 1
  }

  /** The cooldown and the number of shots after n frames with an enemy
      always in sight. */
  function Volleys(cooldown: int, cfg: TowerConfig, n: nat): (int, nat)
    decreases n
  {
    if n == 0 then (cooldown, 0)
    else
      var r := TowerFrame(cooldown, cfg, 0, true);
      var (c, k) := Volleys(r.cooldown, cfg, n - 1);
      (c, k + if r.fires then 1 else 0)
  }

  lemma {:induction false} VolleysAdd(cooldown: int, cfg: TowerConfig, m: nat, n: nat)
    ensures var (c1, k1) := Volleys(cooldown, cfg, m);
            var (c2, k2) := Volleys(c1, cfg, n);
            Volleys(cooldown, cfg, m + n) == (c2, k1 + k2)
    decreases m
  {
    if m > 0 {
      VolleysAdd(TowerFrame(cooldown, cfg, 0, true).cooldown, cfg, m - 1, n);
    }
  }

  /** A reloading tower with c frames to go fires once, on the c-th frame,
      and is then fully reloaded again. */
  lemma {:induction false} ReloadBlock(c: int, cfg: TowerConfig)
    requires Armed(cfg) && 1 <= c <= cfg.cooldown
    ensures Volleys(c, cfg, c) == (cfg.cooldown, 1)
  {
    if c > 1 {
      ReloadBlock(c - 1, cfg);
    }
  }

  /** Fire rate: a new tower (cooldown 0) that always has an enemy in sight
      fires on its first frame and then once every `cooldown` frames. */
  lemma {:induction false} FireRate(cfg: TowerConfig, k: nat)
    requires Armed(cfg)
    ensures Volleys(0, cfg, 1 + k * cfg.cooldown) == (cfg.cooldown, k + 1)
  {
    if k > 0 {
      FireRate(cfg, k - 1);
      ReloadBlock(cfg.cooldown, cfg);
      VolleysAdd(0, cfg, 1 + (k - 1) * cfg.cooldown, cfg.cooldown);
      assert 1 + (k - 1) * cfg.cooldown + cfg.cooldown == 1 + k * cfg.cooldown;
    }
  }

  /** The targeting test of `enemies.find`, for an enemy standing at spot:
      the tower sees it (it is not stealthed, or the tower detects camo) and
      it is within range. */
  predicate InSight(e: Enemy, spot: Point, camo: bool, at: Point, range: real) {
    !(e.isStealthed && !camo) && WithinDistance(spot, at, range)
  }

  /** `enemies.find(...)` over enemies standing at spots: the index of the
      first one in sight, if any. */
  function FirstTarget(es: seq<Enemy>, spots: seq<Point>, camo: bool, at: Point, range: real): (r: Option<nat>)
    requires |spots| == |es|
    ensures r.Some? ==> r.value < |es|
  {
    if |es| == 0 then None
    else if InSight(es[0], spots[0], camo, at, range) then Some(0)
    else
      match FirstTarget(es[1..], spots[1..], camo, at, range)
      case None => None
      case Some(k) => Some(k + 1)
  }

  /** The search finds an enemy in sight with none in sight before it, and
      finds nothing only when no enemy is in sight. */
  lemma {:induction false} FirstTargetIsFirst(es: seq<Enemy>, spots: seq<Point>, camo: bool, at: Point, range: real)
    requires |spots| == |es|
    ensures var r := FirstTarget(es, spots, camo, at, range);
            && (r.Some? ==> InSight(es[r.value], spots[r.value], camo, at, range))
            && (r.Some? ==> forall j :: 0 <= j < r.value ==> !InSight(es[j], spots[j], camo, at, range))
            && (r.None? ==> forall j :: 0 <= j < |es| ==> !InSight(es[j], spots[j], camo, at, range))
  {
    if |es| > 0 && !InSight(es[0], spots[0], camo, at, range) {
      FirstTargetIsFirst(es[1..], spots[1..], camo, at, range);
      assert forall j :: 1 <= j < |es| ==> es[j] == es[1..][j - 1] && spots[j] == spots[1..][j - 1];
    }
  }

  /** Where the enemies stand. */
  function Spots(es: seq<Enemy>): (r: seq<Point>)
    reads es`pos
    ensures |r| == |es| && forall k :: 0 <= k < |es| ==> r[k] == es[k].pos
  {
    if |es| == 0 then [] else Spots(es[..|es| - 1]) + [es[|es| - 1].pos]
  }

  /** The ranges of the towers. */
  function Ranges(ts: seq<Tower>): (r: seq<real>)
    reads ts`range
    ensures |r| == |ts| && forall k :: 0 <= k < |ts| ==> r[k] == ts[k].range
  {
    if |ts| == 0 then [] else Ranges(ts[..|ts| - 1]) + [ts[|ts| - 1].range]
  }

  /** The enemy a tower at `at` with the given range and camo detection
      would fire at, if any. */
  function Aim(es: seq<Enemy>, spots: seq<Point>, camo: bool, at: Point, range: real): Option<Enemy>
    requires |spots| == |es|
  {
    match FirstTarget(es, spots, camo, at, range)
    case None => None
    case Some(k) => Some(es[k])
  }

  /** The enemy t would fire at, if any. */
  function TargetOf(t: Tower, es: seq<Enemy>): Option<Enemy>
    reads t`range, es`pos
  {
    Aim(es, Spots(es), t.config.camoDetection, t.pos, t.range)
  }

  /** The towers' cooldowns. */
  function Cooldowns(ts: seq<Tower>): (r: seq<int>)
    reads ts`cooldown
    ensures |r| == |ts| && forall i :: 0 <= i < |ts| ==> r[i] == ts[i].cooldown
  {
    if |ts| == 0 then [] else Cooldowns(ts[..|ts| - 1]) + [ts[|ts| - 1].cooldown]
  }

  /** The target of each tower on this frame, from the towers' ranges and
      the enemies' positions. A tower's frame changes only its own
      cooldown, so no tower changes what another one sees. */
  function Targets(ts: seq<Tower>, ranges: seq<real>, es: seq<Enemy>, spots: seq<Point>): (r: seq<Option<Enemy>>)
    requires |ranges| == |ts| && |spots| == |es|
    ensures |r| == |ts|
  {
    if |ts| == 0 then []
    else
      var k := |ts| - 1;
      Targets(ts[..k], ranges[..k], es, spots) + [Aim(es, spots, ts[k].config.camoDetection, ts[k].pos, ranges[k])]
  }

  lemma {:induction false} TargetsAt(ts: seq<Tower>, ranges: seq<real>, es: seq<Enemy>, spots: seq<Point>, i: int)
    requires |ranges| == |ts| && |spots| == |es| && 0 <= i < |ts|
    ensures Targets(ts, ranges, es, spots)[i] == Aim(es, spots, ts[i].config.camoDetection, ts[i].pos, ranges[i])
  {
    var k := |ts| - 1;
    if i < k {
      TargetsAt(ts[..k], ranges[..k], es, spots, i);
    }
  }

  /** Every tower's cooldown after its frame. */
  function Reloads(ts: seq<Tower>, cools: seq<int>, targets: seq<Option<Enemy>>, tick: int): (r: seq<int>)
    requires |cools| == |ts| == |targets|
    ensures |r| == |ts|
  {
    if |ts| == 0 then []
    else
      var k := |ts| - 1;
      Reloads(ts[..k], cools[..k], targets[..k], tick) + [TowerFrame(cools[k], ts[k].config, tick, targets[k].Some?).cooldown]
  }

  lemma {:induction false} ReloadAt(ts: seq<Tower>, cools: seq<int>, targets: seq<Option<Enemy>>, tick: int, i: int)
    requires |cools| == |ts| == |targets| && 0 <= i < |ts|
    ensures Reloads(ts, cools, targets, tick)[i] == TowerFrame(cools[i], ts[i].config, tick, targets[i].Some?).cooldown
  {
    var k := |ts| - 1;
    if i < k {
      ReloadAt(ts[..k], cools[..k], targets[..k], tick, i);
    }
  }

  /** What the banks among the towers earn on this tick. */
  function BankIncome(ts: seq<Tower>, tick: int): (n: int)
    ensures n >= 0
  {
    if |ts| == 0 then 0
    else
      var k := |ts| - 1;
      BankIncome(ts[..k], tick) + if PaysOn(ts[k].config, tick) then BankIncomeAmount else 0
  }

  /** The towers earn something exactly when one of them is a bank paying
      on this tick. */
  lemma {:induction false} BankIncomeZero(ts: seq<Tower>, tick: int)
    ensures BankIncome(ts, tick) == 0 <==> forall i :: 0 <= i < |ts| ==> !PaysOn(ts[i].config, tick)
  {
    if |ts| > 0 {
      var k := |ts| - 1;
      BankIncomeZero(ts[..k], tick);
      assert forall i :: 0 <= i < k ==> ts[..k][i] == ts[i];
    }
  }

  /** The projectiles the towers fire this frame, in tower order. */
  function Volley(ts: seq<Tower>, cools: seq<int>, targets: seq<Option<Enemy>>, tick: int)
    : (r: seq<Shot>)
    requires |cools| == |ts| == |targets|
    reads ts`damage
    ensures |r| <= |ts|
  {
    if |ts| == 0 then []
    else
      var k := |ts| - 1;
      Volley(ts[..k], cools[..k], targets[..k], tick)
      + if TowerFrame(cools[k], ts[k].config, tick, targets[k].Some?).fires then [ShotOf(ts[k], targets[k].value)] else []
  }

  lemma VolleySnoc(ts: seq<Tower>, cools: seq<int>, targets: seq<Option<Enemy>>, tick: int, i: int)
    requires |cools| == |ts| == |targets| && 0 <= i < |ts|
    ensures Volley(ts[..i + 1], cools[..i + 1], targets[..i + 1], tick)
            == Volley(ts[..i], cools[..i], targets[..i], tick)
               + if TowerFrame(cools[i], ts[i].config, tick, targets[i].Some?).fires then [ShotOf(ts[i], targets[i].value)] else []
  {
    assert ts[..i + 1][..i] == ts[..i];
    assert cools[..i + 1][..i] == cools[..i];
    assert targets[..i + 1][..i] == targets[..i];
  }

  lemma IncomeSnoc(ts: seq<Tower>, tick: int, i: int)
    requires 0 <= i < |ts|
    ensures BankIncome(ts[..i + 1], tick) == BankIncome(ts[..i], tick) + if PaysOn(ts[i].config, tick) then BankIncomeAmount else 0
  {
    assert ts[..i + 1][..i] == ts[..i];
  }

  /** The body of the tower loop for one tower. */
  method TowerTurn(t: Tower, es: seq<Enemy>, tick: int) returns (income: int, shot: Option<Projectile>)
    modifies t`cooldown
    ensures var target := TargetOf(t, es);
            var r := TowerFrame(old(t.cooldown), t.config, tick, target.Some?);
            && t.cooldown == r.cooldown && income == r.income && (shot.Some? <==> r.fires)
            && (shot.Some? ==> fresh(shot.value) && Launch(shot.value) == ShotOf(t, target.value))
  {
    t.cooldown := Max(0, t.cooldown - 1);
    income := if PaysOn(t.config, tick) then BankIncomeAmount else 0;
    shot := None;
    if t.cooldown == 0 && !t.config.isTrap && t.config.effect != Income {
      var target := TargetOf(t, es);
      if target.Some? {
        var pr := new Projectile.Fire(t, target.value);
        shot := Some(pr);
        t.cooldown := t.config.cooldown;
      }
    }
  }

  /** The cooldowns of the towers while the tower loop is at index i: the
      first i have their new cooldowns `after`, the rest still their old
      cooldowns `cools`. */
  ghost predicate Reloaded(ts: seq<Tower>, i: int, after: seq<int>, cools: seq<int>)
    requires 0 <= i <= |ts| && |after| == |cools| == |ts|
    reads ts`cooldown
  {
    (forall k :: 0 <= k < i ==> ts[k].cooldown == after[k]) && (forall k :: i <= k < |ts| ==> ts[k].cooldown == cools[k])
  }

  /** The income and the shots of the tower loop after the first i towers:
      the banks' income of those towers, and distinct new projectiles
      launching exactly their volley. */
  ghost predicate Booked(ts: seq<Tower>, i: int, cools: seq<int>, targets: seq<Option<Enemy>>, tick: int,
                         avoid: seq<Projectile>, income: int, shots: seq<Projectile>)
    requires 0 <= i <= |ts| && |cools| == |ts| == |targets|
    reads ts`damage, shots`pos
  {
    && income == BankIncome(ts[..i], tick)
    && Launches(shots) == Volley(ts[..i], cools[..i], targets[..i], tick)
    && Distinct(shots) && Disjoint(shots, avoid)
  }

  /** What the i-th tower earned and fired on its frame: its income, and a
      new projectile exactly when its frame fires, launching its shot. */
  ghost predicate Fired(ts: seq<Tower>, i: int, cools: seq<int>, targets: seq<Option<Enemy>>, tick: int,
                        avoid: seq<Projectile>, shots: seq<Projectile>, earned: int, shot: Option<Projectile>)
    requires 0 <= i < |ts| && |cools| == |ts| == |targets|
    reads ts, if shot.Some? then {shot.value} else {}
  {
    var r := TowerFrame(cools[i], ts[i].config, tick, targets[i].Some?);
    && earned == r.income && (shot.Some? <==> r.fires)
    && (shot.Some? ==> shot.value !in shots && shot.value !in avoid
                       && Launch(shot.value) == ShotOf(ts[i], targets[i].value))
  }

  /** What the i-th tower's frame inside the tower loop stands on: it is
      the only entry of the tower list that is that tower, the enemies are
      at `spots`, `targets[i]` is its target from where it stands, and
      `after[i]` its cooldown once its frame is done. */
  ghost predicate StepReady(ts: seq<Tower>, i: int, es: seq<Enemy>, tick: int, cools: seq<int>, after: seq<int>,
                            spots: seq<Point>, targets: seq<Option<Enemy>>)
    reads ts`cooldown, ts`range, es`pos
  {
    && 0 <= i < |ts| && |cools| == |ts| == |after| == |targets| && |spots| == |es|
    && (forall k :: 0 <= k < |ts| && k != i ==> ts[k] != ts[i])
    && (forall k :: 0 <= k < |es| ==> es[k].pos == spots[k])
    && targets[i] == Aim(es, spots, ts[i].config.camoDetection, ts[i].pos, ts[i].range)
    && after[i] == TowerFrame(cools[i], ts[i].config, tick, targets[i].Some?).cooldown
    && Reloaded(ts, i, after, cools)
  }

  /** Before its i-th pass, the tower loop stands where the i-th tower's
      frame needs it, and the income and the shots are those of the first i
      towers. */
  lemma ReadyAt(ts: seq<Tower>, i: int, es: seq<Enemy>, tick: int, avoid: seq<Projectile>, cools: seq<int>,
                ranges: seq<real>, spots: seq<Point>, targets: seq<Option<Enemy>>, after: seq<int>,
                income: int, shots: seq<Projectile>)
    requires i < |ts| && TowerLoopAt(ts, i, es, tick, avoid, cools, ranges, spots, targets, after, income, shots) == true
    ensures StepReady(ts, i, es, tick, cools, after, spots, targets) == true
    ensures Booked(ts, i, cools, targets, tick, avoid, income, shots)
  {
    DistinctAt(ts, i);
    TargetsAt(ts, ranges, es, spots, i);
    ReloadAt(ts, cools, targets, tick, i);
  }

  /** The i-th tower's frame inside the tower loop, against the enemies'
      positions `spots` and its target `targets[i]`. */
  method TowerStep(t: Tower, ts: seq<Tower>, i: int, es: seq<Enemy>, tick: int, ghost cools: seq<int>,
                   ghost after: seq<int>, ghost spots: seq<Point>, ghost targets: seq<Option<Enemy>>,
                   ghost avoid: seq<Projectile>, shots: seq<Projectile>)
    returns (earned: int, shot: Option<Projectile>)
    requires 0 <= i < |ts| && ts[i] == t && StepReady(ts, i, es, tick, cools, after, spots, targets) == true
    modifies t`cooldown
    ensures Reloaded(ts, i + 1, after, cools)
    ensures Fired(ts, i, cools, targets, tick, avoid, shots, earned, shot) == true
    ensures shot.Some? ==> fresh(shot.value)
  {
    assert Spots(es) == spots;
    earned, shot := TowerTurn(t, es, tick);
  }

  /** The income and the shots of the first i + 1 towers, from those of the
      first i and what the i-th tower earned and fired. */
  method Tally(ts: seq<Tower>, i: int, ghost cools: seq<int>, ghost targets: seq<Option<Enemy>>, tick: int,
               ghost avoid: seq<Projectile>, income: int, shots: seq<Projectile>, earned: int, shot: Option<Projectile>)
    returns (income': int, shots': seq<Projectile>)
    requires 0 <= i < |ts| && |cools| == |ts| == |targets|
    requires Booked(ts, i, cools, targets, tick, avoid, income, shots)
    requires Fired(ts, i, cools, targets, tick, avoid, shots, earned, shot) == true
    ensures Booked(ts, i + 1, cools, targets, tick, avoid, income', shots')
    ensures shots' == shots + if shot.Some? then [shot.value] else []
  {
    VolleySnoc(ts, cools, targets, tick, i);
    IncomeSnoc(ts, tick, i);
    income' := income + earned;
    shots' := shots;
    if shot.Some? {
      Snoc(shots, shot.value, avoid);
      LaunchesSnoc(shots, shot.value);
      shots' := shots + [shot.value];
    }
  }

  /** Where the tower loop stands before the i-th tower: the snapshots of
      the ranges, the enemies' positions, the targets and the new cooldowns
      taken when it started, the cooldowns reloaded so far, and the income
      and the shots of the first i towers. The loop's contracts compare it
      with `true`, so that each use is checked as the one fact it is rather
      than conjunct by conjunct. */
  ghost predicate TowerLoopAt(ts: seq<Tower>, i: int, es: seq<Enemy>, tick: int, avoid: seq<Projectile>,
                              cools: seq<int>, ranges: seq<real>, spots: seq<Point>, targets: seq<Option<Enemy>>,
                              after: seq<int>, income: int, shots: seq<Projectile>)
    reads ts`cooldown, ts`range, ts`damage, es`pos, shots`pos
  {
    && Distinct(ts) && 0 <= i <= |ts| && |cools| == |ts| == |ranges| && |spots| == |es|
    && (forall k :: 0 <= k < |ts| ==> ts[k].range == ranges[k])
    && (forall k :: 0 <= k < |es| ==> es[k].pos == spots[k])
    && targets == Targets(ts, ranges, es, spots) && after == Reloads(ts, cools, targets, tick)
    && Reloaded(ts, i, after, cools)
    && Booked(ts, i, cools, targets, tick, avoid, income, shots)
  }

  /** One pass of the tower loop: the i-th tower takes its frame, and the
      cooldowns, the income and the shots advance from the first i towers to
      the first i + 1. */
  method VisitTower(ts: seq<Tower>, i: int, es: seq<Enemy>, tick: int, ghost avoid: seq<Projectile>,
                    ghost cools: seq<int>, ghost ranges: seq<real>, ghost spots: seq<Point>,
                    ghost targets: seq<Option<Enemy>>, ghost after: seq<int>, income: int, shots: seq<Projectile>)
    returns (income': int, shots': seq<Projectile>)
    requires i < |ts| && TowerLoopAt(ts, i, es, tick, avoid, cools, ranges, spots, targets, after, income, shots) == true
    modifies ts`cooldown
    ensures TowerLoopAt(ts, i + 1, es, tick, avoid, cools, ranges, spots, targets, after, income', shots') == true
    ensures forall k :: 0 <= k < |shots'| ==> shots'[k] in shots || fresh(shots'[k])
  {
    ReadyAt(ts, i, es, tick, avoid, cools, ranges, spots, targets, after, income, shots);
    var earned, shot := TowerStep(ts[i], ts, i, es, tick, cools, after, spots, targets, avoid, shots);
    income', shots' := Tally(ts, i, cools, targets, tick, avoid, income, shots, earned, shot);
  }

  /** The tower loop (`towers.forEach`) over the towers' cooldowns, ranges
      and targets as they stand when it starts. */
  method TowerLoop(ts: seq<Tower>, es: seq<Enemy>, tick: int, ghost avoid: seq<Projectile>, ghost cools: seq<int>,
                   ghost ranges: seq<real>, ghost spots: seq<Point>, ghost targets: seq<Option<Enemy>>,
                   ghost after: seq<int>)
    returns (income: int, shots: seq<Projectile>)
    requires TowerLoopAt(ts, 0, es, tick, avoid, cools, ranges, spots, targets, after, 0, []) == true
    modifies ts`cooldown
    ensures TowerLoopAt(ts, |ts|, es, tick, avoid, cools, ranges, spots, targets, after, income, shots) == true
    ensures forall k :: 0 <= k < |shots| ==> fresh(shots[k])
  {
    income, shots := 0, [];
    var i := 0;
    while i < |ts|
      invariant TowerLoopAt(ts, i, es, tick, avoid, cools, ranges, spots, targets, after, income, shots) == true
      invariant forall k :: 0 <= k < |shots| ==> fresh(shots[k])
      decreases |ts| - i
    {
      income, shots := VisitTower(ts, i, es, tick, avoid, cools, ranges, spots, targets, after, income, shots);
      i := i + 1;
    }
  }

  /** What the towers' phase leaves behind, against the cooldowns `cools`
      and the targets taken when it started: each tower has its new
      cooldown, and the projectiles fired launch the volley, shot by shot.
      The phase's contracts compare it with `true`, so that it is carried
      across later changes of other objects as the one fact it is. */
  ghost predicate Volleyed(ts: seq<Tower>, cools: seq<int>, targets: seq<Option<Enemy>>, tick: int,
                           volley: seq<Shot>, fired: seq<Projectile>)
    reads ts`cooldown, fired`pos
  {
    && |cools| == |ts| == |targets|
    && (forall i :: 0 <= i < |ts| ==> ts[i].cooldown == TowerFrame(cools[i], ts[i].config, tick, targets[i].Some?).cooldown)
    && |fired| == |volley| && (forall k :: 0 <= k < |fired| ==> Launch(fired[k]) == volley[k])
  }

  /** The towers' phase of a frame: every tower takes its frame in order
      against the enemies as they stand; the banks' income and the
      projectiles fired are returned, one per firing tower, in tower order,
      all of them new. */
  method TowerVolleys(ts: seq<Tower>, es: seq<Enemy>, tick: int, ghost avoid: seq<Projectile>)
    returns (income: int, shots: seq<Projectile>)
    requires Distinct(ts)
    modifies ts`cooldown
    ensures Volleyed(ts, old(Cooldowns(ts)), old(Targets(ts, Ranges(ts), es, Spots(es))), tick,
                     old(Volley(ts, Cooldowns(ts), Targets(ts, Ranges(ts), es, Spots(es)), tick)), shots) == true
    ensures income == BankIncome(ts, tick)
    ensures Distinct(shots) && Disjoint(shots, avoid)
    ensures forall k :: 0 <= k < |shots| ==> fresh(shots[k]) && shots[k].target in es
  {
    ghost var cools := Cooldowns(ts);
    ghost var ranges := Ranges(ts);
    ghost var spots := Spots(es);
    ghost var targets := Targets(ts, ranges, es, spots);
    ghost var after := Reloads(ts, cools, targets, tick);
    assert Booked(ts, 0, cools, targets, tick, avoid, 0, []);
    income, shots := TowerLoop(ts, es, tick, avoid, cools, ranges, spots, targets, after);
    TowerLoopDone(ts, es, tick, avoid, cools, ranges, spots, targets, after, income, shots);
    VolleyDone(ts, es, tick, cools, ranges, spots, targets, shots);
  }

  /** Every tower's target is one of the enemies. */
  lemma TargetsAmong(ts: seq<Tower>, ranges: seq<real>, es: seq<Enemy>, spots: seq<Point>)
    requires |ranges| == |ts| && |spots| == |es|
    ensures var targets := Targets(ts, ranges, es, spots);
            forall k :: 0 <= k < |ts| && targets[k].Some? ==> targets[k].value in es
  {
    forall k | 0 <= k < |ts|
      ensures var target := Targets(ts, ranges, es, spots)[k]; target.Some? ==> target.value in es
    {
      TargetsAt(ts, ranges, es, spots, k);
    }
  }

  /** A volley fires only at the towers' targets. */
  lemma {:induction false} VolleyAmong(ts: seq<Tower>, cools: seq<int>, targets: seq<Option<Enemy>>, tick: int,
                                        es: seq<Enemy>)
    requires |cools| == |ts| == |targets|
    requires forall k :: 0 <= k < |ts| && targets[k].Some? ==> targets[k].value in es
    ensures forall v :: v in Volley(ts, cools, targets, tick) ==> v.target in es
  {
    if |ts| > 0 {
      var n := |ts| - 1;
      VolleyAmong(ts[..n], cools[..n], targets[..n], tick, es);
    }
  }

  /** Projectiles launching a volley chase the towers' targets. */
  lemma ShotsAmong(shots: seq<Projectile>, ts: seq<Tower>, cools: seq<int>, targets: seq<Option<Enemy>>,
                   tick: int, es: seq<Enemy>)
    requires |cools| == |ts| == |targets|
    requires forall k :: 0 <= k < |ts| && targets[k].Some? ==> targets[k].value in es
    requires Launches(shots) == Volley(ts, cools, targets, tick)
    ensures forall k :: 0 <= k < |shots| ==> shots[k].target in es
  {
    VolleyAmong(ts, cools, targets, tick, es);
    forall k | 0 <= k < |shots|
      ensures shots[k].target in es
    {
      LaunchAt(shots, k);
      assert Launches(shots)[k] in Volley(ts, cools, targets, tick);
    }
  }

  /** What the tower loop has done once it has visited every tower. */
  lemma TowerLoopDone(ts: seq<Tower>, es: seq<Enemy>, tick: int, avoid: seq<Projectile>, cools: seq<int>,
                      ranges: seq<real>, spots: seq<Point>, targets: seq<Option<Enemy>>, after: seq<int>,
                      income: int, shots: seq<Projectile>)
    requires TowerLoopAt(ts, |ts|, es, tick, avoid, cools, ranges, spots, targets, after, income, shots) == true
    ensures Ranges(ts) == ranges && Spots(es) == spots && targets == Targets(ts, ranges, es, spots)
    ensures forall i :: 0 <= i < |ts| ==>
              ts[i].cooldown == TowerFrame(cools[i], ts[i].config, tick, targets[i].Some?).cooldown
    ensures income == BankIncome(ts, tick)
    ensures Launches(shots) == Volley(ts, cools, targets, tick)
    ensures Distinct(shots) && Disjoint(shots, avoid)
  {
    Whole(ts);
    Whole(cools);
    Whole(targets);
    forall i | 0 <= i < |ts|
      ensures ts[i].cooldown == TowerFrame(cools[i], ts[i].config, tick, targets[i].Some?).cooldown
    {
      ReloadAt(ts, cools, targets, tick, i);
    }
  }

  /** What the towers' phase leaves behind once the loop is done: the
      volley's shots chase only the enemies, and the phase is Volleyed. */
  lemma VolleyDone(ts: seq<Tower>, es: seq<Enemy>, tick: int, cools: seq<int>, ranges: seq<real>,
                   spots: seq<Point>, targets: seq<Option<Enemy>>, shots: seq<Projectile>)
    requires |cools| == |ts| == |ranges| && |spots| == |es| && targets == Targets(ts, ranges, es, spots)
    requires forall i :: 0 <= i < |ts| ==>
               ts[i].cooldown == TowerFrame(cools[i], ts[i].config, tick, targets[i].Some?).cooldown
    requires Launches(shots) == Volley(ts, cools, targets, tick)
    ensures Volleyed(ts, cools, targets, tick, Volley(ts, cools, targets, tick), shots) == true
    ensures forall k :: 0 <= k < |shots| ==> shots[k].target in es
  {
    forall k | 0 <= k < |shots|
      ensures Launch(shots[k]) == Launches(shots)[k]
    {
      LaunchAt(shots, k);
    }
    TargetsAmong(ts, ranges, es, spots);
    ShotsAmong(shots, ts, cools, targets, tick, es);
  }

  // =====================================================================
  // Projectiles

  /** The enemies the projectiles chase, in list order. */
  function Aims(prs: seq<Projectile>): (r: seq<Enemy>)
    ensures |r| == |prs| && forall k :: 0 <= k < |prs| ==> r[k] == prs[k].target
  {
    if |prs| == 0 then [] else Aims(prs[..|prs| - 1]) + [prs[|prs| - 1].target]
  }

  /** Where the projectiles are. */
  function Places(prs: seq<Projectile>): (r: seq<Point>)
    reads prs`pos
    ensures |r| == |prs| && forall k :: 0 <= k < |prs| ==> r[k] == prs[k].pos
  {
    if |prs| == 0 then [] else Places(prs[..|prs| - 1]) + [prs[|prs| - 1].pos]
  }

  /** `dist < projectile.speed`: whether a projectile at `at` reaches its
      target at `mark` on this frame. */
  predicate Reaches(pr: Projectile, at: Point, mark: Point) {
    CloserThan(mark, at, pr.speed)
  }

  /** For each projectile, from the projectiles' positions `at` and their
      targets' positions `marks`, whether it is still flying after this
      frame (the filter's verdict): true unless it reaches its target. */
  function Flying(prs: seq<Projectile>, at: seq<Point>, marks: seq<Point>): (r: seq<bool>)
    requires |at| == |marks| == |prs|
    ensures |r| == |prs|
  {
    if |prs| == 0 then []
    else
      var k := |prs| - 1;
      Flying(prs[..k], at[..k], marks[..k]) + [!Reaches(prs[k], at[k], marks[k])]
  }

  lemma {:induction false} FlyingAt(prs: seq<Projectile>, at: seq<Point>, marks: seq<Point>, i: int)
    requires |at| == |marks| == |prs| && 0 <= i < |prs|
    ensures Flying(prs, at, marks)[i] == !Reaches(prs[i], at[i], marks[i])
  {
    var k := |prs| - 1;
    if i < k {
      FlyingAt(prs[..k], at[..k], marks[..k], i);
    }
  }

  /** Where a projectile is after its frame: moved one step toward its
      target while flying, left where it was when it strikes. */
  function Landing(pr: Projectile, at: Point, mark: Point, step: (Point, Point, real) -> Point): Point {
    if Reaches(pr, at, mark) then at else step(at, mark, pr.speed)
  }

  /** `calculateDamage(projectile, projectile.target).damage`. */
  function HitDamage(pr: Projectile): real {
    CalculateDamage(pr.damage, pr.effect, pr.target.kind, pr.target.isArmored).damage
  }

  /** What a hit does to its target: the damage is taken and a freezing,
      burning or voiding projectile (re)starts that effect at its full
      duration. */
  function Strike(s: Status, damage: real, effect: Effect): Status {
    var s1 := s.(health := s.health - damage);
    if effect == Freeze then s1.(isFrozen := true, freezeTimer := FreezeDuration)
    else if effect == Burn then s1.(isBurning := true, burnTimer := BurnDuration)
    else if effect == Void then s1.(isVoided := true, voidTimer := VoidDuration)
    else s1
  }

  /** The status of enemy e, starting from s, after the hits among the
      projectiles (those whose `flying` entry is false), in list order. */
  function StruckBy(s: Status, prs: seq<Projectile>, flying: seq<bool>, e: Enemy): Status
    requires |flying| == |prs|
  {
    if |prs| == 0 then s
    else
      var k := |prs| - 1;
      var s1 := StruckBy(s, prs[..k], flying[..k], e);
      if !flying[k] && prs[k].target == e then Strike(s1, HitDamage(prs[k]), prs[k].effect) else s1
  }

  lemma StruckBySnoc(s: Status, prs: seq<Projectile>, flying: seq<bool>, e: Enemy, i: int)
    requires |flying| == |prs| && 0 <= i < |prs|
    ensures StruckBy(s, prs[..i + 1], flying[..i + 1], e)
         == var s1 := StruckBy(s, prs[..i], flying[..i], e);
            if !flying[i] && prs[i].target == e then Strike(s1, HitDamage(prs[i]), prs[i].effect) else s1
  {
    assert prs[..i + 1][..i] == prs[..i];
    assert flying[..i + 1][..i] == flying[..i];
  }

  /** The total damage dealt to e by the projectiles that reach it. */
  function DamageTo(prs: seq<Projectile>, flying: seq<bool>, e: Enemy): real
    requires |flying| == |prs|
  {
    if |prs| == 0 then 0.0
    else
      var k := |prs| - 1;
      DamageTo(prs[..k], flying[..k], e) + if !flying[k] && prs[k].target == e then HitDamage(prs[k]) else 0.0
  }

  /** Some projectile carrying the effect reaches e. */
  predicate EffectLands(prs: seq<Projectile>, flying: seq<bool>, e: Enemy, effect: Effect)
    requires |flying| == |prs|
  {
    exists j :: 0 <= j < |prs| && !flying[j] && prs[j].target == e && prs[j].effect == effect
  }

  /** The hits of a frame, in closed form: the target loses the sum of their
      damages, and each of freeze, burn and void is on at its full duration
      exactly when one of the hits carried it, and otherwise as it was. The
      burn tick counter is not touched. */
  lemma {:induction false} StruckByClosedForm(s: Status, prs: seq<Projectile>, flying: seq<bool>, e: Enemy)
    requires |flying| == |prs|
    ensures var f, b, v := EffectLands(prs, flying, e, Freeze), EffectLands(prs, flying, e, Burn),
                           EffectLands(prs, flying, e, Void);
            StruckBy(s, prs, flying, e)
            == Status(s.health - DamageTo(prs, flying, e),
                      s.isFrozen || f, if f then FreezeDuration else s.freezeTimer,
                      s.isBurning || b, if b then BurnDuration else s.burnTimer, s.burnTickTimer,
                      s.isVoided || v, if v then VoidDuration else s.voidTimer)
  {
    if |prs| > 0 {
      var k := |prs| - 1;
      var front, fl := prs[..k], flying[..k];
      StruckByClosedForm(s, front, fl, e);
      EffectLandsSnoc(prs, flying, e, Freeze);
      EffectLandsSnoc(prs, flying, e, Burn);
      EffectLandsSnoc(prs, flying, e, Void);
    }
  }

  lemma EffectLandsSnoc(prs: seq<Projectile>, flying: seq<bool>, e: Enemy, effect: Effect)
    requires |flying| == |prs| > 0
    ensures var k := |prs| - 1;
            EffectLands(prs, flying, e, effect)
            <==> EffectLands(prs[..k], flying[..k], e, effect) || (!flying[k] && prs[k].target == e && prs[k].effect == effect)
  {
    var k := |prs| - 1;
    var front, fl := prs[..k], flying[..k];
    if EffectLands(front, fl, e, effect) {
      var j :| 0 <= j < k && !fl[j] && front[j].target == e && front[j].effect == effect;
      assert !flying[j] && prs[j].target == e && prs[j].effect == effect;
    }
    if EffectLands(prs, flying, e, effect) {
      var j :| 0 <= j < |prs| && !flying[j] && prs[j].target == e && prs[j].effect == effect;
      if j < k {
        assert !fl[j] && front[j].target == e && front[j].effect == effect;
      }
    }
  }

  /** The body of the projectile filter for one projectile: a projectile
      within reach strikes its target (damage, then its effect) and is
      dropped; any other moves one step toward the target. */
  method ProjectileTurn(pr: Projectile, step: (Point, Point, real) -> Point) returns (flies: bool)
    modifies pr`pos, pr.target`health, pr.target`isFrozen, pr.target`freezeTimer
    modifies pr.target`isBurning, pr.target`burnTimer, pr.target`isVoided, pr.target`voidTimer
    ensures flies == !Reaches(pr, old(pr.pos), pr.target.pos)
    ensures pr.pos == Landing(pr, old(pr.pos), pr.target.pos, step)
    ensures pr.target.GetStatus()
         == if flies then old(pr.target.GetStatus()) else Strike(old(pr.target.GetStatus()), HitDamage(pr), pr.effect)
  {
    var e := pr.target;
    if CloserThan(e.pos, pr.pos, pr.speed) {
      var result := CalculateDamage(pr.damage, pr.effect, e.kind, e.isArmored);
      e.health := e.health - result.damage;
      if pr.effect == Freeze {
        e.isFrozen := true;
        e.freezeTimer := FreezeDuration;
      } else if pr.effect == Burn {
        e.isBurning := true;
        e.burnTimer := BurnDuration;
      } else if pr.effect == Void {
        e.isVoided := true;
        e.voidTimer := VoidDuration;
      }
      return false;
    }
    pr.pos := step(pr.pos, e.pos, pr.speed);
    return true;
  }

  /** The projectiles' positions while the filter is at index i: the first
      i have landed, the rest are still at their starting points. */
  ghost predicate Moved(prs: seq<Projectile>, i: int, step: (Point, Point, real) -> Point,
                        starts: seq<Point>, marks: seq<Point>)
    requires 0 <= i <= |prs| && |starts| == |marks| == |prs|
    reads prs`pos
  {
    && (forall k :: 0 <= k < i ==> prs[k].pos == Landing(prs[k], starts[k], marks[k], step))
    && (forall k :: i <= k < |prs| ==> prs[k].pos == starts[k])
  }

  /** The targets' statuses while the filter is at index i: each has taken
      the hits of the first i projectiles, from its status `before` the
      phase. */
  ghost predicate Struck(prs: seq<Projectile>, i: int, before: seq<Status>, flying: seq<bool>)
    requires 0 <= i <= |prs| && |before| == |flying| == |prs|
    reads Aims(prs)
  {
    forall k :: 0 <= k < |prs| ==> prs[k].target.GetStatus() == StruckBy(before[k], prs[..i], flying[..i], prs[k].target)
  }

  /** The i-th projectile's frame inside the filter. */
  method ProjectileStep(pr: Projectile, prs: seq<Projectile>, i: int, step: (Point, Point, real) -> Point,
                        ghost starts: seq<Point>, ghost marks: seq<Point>, ghost before: seq<Status>,
                        ghost flying: seq<bool>)
    returns (flies: bool)
    requires 0 <= i < |prs| && prs[i] == pr && |starts| == |marks| == |before| == |flying| == |prs|
    requires forall k :: 0 <= k < |prs| && k != i ==> prs[k] != pr
    requires pr.target.pos == marks[i] && flying[i] == !Reaches(pr, starts[i], marks[i])
    requires Moved(prs, i, step, starts, marks) && Struck(prs, i, before, flying)
    modifies pr`pos, pr.target`health, pr.target`isFrozen, pr.target`freezeTimer
    modifies pr.target`isBurning, pr.target`burnTimer, pr.target`isVoided, pr.target`voidTimer
    ensures Moved(prs, i + 1, step, starts, marks) && Struck(prs, i + 1, before, flying)
    ensures flies == flying[i]
  {
    flies := ProjectileTurn(pr, step);
    forall k | 0 <= k < |prs|
      ensures prs[k].target.GetStatus() == StruckBy(before[k], prs[..i + 1], flying[..i + 1], prs[k].target)
    {
      StruckBySnoc(before[k], prs, flying, prs[k].target, i);
    }
  }

  /** Where the projectile filter stands before the i-th projectile: the
      snapshots of the projectiles' starting points, their targets'
      positions and statuses and the verdicts taken when it started, the
      positions and statuses so far, and the projectiles kept among the
      first i. Compared with `true` in the loop's contracts, like
      `TowerLoopAt`. */
  ghost predicate ProjectileLoopAt(prs: seq<Projectile>, i: int, step: (Point, Point, real) -> Point,
                                   starts: seq<Point>, marks: seq<Point>, before: seq<Status>,
                                   flying: seq<bool>, kept: seq<Projectile>)
    reads prs`pos, Aims(prs)
  {
    && Distinct(prs) && 0 <= i <= |prs| && |starts| == |marks| == |before| == |prs|
    && (forall k :: 0 <= k < |prs| ==> prs[k].target.pos == marks[k])
    && flying == Flying(prs, starts, marks)
    && Moved(prs, i, step, starts, marks)
    && Struck(prs, i, before, flying)
    && kept == Keep(prs[..i], flying[..i])
  }

  /** One pass of the projectile filter. */
  method VisitProjectile(prs: seq<Projectile>, i: int, step: (Point, Point, real) -> Point,
                         ghost starts: seq<Point>, ghost marks: seq<Point>, ghost before: seq<Status>,
                         ghost flying: seq<bool>, kept: seq<Projectile>)
    returns (kept': seq<Projectile>)
    requires i < |prs| && ProjectileLoopAt(prs, i, step, starts, marks, before, flying, kept) == true
    modifies prs`pos, Aims(prs)`health, Aims(prs)`isFrozen, Aims(prs)`freezeTimer
    modifies Aims(prs)`isBurning, Aims(prs)`burnTimer, Aims(prs)`isVoided, Aims(prs)`voidTimer
    ensures ProjectileLoopAt(prs, i + 1, step, starts, marks, before, flying, kept') == true
  {
    DistinctAt(prs, i);
    FlyingAt(prs, starts, marks, i);
    KeepSnoc(prs, flying, i);
    var pr := prs[i];
    var flies := ProjectileStep(pr, prs, i, step, starts, marks, before, flying);
    kept' := if flies then kept + [pr] else kept;
  }

  /** The projectile filter (`projectiles.filter`). */
  method ProjectileLoop(prs: seq<Projectile>, step: (Point, Point, real) -> Point,
                        ghost starts: seq<Point>, ghost marks: seq<Point>, ghost before: seq<Status>,
                        ghost flying: seq<bool>)
    returns (kept: seq<Projectile>)
    requires ProjectileLoopAt(prs, 0, step, starts, marks, before, flying, []) == true
    modifies prs`pos, Aims(prs)`health, Aims(prs)`isFrozen, Aims(prs)`freezeTimer
    modifies Aims(prs)`isBurning, Aims(prs)`burnTimer, Aims(prs)`isVoided, Aims(prs)`voidTimer
    ensures ProjectileLoopAt(prs, |prs|, step, starts, marks, before, flying, kept) == true
  {
    kept := [];
    var i := 0;
    while i < |prs|
      invariant ProjectileLoopAt(prs, i, step, starts, marks, before, flying, kept) == true
      decreases |prs| - i
    {
      kept := VisitProjectile(prs, i, step, starts, marks, before, flying, kept);
      i := i + 1;
    }
  }

  /** The targets' statuses. */
  function Statuses(es: seq<Enemy>): (r: seq<Status>)
    reads es
    ensures |r| == |es| && forall k :: 0 <= k < |es| ==> r[k] == es[k].GetStatus()
  {
    if |es| == 0 then [] else Statuses(es[..|es| - 1]) + [es[|es| - 1].GetStatus()]
  }

  /** What the projectiles' phase does to the projectiles and their
      targets, against the positions `starts` of the projectiles, the
      positions `marks` of their targets and the statuses `before` of their
      targets taken when it started: the projectiles that did not reach
      their targets have moved one step, and every target has taken the
      hits of the projectiles that reached it, in list order. */
  ghost predicate Flown(prs: seq<Projectile>, starts: seq<Point>, marks: seq<Point>, before: seq<Status>,
                        step: (Point, Point, real) -> Point)
    reads prs`pos, Aims(prs)`health, Aims(prs)`isFrozen, Aims(prs)`freezeTimer, Aims(prs)`isBurning
    reads Aims(prs)`burnTimer, Aims(prs)`burnTickTimer, Aims(prs)`isVoided, Aims(prs)`voidTimer
  {
    && |starts| == |marks| == |before| == |prs|
    && var flying := Flying(prs, starts, marks);
       && (forall k :: 0 <= k < |prs| ==> prs[k].pos == Landing(prs[k], starts[k], marks[k], step))
       && (forall k :: 0 <= k < |prs| ==>
             prs[k].target.GetStatus() == StruckBy(before[k], prs, flying, prs[k].target))
  }

  /** The projectiles the phase keeps: those that did not reach their
      targets, in order. The phase's contracts compare this and `Flown` with
      `true`, so that each is carried across later changes as one fact. */
  ghost predicate Landed(prs: seq<Projectile>, starts: seq<Point>, marks: seq<Point>, kept: seq<Projectile>) {
    |starts| == |marks| == |prs| && kept == Keep(prs, Flying(prs, starts, marks))
  }

  /** The projectiles' phase of a frame: each projectile, in list order,
      either strikes its target and is dropped or moves one step toward it.
      The verdicts depend on the positions when the phase starts, since the
      phase moves only projectiles and each only itself; the targets take
      the hits in list order (several projectiles may chase one enemy). */
  method FlyProjectiles(prs: seq<Projectile>, step: (Point, Point, real) -> Point, ghost ts: seq<Tower>,
                        ghost owner: object)
    returns (kept: seq<Projectile>)
    requires Distinct(prs) && owner !in prs && owner !in Aims(prs)
    modifies prs`pos, Aims(prs)`health, Aims(prs)`isFrozen, Aims(prs)`freezeTimer
    modifies Aims(prs)`isBurning, Aims(prs)`burnTimer, Aims(prs)`isVoided, Aims(prs)`voidTimer
    ensures Flown(prs, old(Places(prs)), old(Spots(Aims(prs))), old(Statuses(Aims(prs))), step) == true
    ensures Landed(prs, old(Places(prs)), old(Spots(Aims(prs))), kept) == true
    ensures Distinct(kept)
    ensures forall i :: 0 <= i < |ts| ==> ts[i].level == old(ts[i].level) && ts[i].totalInvestment == old(ts[i].totalInvestment)
    ensures unchanged(owner)
  {
    ghost var starts := Places(prs);
    ghost var marks := Spots(Aims(prs));
    ghost var before := Statuses(Aims(prs));
    ghost var flying := Flying(prs, starts, marks);
    assert Keep(prs[..0], flying[..0]) == [];
    kept := ProjectileLoop(prs, step, starts, marks, before, flying);
    Whole(prs);
    Whole(flying);
    KeepExactly(prs, flying);
  }
}
