/** The game engine: the state the container keeps between frames, the four
    phases of one frame (spawn, enemies, towers, projectiles) with the wave
    bookkeeping that closes it, and the player's intents (click, wave
    control, upgrade, sell). */
module GameEngine {
  import opened GameConstants
  import opened Geometry
  import opened GameLogic
  import opened EntityFactories
  import opened Lists
  import opened Combat

  /** The canvas the container renders into, in pixels. */
  const CanvasWidth: real := 1000.0
  const CanvasHeight: real := 700.0

  /** `speedMultiplier || 1`. */
  function SpeedFactor(d: Difficulty): real {
    if d.speedMultiplier == 0.0 then 1.0 else d.speedMultiplier
  }

  /** Where the towers stand. */
  function Positions(towers: seq<Tower>): (r: seq<Point>)
    ensures |r| == |towers| && forall i :: 0 <= i < |towers| ==> r[i] == towers[i].pos
  {
    if |towers| == 0 then [] else Positions(towers[..|towers| - 1]) + [towers[|towers| - 1].pos]
  }

  /** Towers i and j of the list stand no closer than the smaller
      collision radius. */
  predicate Apart(towers: seq<Tower>, i: int, j: int)
    requires 0 <= i < |towers| && 0 <= j < |towers|
  {
    !CloserThan(towers[i].pos, towers[j].pos, TrapCollisionRadius)
  }

  /** No two placed towers stand closer than the smaller collision radius.
      The pairs are stated through `Apart`, so that the distance between
      two towers is looked at only where a proof names the pair. */
  predicate Spaced(towers: seq<Tower>) {
    forall i, j :: 0 <= i < |towers| && 0 <= j < |towers| && i != j ==> Apart(towers, i, j)
  }

  /** The first tower within the click radius of p, in list order. */
  function Clicked(towers: seq<Tower>, p: Point): (r: Option<Tower>)
    ensures r.Some? ==> r.value in towers && CloserThan(r.value.pos, p, TowerClickRadius)
    ensures r.None? ==> forall i :: 0 <= i < |towers| ==> !CloserThan(towers[i].pos, p, TowerClickRadius)
  {
    if |towers| == 0 then None
    else if CloserThan(towers[0].pos, p, TowerClickRadius) then Some(towers[0])
    else Clicked(towers[1..], p)
  }

  /** The towers other than t, in order (`filter(x => x !== t)`). */
  function Without(towers: seq<Tower>, t: Tower): (r: seq<Tower>)
    ensures forall u :: u in r ==> u in towers && u != t
    ensures forall u :: u in towers && u != t ==> u in r
    ensures t !in towers ==> r == towers
  {
    if |towers| == 0 then []
    else
      var last := towers[|towers| - 1];
      Without(towers[..|towers| - 1], t) + (if last == t then [] else [last])
  }

  /** Removing an element keeps the rest distinct, and removes exactly one
      occurrence of a tower that was there. */
  lemma {:induction false} WithoutDistinct(towers: seq<Tower>, t: Tower)
    requires Distinct(towers)
    ensures Distinct(Without(towers, t))
    ensures t in towers ==> |Without(towers, t)| == |towers| - 1
    ensures t !in towers ==> |Without(towers, t)| == |towers|
  {
    if |towers| > 0 {
      var front := towers[..|towers| - 1];
      var last := towers[|towers| - 1];
      assert Distinct(front);
      WithoutDistinct(front, t);
      assert last !in front;
      var rest := Without(front, t);
      assert last !in rest;
      if last == t {
        assert Without(towers, t) == rest + [] == rest;
      } else {
        var r := rest + [last];
        assert Without(towers, t) == r;
        assert r[..|r| - 1] == rest && r[|r| - 1] == last;
      }
      assert t in towers <==> t in front || t == last;
      assert t == last ==> t !in front;
    }
  }

  /** Removing towers never brings two of the rest closer. */
  lemma WithoutSpaced(towers: seq<Tower>, t: Tower)
    requires Spaced(towers)
    ensures Spaced(Without(towers, t))
  {
    var r := Without(towers, t);
    WithoutDistinctPositions(towers, t);
    forall i, j | 0 <= i < |r| && 0 <= j < |r| && i != j
      ensures Apart(r, i, j)
    {
      assert r[i] in towers && r[j] in towers;
      var i' :| 0 <= i' < |towers| && towers[i'] == r[i];
      var j' :| 0 <= j' < |towers| && towers[j'] == r[j];
      assert Apart(towers, i', j');
    }
  }

  /** A tower never shares a position with another once spacing holds, so two
      different indices of a spaced list hold different towers. */
  lemma WithoutDistinctPositions(towers: seq<Tower>, t: Tower)
    requires Spaced(towers)
    ensures forall i, j :: 0 <= i < |Without(towers, t)| && 0 <= j < |Without(towers, t)| && i != j
              ==> Without(towers, t)[i] != Without(towers, t)[j]
  {
    var r := Without(towers, t);
    forall i, j | 0 <= i < |r| && 0 <= j < |r| && i != j
      ensures r[i] != r[j]
    {
      SpacedIsDistinct(towers);
      WithoutDistinct(towers, t);
      DistinctPairs(r);
    }
  }

  /** Spacing keeps two indices apart: the same tower at two places would be
      at distance 0 from itself. */
  lemma SpacedIsDistinct(towers: seq<Tower>)
    requires Spaced(towers)
    ensures Distinct(towers)
  {
    forall i, j | 0 <= i < j < |towers|
      ensures towers[i] != towers[j]
    {
      assert Apart(towers, i, j);
      assert SqDist(towers[i].pos, towers[i].pos) == 0.0;
    }
    DistinctPairs(towers);
  }
  /** Selling from a spaced board of sound towers leaves a spaced board of
      sound towers, one tower shorter exactly when the sold tower was on it. */
  lemma SellFromBoard(towers: seq<Tower>, t: Tower)
    requires Spaced(towers) && forall i :: 0 <= i < |towers| ==> towers[i].Valid()
    ensures Spaced(Without(towers, t))
    ensures forall i :: 0 <= i < |Without(towers, t)| ==> Without(towers, t)[i].Valid()
    ensures t in towers <==> |Without(towers, t)| == |towers| - 1
  {
    SpacedIsDistinct(towers);
    WithoutDistinct(towers, t);
    WithoutSpaced(towers, t);
    var r := Without(towers, t);
    forall i | 0 <= i < |r|
      ensures r[i].Valid()
    {
      assert r[i] in towers;
    }
  }


  /** p and q are symmetric in the distance predicates. */
  lemma CloserThanSymmetric(p: Point, q: Point, d: real)
    ensures CloserThan(p, q, d) <==> CloserThan(q, p, d)
  {
    assert (p.x - q.x) * (p.x - q.x) == (q.x - p.x) * (q.x - p.x);
    assert (p.y - q.y) * (p.y - q.y) == (q.y - p.y) * (q.y - p.y);
  }

  /** Closer than a smaller distance is closer than a larger one. */
  lemma CloserThanWidens(p: Point, q: Point, d1: real, d2: real)
    requires 0.0 < d1 <= d2 && CloserThan(p, q, d1)
    ensures CloserThan(p, q, d2)
  {
    SquareMonotone(d1, d2);
  }

  // =====================================================================
  // Placement as the click handler asks for it

  /** The map's paths in canvas pixels. */
  function ScalePaths(paths: seq<seq<Point>>, w: real, h: real): (r: seq<seq<Point>>)
    ensures |r| == |paths|
    ensures forall k :: 0 <= k < |paths| ==>
              (|r[k]| == |paths[k]| && forall i :: 0 <= i < |paths[k]| ==> r[k][i] == ToCanvas(paths[k][i], w, h))
  {
    seq(|paths|, k requires 0 <= k < |paths| =>
      seq(|paths[k]|, i requires 0 <= i < |paths[k]| => ToCanvas(paths[k][i], w, h)))
  }

  /** The placement check as the click handler calls it: the canvas click is
      compared with the map's paths in normalised units, no quadrant of a
      covered map is open, and no hero is counted. */
  function ContainerPlacement(p: Point, cfg: TowerConfig, towers: seq<Tower>, m: MapData): Verdict {
    Placement(p, cfg, Positions(towers), m.paths, m, CanvasWidth, CanvasHeight, None, 0)
  }

  /** The same check with the paths scaled to the canvas, as the placement
      rules intend. */
  function CanvasPlacement(p: Point, cfg: TowerConfig, towers: seq<Tower>, m: MapData): Verdict {
    Placement(p, cfg, Positions(towers), ScalePaths(m.paths, CanvasWidth, CanvasHeight), m,
              CanvasWidth, CanvasHeight, None, 0)
  }

  /** Every point of a segment between normalised waypoints is normalised. */
  lemma LerpInUnitSquare(a: Point, b: Point, t: real)
    requires 0.0 <= a.x <= 1.0 && 0.0 <= a.y <= 1.0 && 0.0 <= b.x <= 1.0 && 0.0 <= b.y <= 1.0
    requires 0.0 <= t <= 1.0
    ensures var l := Lerp(a, b, t); 0.0 <= l.x <= 1.0 && 0.0 <= l.y <= 1.0
  {
    BetweenEnds(a.x, b.x, t);
    BetweenEnds(a.y, b.y, t);
  }

  lemma BetweenEnds(u: real, v: real, t: real)
    requires 0.0 <= t <= 1.0 && 0.0 <= u <= 1.0 && 0.0 <= v <= 1.0
    ensures 0.0 <= u + t * (v - u) <= 1.0
  {
    if u <= v {
      ProductNonNegative(t, v - u);
      ProductNonNegative(1.0 - t, v - u);
    } else {
      ProductNonNegative(t, u - v);
      ProductNonNegative(1.0 - t, u - v);
    }
  }

  /** Waypoints in normalised units. */
  predicate Normalised(paths: seq<seq<Point>>) {
    forall k, i :: 0 <= k < |paths| && 0 <= i < |paths[k]|
      ==> 0.0 <= paths[k][i].x <= 1.0 && 0.0 <= paths[k][i].y <= 1.0
  }

  /** A canvas point inside the margins is more than 40 pixels from every
      point of the unit square. */
  lemma FarFromUnitSquare(p: Point, l: Point, d: real)
    requires 0.0 <= l.x <= 1.0 && 0.0 <= l.y <= 1.0
    requires !OutsideMargins(p, CanvasWidth, CanvasHeight) && d <= TowerPathMinDistance
    ensures !(d > 0.0 && SqDist(p, l) < d * d)
  {
    var dx, dy := p.x - l.x, p.y - l.y;
    assert dy >= 79.0;
    assert dy * dy >= 6241.0 by { ProductNonNegative(dy - 79.0, dy + 79.0); }
    assert dx * dx >= 0.0 by { ProductNonNegative(dx, dx); }
    assert SqDist(p, l) == dx * dx + dy * dy;
    if d > 0.0 {
      SquareMonotone(d, TowerPathMinDistance);
      assert d * d <= 1600.0;
    }
  }

  /** So paths given in normalised units are never near such a point. */
  lemma {:induction false} FarFromNormalisedPaths(p: Point, paths: seq<seq<Point>>, d: real)
    requires Normalised(paths)
    requires !OutsideMargins(p, CanvasWidth, CanvasHeight) && d <= TowerPathMinDistance
    ensures !NearPath(p, paths, d)
  {
    if NearPath(p, paths, d) {
      var k, i :| 0 <= k < |paths| && 0 <= i < |paths[k]| - 1 && SegmentNear(p, paths[k], i, d);
      var a, b := paths[k][i], paths[k][i + 1];
      SegmentDistanceIsAttained(p, a, b);
      var t :| 0.0 <= t <= 1.0 && PointToSegmentDistSq(p, a, b) == SqDist(p, Lerp(a, b, t));
      LerpInUnitSquare(a, b, t);
      FarFromUnitSquare(p, Lerp(a, b, t), d);
    }
  }

  /** As the click handler calls it, the path check never refuses a tower
      and refuses every trap: the click is in pixels, the path in units. */
  lemma {:induction false} UnscaledPathsNeverMatch(p: Point, cfg: TowerConfig, towers: seq<Tower>, m: MapData)
    requires Normalised(m.paths)
    ensures ContainerPlacement(p, cfg, towers, m) != Invalid(TooCloseToPath)
    ensures cfg.isTrap && !OutsideMargins(p, CanvasWidth, CanvasHeight) && !(m.isCovered)
            ==> ContainerPlacement(p, cfg, towers, m) == Invalid(TrapNotOnPath)
  {
    if !OutsideMargins(p, CanvasWidth, CanvasHeight) {
      FarFromNormalisedPaths(p, m.paths, TowerPathMinDistance);
      FarFromNormalisedPaths(p, m.paths, TrapPathMaxDistance);
    }
  }

  /** The garden map's path. */
  const GardenPath: seq<Point> := [
    Point(0.06, 0.25), Point(0.2, 0.25), Point(0.2, 0.7), Point(0.5, 0.7),
    Point(0.5, 0.3), Point(0.8, 0.3), Point(0.8, 0.75), Point(0.94, 0.75)]

  const Garden: MapData := MapData([GardenPath], [], false, false, None)

  /** A plain 100-coin tower type. */
  const PlainTower: TowerConfig :=
    TowerConfig(100, 10.0, 100.0, 30, 0.0, NoEffect, false, false, false, false, false, 0)

  /** On the garden map, a tower clicked onto the first path segment, at
      (100, 175) on the canvas, is accepted as the click handler calls the
      check. */
  lemma GardenTowerOnPathAccepted()
    ensures ContainerPlacement(Point(100.0, 175.0), PlainTower, [], Garden) == Valid
  {
    assert Normalised(Garden.paths);
    UnscaledPathsNeverMatch(Point(100.0, 175.0), PlainTower, [], Garden);
    assert !InWater(Point(100.0, 175.0), CanvasWidth, CanvasHeight, [], false);
  }

  /** The same click is refused once the path is scaled to the canvas: the
      point lies on the segment from (60, 175) to (200, 175). */
  lemma GardenTowerOnPathRefused()
    ensures CanvasPlacement(Point(100.0, 175.0), PlainTower, [], Garden) == Invalid(TooCloseToPath)
  {
    var p := Point(100.0, 175.0);
    var scaled := ScalePaths(Garden.paths, CanvasWidth, CanvasHeight);
    var a, b := scaled[0][0], scaled[0][1];
    assert a == ToCanvas(GardenPath[0], CanvasWidth, CanvasHeight) == Point(60.0, 175.0);
    assert b == ToCanvas(GardenPath[1], CanvasWidth, CanvasHeight) == Point(200.0, 175.0);
    assert SqDist(a, b) == 19600.0;
    assert Dot(p, a, b) == 5600.0;
    assert ProjectionParam(p, a, b) == 5600.0 / 19600.0;
    assert Lerp(a, b, 5600.0 / 19600.0) == p;
    assert SegmentNear(p, scaled[0], 0, TowerPathMinDistance);
  }

  /** A tower placed by a click: `config`'s stats at level 1, never upgraded. */
  predicate Placed(t: Tower, p: Point, kind: string, cfg: TowerConfig)
    reads t
  {
    t.pos == p && t.kind == kind && t.config == cfg && t.level == 1 && t.damage == cfg.damage
    && t.range == cfg.range && t.cooldown == 0 && !t.isParagon && t.totalInvestment == cfg.cost
  }

  /** A tower clear of every placed tower by its collision radius keeps the
      board spaced. */
  lemma {:induction false} AddKeepsSpacing(towers: seq<Tower>, t: Tower)
    requires Spaced(towers)
    requires forall i :: 0 <= i < |towers| ==> !CloserThan(towers[i].pos, t.pos, CollisionRadius(t.config))
    ensures Spaced(towers + [t])
  {
    var r := towers + [t];
    forall i | 0 <= i < |towers|
      ensures !CloserThan(towers[i].pos, t.pos, TrapCollisionRadius)
      ensures !CloserThan(t.pos, towers[i].pos, TrapCollisionRadius)
    {
      if CloserThan(towers[i].pos, t.pos, TrapCollisionRadius) {
        CloserThanWidens(towers[i].pos, t.pos, TrapCollisionRadius, CollisionRadius(t.config));
      }
      CloserThanSymmetric(t.pos, towers[i].pos, TrapCollisionRadius);
    }
    forall i, j | 0 <= i < |r| && 0 <= j < |r| && i != j
      ensures Apart(r, i, j)
    {
      if i < |towers| && j < |towers| {
        assert Apart(towers, i, j);
      }
    }
  }

  /** Adding a valid tower clear of every placed one by its collision radius
      keeps a spaced board of sound towers. */
  lemma BuildOnBoard(towers: seq<Tower>, t: Tower)
    requires Spaced(towers) && forall i :: 0 <= i < |towers| ==> towers[i].Valid()
    requires forall i :: 0 <= i < |towers| ==> !CloserThan(towers[i].pos, t.pos, CollisionRadius(t.config))
    requires t.Valid()
    ensures Spaced(towers + [t])
    ensures forall i :: 0 <= i < |towers + [t]| ==> (towers + [t])[i].Valid()
  {
    AddKeepsSpacing(towers, t);
  }

  // =====================================================================
  // One frame, on values

  /** An enemy's status-effect and movement fields together. */
  datatype EnemyState = EnemyState(status: Status, motion: Motion)

  /** How an enemy's frame ends: still on the board, through to the end of
      the path, or killed. */
  datatype Fate = Alive | Leaked | Killed

  function StateOf(e: Enemy): EnemyState
    reads e
  {
    EnemyState(e.GetStatus(), e.GetMotion())
  }

  /** The states of the listed enemies. */
  function Snapshot(es: seq<Enemy>): (r: seq<EnemyState>)
    reads es
    ensures |r| == |es|
  {
    if |es| == 0 then [] else Snapshot(es[..|es| - 1]) + [StateOf(es[|es| - 1])]
  }

  /** The snapshot holds each enemy's state at its own index. */
  lemma {:induction false} SnapshotAt(es: seq<Enemy>)
    ensures forall i :: 0 <= i < |es| ==> Snapshot(es)[i] == StateOf(es[i])
  {
    if |es| > 0 {
      SnapshotAt(es[..|es| - 1]);
    }
  }

  lemma SnapshotSplit(es: seq<Enemy>, i: int)
    requires 0 <= i < |es|
    ensures Snapshot(es[..i + 1]) == Snapshot(es[..i]) + [StateOf(es[i])]
    ensures Snapshot(es[i..]) == [StateOf(es[i])] + Snapshot(es[i + 1..])
  {
    assert es[..i + 1][..i] == es[..i];
    SnapshotAt(es[i..]);
    SnapshotAt(es[i + 1..]);
  }

  /** One enemy's frame (the filter callback of the enemy phase): its
      effects tick, it moves unless voided, and it leaks if it is at the end
      of its path, or else dies if its health is gone. */
  function EnemyFrame(speed: real, st: EnemyState, path: Option<seq<Point>>,
                      step: (Point, Point, real) -> Point): (EnemyState, Fate)
  {
    var s := StatusStep(st.status);
    var mr := MoveStep(st.motion, s.isVoided, s.isFrozen, speed, path, CanvasWidth, CanvasHeight, step);
    (EnemyState(s, mr.motion), if mr.reachedEnd then Leaked else if s.health <= 0.0 then Killed else Alive)
  }

  /** The leak check comes first and is skipped for a voided enemy: an enemy
      leaks exactly when, after its effects tick, it is not voided and stands
      at the last waypoint (or has no path); it is killed exactly when it does
      not leak and its health is gone. A leak leaves the enemy where it was. */
  lemma FateOfAnEnemy(speed: real, st: EnemyState, path: Option<seq<Point>>, step: (Point, Point, real) -> Point)
    ensures var s := StatusStep(st.status);
      var r := EnemyFrame(speed, st, path, step);
      && (r.1 == Leaked <==> !s.isVoided && (path.None? || st.motion.waypointIndex >= |path.value| - 1))
      && (r.1 == Killed <==> r.1 != Leaked && s.health <= 0.0)
      && (r.1 == Leaked ==> r.0.motion == st.motion)
      && (s.isVoided ==> r.0.motion == st.motion)
      && r.0.status == s
  {
    var s := StatusStep(st.status);
    MovementProgress(st.motion, s.isVoided, s.isFrozen, speed, path, CanvasWidth, CanvasHeight, step);
  }

  /** The fates of the listed enemies from their states. */
  function Fates(es: seq<Enemy>, states: seq<EnemyState>, path: Option<seq<Point>>,
                 step: (Point, Point, real) -> Point): (r: seq<Fate>)
    requires |states| == |es|
    ensures |r| == |es|
  {
    if |es| == 0 then []
    else Fates(es[..|es| - 1], states[..|es| - 1], path, step)
         + [EnemyFrame(es[|es| - 1].speed, states[|es| - 1], path, step).1]
  }

  /** The states the listed enemies move to from the given states. */
  function Nexts(es: seq<Enemy>, states: seq<EnemyState>, path: Option<seq<Point>>,
                 step: (Point, Point, real) -> Point): (r: seq<EnemyState>)
    requires |states| == |es|
    ensures |r| == |es|
  {
    if |es| == 0 then []
    else Nexts(es[..|es| - 1], states[..|es| - 1], path, step)
         + [EnemyFrame(es[|es| - 1].speed, states[|es| - 1], path, step).0]
  }

  /** The i-th of the new states and of the fates is the i-th enemy's frame. */
  lemma {:induction false} FrameAt(es: seq<Enemy>, states: seq<EnemyState>, path: Option<seq<Point>>,
                                   step: (Point, Point, real) -> Point, i: int)
    requires |states| == |es| && 0 <= i < |es|
    ensures (Nexts(es, states, path, step)[i], Fates(es, states, path, step)[i])
         == EnemyFrame(es[i].speed, states[i], path, step)
  {
    var n := |es| - 1;
    if i < n {
      FrameAt(es[..n], states[..n], path, step, i);
    }
  }

  /** Which enemies the filter keeps: those whose fate is to stay alive. */
  function AliveMask(fates: seq<Fate>): (r: seq<bool>)
    ensures |r| == |fates|
  {
    if |fates| == 0 then [] else AliveMask(fates[..|fates| - 1]) + [fates[|fates| - 1] == Alive]
  }

  /** The filter keeps the i-th enemy exactly when its fate is to stay alive. */
  lemma {:induction false} AliveMaskAt(fates: seq<Fate>, i: int)
    requires 0 <= i < |fates|
    ensures AliveMask(fates)[i] <==> fates[i] == Alive
  {
    var n := |fates| - 1;
    if i < n {
      AliveMaskAt(fates[..n], i);
    }
  }

  /** The lives the leaked enemies cost. */
  function LivesLost(es: seq<Enemy>, fates: seq<Fate>): (n: int)
    requires |fates| == |es|
    ensures n >= 0
    ensures n == 0 <==> forall i :: 0 <= i < |es| ==> fates[i] != Leaked
  {
    if |es| == 0 then 0
    else
      var k := |es| - 1;
      var front := LivesLost(es[..k], fates[..k]);
      assert forall i :: 0 <= i < k ==> fates[..k][i] == fates[i];
      front + (if fates[k] == Leaked then LivesDamage(es[k].isBoss, es[k].kind) else 0)
  }

  /** The bounties of the killed enemies. */
  function Bounties(es: seq<Enemy>, fates: seq<Fate>): int
    requires |fates| == |es|
  {
    if |es| == 0 then 0
    else
      var k := |es| - 1;
      Bounties(es[..k], fates[..k]) + (if fates[k] == Killed then es[k].bounty else 0)
  }

  /** Each leak costs at least one life, so a frame costs at least as many
      lives as enemies leak; a frame without bosses costs exactly that many. */
  lemma {:induction false} LivesLostCountsLeaks(es: seq<Enemy>, fates: seq<Fate>)
    requires |fates| == |es|
    ensures LivesLost(es, fates) >= |Keep(es, LeakMask(fates))|
    ensures (forall i :: 0 <= i < |es| ==> !es[i].isBoss) ==> LivesLost(es, fates) == |Keep(es, LeakMask(fates))|
  {
    if |es| > 0 {
      var k := |es| - 1;
      LivesLostCountsLeaks(es[..k], fates[..k]);
      assert LeakMask(fates)[..k] == LeakMask(fates[..k]);
    }
  }

  function LeakMask(fates: seq<Fate>): (r: seq<bool>)
    ensures |r| == |fates| && forall i :: 0 <= i < |fates| ==> (r[i] <==> fates[i] == Leaked)
  {
    seq(|fates|, i requires 0 <= i < |fates| => fates[i] == Leaked)
  }

  /** With bounties that are never negative, a frame never costs money. */
  lemma {:induction false} BountiesNonNegative(es: seq<Enemy>, fates: seq<Fate>)
    requires |fates| == |es| && forall i :: 0 <= i < |es| ==> es[i].bounty >= 0
    ensures Bounties(es, fates) >= 0
  {
    if |es| > 0 {
      BountiesNonNegative(es[..|es| - 1], fates[..|es| - 1]);
    }
  }

  lemma LivesLostSnoc(es: seq<Enemy>, fates: seq<Fate>, i: int)
    requires |fates| == |es| && 0 <= i < |es|
    ensures LivesLost(es[..i + 1], fates[..i + 1])
         == LivesLost(es[..i], fates[..i]) + (if fates[i] == Leaked then LivesDamage(es[i].isBoss, es[i].kind) else 0)
  {
    assert es[..i + 1][..i] == es[..i];
    assert fates[..i + 1][..i] == fates[..i];
  }

  lemma BountiesSnoc(es: seq<Enemy>, fates: seq<Fate>, i: int)
    requires |fates| == |es| && 0 <= i < |es|
    ensures Bounties(es[..i + 1], fates[..i + 1])
         == Bounties(es[..i], fates[..i]) + (if fates[i] == Killed then es[i].bounty else 0)
  {
    assert es[..i + 1][..i] == es[..i];
    assert fates[..i + 1][..i] == fates[..i];
  }

  /** The body of the enemy phase's filter callback for one enemy. */
  method EnemyTurn(e: Enemy, path: Option<seq<Point>>, step: (Point, Point, real) -> Point) returns (fate: Fate)
    modifies e
    ensures (StateOf(e), fate) == EnemyFrame(e.speed, old(StateOf(e)), path, step)
  {
    e.UpdateStatusEffects();
    var reached := e.UpdateMovement(path, CanvasWidth, CanvasHeight, step);
    if reached {
      fate := Leaked;
    } else if e.health <= 0.0 {
      fate := Killed;
    } else {
      fate := Alive;
    }
  }

  /** Where the enemy-phase loop stands before the i-th enemy: the states,
      new states and fates taken when it started, the first i enemies moved
      on and the rest untouched, and the survivors, lives lost and bounties
      of the first i. The loop's contracts compare it with `true`, so that
      each use is checked as the one fact it is rather than conjunct by
      conjunct. */
  ghost predicate EnemyLoopAt(list: seq<Enemy>, i: int, path: Option<seq<Point>>, step: (Point, Point, real) -> Point,
                              states: seq<EnemyState>, nexts: seq<EnemyState>, fates: seq<Fate>, mask: seq<bool>,
                              kept: seq<Enemy>, lost: int, bounty: int)
    reads list
  {
    && Distinct(list) && 0 <= i <= |list| && |states| == |list|
    && nexts == Nexts(list, states, path, step) && fates == Fates(list, states, path, step)
    && mask == AliveMask(fates)
    && (forall k :: 0 <= k < i ==> StateOf(list[k]) == nexts[k])
    && (forall k :: i <= k < |list| ==> StateOf(list[k]) == states[k])
    && kept == Keep(list[..i], mask[..i])
    && lost == LivesLost(list[..i], fates[..i]) && bounty == Bounties(list[..i], fates[..i])
  }

  /** The survivors, lives lost and bounties of the first i + 1 enemies,
      from those of the first i and the i-th enemy's fate. */
  method EnemyTally(list: seq<Enemy>, i: int, ghost fates: seq<Fate>, ghost mask: seq<bool>,
                    kept: seq<Enemy>, lost: int, bounty: int, fate: Fate)
    returns (kept': seq<Enemy>, lost': int, bounty': int)
    requires 0 <= i < |list| && |fates| == |list| && mask == AliveMask(fates) && fate == fates[i]
    requires kept == Keep(list[..i], mask[..i])
    requires lost == LivesLost(list[..i], fates[..i]) && bounty == Bounties(list[..i], fates[..i])
    ensures kept' == Keep(list[..i + 1], mask[..i + 1])
    ensures lost' == LivesLost(list[..i + 1], fates[..i + 1]) && bounty' == Bounties(list[..i + 1], fates[..i + 1])
  {
    var e := list[i];
    AliveMaskAt(fates, i);
    KeepSnoc(list, mask, i);
    LivesLostSnoc(list, fates, i);
    BountiesSnoc(list, fates, i);
    kept', lost', bounty' := kept, lost, bounty;
    if fate == Leaked {
      lost' := lost + LivesDamage(e.isBoss, e.kind);
    } else if fate == Killed {
      bounty' := bounty + e.bounty;
    } else {
      kept' := kept + [e];
    }
  }

  /** One pass of the enemy-phase loop: the i-th enemy takes its turn and
      the survivors, lives lost and bounties paid grow from the first i
      enemies to the first i + 1. */
  method VisitEnemy(list: seq<Enemy>, i: int, path: Option<seq<Point>>, step: (Point, Point, real) -> Point,
                    ghost states: seq<EnemyState>, ghost nexts: seq<EnemyState>, ghost fates: seq<Fate>,
                    ghost mask: seq<bool>, kept: seq<Enemy>, lost: int, bounty: int)
    returns (kept': seq<Enemy>, lost': int, bounty': int)
    requires i < |list| && EnemyLoopAt(list, i, path, step, states, nexts, fates, mask, kept, lost, bounty) == true
    modifies list
    ensures EnemyLoopAt(list, i + 1, path, step, states, nexts, fates, mask, kept', lost', bounty') == true
  {
    DistinctAt(list, i);
    FrameAt(list, states, path, step, i);
    var fate := EnemyTurn(list[i], path, step);
    kept', lost', bounty' := EnemyTally(list, i, fates, mask, kept, lost, bounty, fate);
  }

  /** The enemy-phase loop (`enemies.filter`) from the states taken when it
      starts. */
  method EnemyLoop(list: seq<Enemy>, path: Option<seq<Point>>, step: (Point, Point, real) -> Point,
                   ghost states: seq<EnemyState>, ghost nexts: seq<EnemyState>, ghost fates: seq<Fate>,
                   ghost mask: seq<bool>)
    returns (kept: seq<Enemy>, lost: int, bounty: int)
    requires EnemyLoopAt(list, 0, path, step, states, nexts, fates, mask, [], 0, 0) == true
    modifies list
    ensures EnemyLoopAt(list, |list|, path, step, states, nexts, fates, mask, kept, lost, bounty) == true
  {
    kept, lost, bounty := [], 0, 0;
    var i := 0;
    while i < |list|
      invariant EnemyLoopAt(list, i, path, step, states, nexts, fates, mask, kept, lost, bounty) == true
      decreases |list| - i
    {
      kept, lost, bounty := VisitEnemy(list, i, path, step, states, nexts, fates, mask, kept, lost, bounty);
      i := i + 1;
    }
  }

  /** Once the loop has passed every enemy, every enemy has its new state and
      the survivors, lives lost and bounties are those of the whole list. */
  lemma EnemyLoopDone(list: seq<Enemy>, path: Option<seq<Point>>, step: (Point, Point, real) -> Point,
                      states: seq<EnemyState>, nexts: seq<EnemyState>, fates: seq<Fate>, mask: seq<bool>,
                      kept: seq<Enemy>, lost: int, bounty: int)
    requires EnemyLoopAt(list, |list|, path, step, states, nexts, fates, mask, kept, lost, bounty) == true
    ensures forall i :: 0 <= i < |list| ==> StateOf(list[i]) == Nexts(list, states, path, step)[i]
    ensures kept == Keep(list, AliveMask(fates)) && Distinct(kept)
    ensures lost == LivesLost(list, fates) && bounty == Bounties(list, fates)
  {
    Whole(list);
    Whole(fates);
    Whole(mask);
    KeepExactly(list, mask);
  }

  /** Every enemy of `list` has the state its frame gives it from the
      states `states` it had when the enemy phase started. */
  ghost predicate Stepped(list: seq<Enemy>, states: seq<EnemyState>, path: Option<seq<Point>>,
                          step: (Point, Point, real) -> Point)
    reads list
  {
    |states| == |list| && forall i :: 0 <= i < |list| ==> StateOf(list[i]) == Nexts(list, states, path, step)[i]
  }

  /** The outcome of the enemy phase from the states `states`: `kept` holds
      the survivors in order, `lost` is the lives the leaks cost and
      `bounty` what the kills pay. The phase's contracts compare this and
      `Stepped` with `true`, so that each is carried across later changes of
      other objects as the one fact it is. */
  ghost predicate Marched(list: seq<Enemy>, states: seq<EnemyState>, path: Option<seq<Point>>,
                          step: (Point, Point, real) -> Point, kept: seq<Enemy>, lost: int, bounty: int)
  {
    && |states| == |list|
    && var fates := Fates(list, states, path, step);
       && kept == Keep(list, AliveMask(fates))
       && lost == LivesLost(list, fates) && bounty == Bounties(list, fates)
  }

  /** The filter of the enemy phase over distinct enemies: each has its
      frame; the survivors are returned in order with the lives the leaks
      cost and the bounties the kills pay. */
  method FilterEnemies(list: seq<Enemy>, path: Option<seq<Point>>, step: (Point, Point, real) -> Point,
                       ghost ts: seq<Tower>)
    returns (kept: seq<Enemy>, lost: int, bounty: int)
    requires Distinct(list)
    modifies list
    ensures Stepped(list, old(Snapshot(list)), path, step) == true
    ensures Marched(list, old(Snapshot(list)), path, step, kept, lost, bounty) == true
    ensures Distinct(kept) && lost >= 0
    ensures forall i :: 0 <= i < |ts| ==> ts[i].level == old(ts[i].level) && ts[i].totalInvestment == old(ts[i].totalInvestment)
  {
    ghost var states := Snapshot(list);
    SnapshotAt(list);
    ghost var nexts := Nexts(list, states, path, step);
    ghost var fates := Fates(list, states, path, step);
    ghost var mask := AliveMask(fates);
    assert Keep(list[..0], mask[..0]) == [];
    kept, lost, bounty := EnemyLoop(list, path, step, states, nexts, fates, mask);
    EnemyLoopDone(list, path, step, states, nexts, fates, mask, kept, lost, bounty);
  }

  class Game {
    const mapData: MapData
    const balance: Balance
    const difficulty: Difficulty
    /** The shop's tower types; a placed trap uses up one of its quantity. */
    var shop: map<string, TowerConfig>
    var lives: int
    var money: int
    var waveNumber: int
    var isWaveActive: bool
    var selectedTowerType: Option<string>
    var selectedTower: Option<Tower>
    var towers: seq<Tower>
    var enemies: seq<Enemy>
    var projectiles: seq<Projectile>
    var gameTick: int
    var spawnQueue: seq<string>
    var spawnTimer: int
    /** Cleared once the lives run out and the frame loop is cancelled. */
    var running: bool

    /** The map has a path to spawn on, the spawn timer is below the delay,
        the entity lists hold each object once, every tower is sound and no
        two towers stand closer than the trap collision radius. */
    predicate Valid()
      reads this`spawnTimer, this`towers, this`enemies, this`projectiles, towers`level, towers`totalInvestment
    {
      Board() && Distinct(enemies) && Distinct(projectiles)
    }

    /** The part of `Valid` about the map, the spawner and the towers, which
        the enemy and projectile phases leave alone. */
    predicate Board()
      reads this`spawnTimer, this`towers, towers`level, towers`totalInvestment
    {
      |mapData.paths| > 0 && |mapData.paths[0]| > 0
      && 0 <= spawnTimer < SpawnDelayFrames
      && TowersValid()
    }

    /** The placed towers keep their spacing and each is a valid tower. */
    predicate TowersValid()
      reads this`towers, towers`level, towers`totalInvestment
    {
      Spaced(towers) && forall i :: 0 <= i < |towers| ==> towers[i].Valid()
    }

    /** The selected tower, if any, is one of the placed towers. */
    predicate SelectionPlaced()
      reads this
    {
      selectedTower.Some? ==> selectedTower.value in towers
    }

    /** The state the container starts a game in. */
    constructor Start(mapData: MapData, balance: Balance, difficulty: Difficulty, shop: map<string, TowerConfig>)
      requires |mapData.paths| > 0 && |mapData.paths[0]| > 0
      ensures Valid() && SelectionPlaced() && running
      ensures this.mapData == mapData && this.balance == balance && this.difficulty == difficulty && this.shop == shop
      ensures lives == StartingLives && money == difficulty.startMoney && waveNumber == 1 && !isWaveActive
      ensures selectedTowerType == None && selectedTower == None
      ensures towers == [] && enemies == [] && projectiles == []
      ensures gameTick == 0 && spawnQueue == [] && spawnTimer == 0
    {
      this.mapData := mapData;
      this.balance := balance;
      this.difficulty := difficulty;
      this.shop := shop;
      lives := StartingLives;
      money := difficulty.startMoney;
      waveNumber := 1;
      isWaveActive := false;
      selectedTowerType := None;
      selectedTower := None;
      towers := [];
      enemies := [];
      projectiles := [];
      gameTick := 0;
      spawnQueue := [];
      spawnTimer := 0;
      running := true;
    }

    /** The shop type the player has chosen, if it is for sale, affordable
        and may stand at p. */
    predicate CanPlace(p: Point)
      reads this
    {
      selectedTowerType.Some? && selectedTowerType.value in shop
      && money >= shop[selectedTowerType.value].cost
      && CanvasPlacement(p, shop[selectedTowerType.value], towers, mapData) == Verdict.Valid
    }

    /** `onTowerSelect`: choose a shop type (or none) for the next click. */
    method SelectTowerType(kind: Option<string>)
      requires Valid()
      modifies this`selectedTowerType
      ensures selectedTowerType == kind
      ensures Valid()
    {
      selectedTowerType := kind;
    }

    /** `handleCanvasClick`: a click within 20 pixels of a tower selects the
        first such tower; otherwise a chosen, affordable type that passes the
        placement check is built there, paid for, and uses up one trap. */
    method Click(p: Point)
      requires Valid()
      modifies this`towers, this`money, this`shop, this`selectedTower, this`selectedTowerType
      ensures Valid()
      ensures old(SelectionPlaced()) ==> SelectionPlaced()
      ensures Clicked(old(towers), p).Some? ==>
                selectedTower == Clicked(old(towers), p) && selectedTowerType == None
                && towers == old(towers) && money == old(money) && shop == old(shop)
      ensures Clicked(old(towers), p).None? && !old(CanPlace(p)) ==>
                selectedTower == old(selectedTower) && selectedTowerType == old(selectedTowerType)
                && towers == old(towers) && money == old(money) && shop == old(shop)
      ensures Clicked(old(towers), p).None? && old(CanPlace(p)) ==>
                var kind := old(selectedTowerType.value);
                var cfg := old(shop[selectedTowerType.value]);
                && |towers| == |old(towers)| + 1 && towers[..|old(towers)|] == old(towers)
                && fresh(towers[|old(towers)|]) && Placed(towers[|old(towers)|], p, kind, cfg)
                && money == old(money) - cfg.cost && money >= 0
                && selectedTowerType == None && selectedTower == old(selectedTower)
                && shop == (if cfg.isTrap && cfg.quantity > 0 then old(shop)[kind := cfg.(quantity := cfg.quantity - 1)]
                            else old(shop))
    {
      var hit := Clicked(towers, p);
      if hit.Some? {
        selectedTower := hit;
        selectedTowerType := None;
        return;
      }
      if selectedTowerType.None? || selectedTowerType.value !in shop {
        return;
      }
      var kind := selectedTowerType.value;
      var cfg := shop[kind];
      if money < cfg.cost {
        return;
      }
      Build(p, kind, cfg);
    }

    /** The building half of `handleCanvasClick`, for a chosen shop type the
        player can afford. */
    method Build(p: Point, kind: string, cfg: TowerConfig)
      requires Valid() && kind in shop && shop[kind] == cfg && money >= cfg.cost
      modifies this`towers, this`money, this`shop, this`selectedTowerType
      ensures Valid()
      ensures old(SelectionPlaced()) ==> SelectionPlaced()
      ensures CanvasPlacement(p, cfg, old(towers), mapData) != Verdict.Valid ==>
                towers == old(towers) && money == old(money) && shop == old(shop)
                && selectedTowerType == old(selectedTowerType)
      ensures CanvasPlacement(p, cfg, old(towers), mapData) == Verdict.Valid ==>
                && |towers| == |old(towers)| + 1 && towers[..|old(towers)|] == old(towers)
                && fresh(towers[|old(towers)|]) && Placed(towers[|old(towers)|], p, kind, cfg)
                && money == old(money) - cfg.cost && money >= 0 && selectedTowerType == None
                && shop == (if cfg.isTrap && cfg.quantity > 0 then old(shop)[kind := cfg.(quantity := cfg.quantity - 1)]
                            else old(shop))
    {
      var paths := ScalePaths(mapData.paths, CanvasWidth, CanvasHeight);
      var verdict := IsValidPlacement(p, cfg, Positions(towers), paths, mapData, CanvasWidth, CanvasHeight, None, 0);
      if verdict == Verdict.Valid {
        assert forall i :: 0 <= i < |towers| ==> !CloserThan(towers[i].pos, p, CollisionRadius(cfg)) by {
          ValidPlacementMeans(p, cfg, Positions(towers), paths, mapData, CanvasWidth, CanvasHeight, None, 0);
        }
        PlaceTower(p, kind, cfg);
      }
    }

    /** The accepted half of `Build`: a new tower of the chosen type at p,
        its cost paid and, for a trap with stock, one trap used up. */
    method PlaceTower(p: Point, kind: string, cfg: TowerConfig)
      requires Valid() && kind in shop && shop[kind] == cfg && money >= cfg.cost
      requires forall i :: 0 <= i < |towers| ==> !CloserThan(towers[i].pos, p, CollisionRadius(cfg))
      modifies this`towers, this`money, this`shop, this`selectedTowerType
      ensures Valid()
      ensures old(SelectionPlaced()) ==> SelectionPlaced()
      ensures |towers| == |old(towers)| + 1 && towers[..|old(towers)|] == old(towers)
      ensures fresh(towers[|old(towers)|]) && Placed(towers[|old(towers)|], p, kind, cfg)
      ensures money == old(money) - cfg.cost && money >= 0 && selectedTowerType == None
      ensures shop == (if cfg.isTrap && cfg.quantity > 0 then old(shop)[kind := cfg.(quantity := cfg.quantity - 1)]
                       else old(shop))
    {
      var t := new Tower.Create(p, kind, cfg);
      assert Placed(t, p, kind, cfg);
      BuildOnBoard(towers, t);
      if cfg.isTrap && cfg.quantity > 0 {
        shop := shop[kind := cfg.(quantity := cfg.quantity - 1)];
      }
      towers := towers + [t];
      money := money - cfg.cost;
      selectedTowerType := None;
    }

    /** `handleWaveControl`: pause a running wave, or start the current one
        with a freshly generated (and shuffled) spawn queue. */
    method WaveControl(draws: seq<real>, choices: seq<nat>)
      requires Valid()
      requires !isWaveActive ==> |draws| == Max(0, SlotCount(waveNumber, balance.waves))
      modifies this`spawnQueue, this`isWaveActive
      ensures Valid() && (old(SelectionPlaced()) ==> SelectionPlaced())
      ensures isWaveActive == !old(isWaveActive)
      ensures old(isWaveActive) ==> spawnQueue == old(spawnQueue)
      ensures !old(isWaveActive) ==> multiset(spawnQueue) == multiset(Unshuffled(waveNumber, balance.waves, draws))
    {
      if isWaveActive {
        isWaveActive := false;
      } else {
        StartWave(draws, choices);
      }
    }

    /** The starting half of `handleWaveControl`. */
    method StartWave(draws: seq<real>, choices: seq<nat>)
      requires |draws| == Max(0, SlotCount(waveNumber, balance.waves))
      modifies this`spawnQueue, this`isWaveActive
      ensures isWaveActive
      ensures multiset(spawnQueue) == multiset(Unshuffled(waveNumber, balance.waves, draws))
    {
      spawnQueue := GenerateWaveComposition(waveNumber, balance.waves, draws, choices);
      isWaveActive := true;
    }

    /** The set holding the selected tower, if any. */
    function Selection(): set<Tower>
      reads this
    {
      if selectedTower.Some? then {selectedTower.value} else {}
    }

    /** `handleTowerUpgrade` with the tower's own upgrade (the cost charged
        is the cost recorded) and the selection kept: an affordable upgrade
        of a selected non-paragon moves its cost from the purse into the
        tower. */
    method Upgrade()
      requires Valid() && SelectionPlaced()
      modifies this`money, Selection()
      ensures Valid() && SelectionPlaced()
      ensures selectedTower == old(selectedTower) && towers == old(towers)
      ensures old(selectedTower).None? ==> money == old(money)
      ensures old(selectedTower).Some? ==>
                var t := old(selectedTower.value);
                if old(money >= t.CurrentUpgradeCost()) && !t.isParagon then
                  && money == old(money) - old(t.CurrentUpgradeCost()) && money >= 0
                  && t.level == old(t.level) + 1
                  && t.damage == old(t.damage) * UpgradeDamageMultiplier
                  && t.range == old(t.range) * UpgradeRangeMultiplier
                  && t.cooldown == old(t.cooldown) && t.used == old(t.used)
                  && money + t.totalInvestment == old(money + t.totalInvestment)
                  && (old(t.PaidUp()) ==> t.PaidUp())
                else money == old(money) && unchanged(t)
    {
      if selectedTower.None? {
        return;
      }
      var t := selectedTower.value;
      var cost := t.CurrentUpgradeCost();
      if money >= cost && !t.isParagon {
        assert t.Valid();
        assert 3 * t.config.cost * t.level >= 0;
        t.Upgrade();
        money := money - cost;
      }
    }

    /** `handleTowerUpgrade` as written: the inline upgrade, then the
        selection replaced by a copy of the tower. The selection need not be
        on the board: after one upgrade it is that detached copy, and the
        handler then charges for upgrading the copy alone. */
    method UpgradeAsWritten()
      requires Valid() && (selectedTower.Some? ==> selectedTower.value.Valid())
      modifies this`money, this`selectedTower, Selection()
      ensures Valid() && towers == old(towers)
      ensures selectedTower.Some? ==> selectedTower.value.Valid()
      ensures old(selectedTower).None? ==> money == old(money) && selectedTower == None
      ensures old(selectedTower).Some? ==>
                var t := old(selectedTower.value);
                if old(money >= t.CurrentUpgradeCost()) && !t.isParagon then
                  && money == old(money) - old(t.CurrentUpgradeCost())
                  && t.level == old(t.level) + 1
                  && t.totalInvestment == old(t.totalInvestment) + UpgradeCost(t.config.cost, t.level, false)
                  && t.damage == old(t.damage) * UpgradeDamageMultiplier
                  && t.range == old(t.range) * UpgradeRangeMultiplier
                  && t.cooldown == old(t.cooldown) && t.used == old(t.used)
                  && selectedTower.Some? && fresh(selectedTower.value) && selectedTower.value !in towers
                  && selectedTower.value.totalInvestment == t.totalInvestment
                  && selectedTower.value.level == t.level && selectedTower.value.config == t.config
                  && selectedTower.value.damage == t.damage && selectedTower.value.range == t.range
                  && selectedTower.value.cooldown == t.cooldown && selectedTower.value.used == t.used
                  && !selectedTower.value.isParagon
                else money == old(money) && unchanged(t) && selectedTower == old(selectedTower)
      ensures old(selectedTower).Some? && old(selectedTower.value) !in towers ==>
                forall u :: u in towers ==> unchanged(u)
    {
      if selectedTower.None? {
        return;
      }
      var t := selectedTower.value;
      var cost := t.CurrentUpgradeCost();
      if money >= cost && !t.isParagon {
        t.UpgradeInline();
        money := money - cost;
        var copy := new Tower.Copy(t);
        selectedTower := Some(copy);
        assert t.Valid() by {
          assert t.level >= 1;
          assert 3 * t.config.cost * t.level >= 0;
        }
      }
    }

    /** Two clicks of the upgrade button as written: the first upgrades the
        tower on the board and selects a copy of it, the second charges for
        the next level but upgrades only that copy, so the board's tower
        goes up one level for the price of two. */
    method UpgradeTwiceAsWritten()
      requires Valid() && SelectionPlaced() && selectedTower.Some? && !selectedTower.value.isParagon
      requires money >= UpgradeCost(selectedTower.value.config.cost, selectedTower.value.level, false)
                        + UpgradeCost(selectedTower.value.config.cost, selectedTower.value.level + 1, false)
      modifies this`money, this`selectedTower, Selection()
      ensures Valid() && towers == old(towers) && old(selectedTower.value) in towers
      ensures var t := old(selectedTower.value);
              && t.level == old(t.level) + 1
              && money == old(money) - UpgradeCost(t.config.cost, old(t.level), false)
                                     - UpgradeCost(t.config.cost, old(t.level) + 1, false)
              && selectedTower.Some? && selectedTower.value !in towers
              && selectedTower.value.level == old(t.level) + 2
    {
      ghost var t := selectedTower.value;
      ghost var level := t.level;
      assert t.Valid();
      assert UpgradeCost(t.config.cost, level + 1, false) >= 0 by {
        assert 3 * t.config.cost * (level + 1) >= 0;
      }
      UpgradeAsWritten();
      assert t.level == level + 1;
      UpgradeAsWritten();
    }

    /** The same two clicks with the selection kept: the board's tower goes
        up two levels, each charged at the level it was bought from. */
    method UpgradeTwice()
      requires Valid() && SelectionPlaced() && selectedTower.Some? && !selectedTower.value.isParagon
      requires money >= UpgradeCost(selectedTower.value.config.cost, selectedTower.value.level, false)
                        + UpgradeCost(selectedTower.value.config.cost, selectedTower.value.level + 1, false)
      modifies this`money, Selection()
      ensures Valid() && SelectionPlaced() && towers == old(towers) && selectedTower == old(selectedTower)
      ensures var t := old(selectedTower.value);
              && t.level == old(t.level) + 2
              && money == old(money) - UpgradeCost(t.config.cost, old(t.level), false)
                                     - UpgradeCost(t.config.cost, old(t.level) + 1, false)
    {
      ghost var t := selectedTower.value;
      ghost var level := t.level;
      assert t.Valid();
      assert UpgradeCost(t.config.cost, level + 1, false) >= 0 by {
        assert 3 * t.config.cost * (level + 1) >= 0;
      }
      Upgrade();
      Upgrade();
    }

    /** `handleTowerSell`: the selected tower leaves the board (every list
        entry that is that very object), its sell value is paid, and the
        selection is cleared. */
    method Sell()
      requires Valid()
      modifies this`towers, this`money, this`selectedTower
      ensures Valid() && SelectionPlaced() && selectedTower == None
      ensures old(selectedTower).None? ==> towers == old(towers) && money == old(money)
      ensures old(selectedTower).Some? ==>
                towers == Without(old(towers), old(selectedTower.value))
                && money == old(money) + old(selectedTower.value.CurrentSellValue())
                && (old(selectedTower.value in towers) <==> |towers| == |old(towers)| - 1)
    {
      if selectedTower.None? {
        return;
      }
      var t := selectedTower.value;
      var value := t.CurrentSellValue();
      SellFromBoard(towers, t);
      towers := Without(towers, t);
      money := money + value;
      selectedTower := None;
    }

    /** The upgrade handler followed by the sell handler, as written: the
        tower stays on the board, yet its sell value is paid out. */
    method UpgradeThenSellAsWritten()
      requires Valid() && SelectionPlaced() && selectedTower.Some?
      requires money >= selectedTower.value.CurrentUpgradeCost() && !selectedTower.value.isParagon
      modifies this`money, this`selectedTower, this`towers, Selection()
      ensures Valid() && towers == old(towers) && old(selectedTower.value) in towers
      ensures money == old(money) - old(selectedTower.value.CurrentUpgradeCost())
                       + SellValue(old(selectedTower.value).totalInvestment)
    {
      UpgradeAsWritten();
      Sell();
    }

    /** The same two steps with the selection kept: the tower is sold. */
    method UpgradeThenSell()
      requires Valid() && SelectionPlaced() && selectedTower.Some?
      requires money >= selectedTower.value.CurrentUpgradeCost() && !selectedTower.value.isParagon
      modifies this`money, this`selectedTower, this`towers, Selection()
      ensures Valid() && towers == Without(old(towers), old(selectedTower.value))
      ensures |towers| == |old(towers)| - 1 && old(selectedTower.value) !in towers
      ensures money == old(money) - old(selectedTower.value.CurrentUpgradeCost())
                       + SellValue(old(selectedTower.value.totalInvestment) + old(selectedTower.value.CurrentUpgradeCost()))
    {
      Upgrade();
      Sell();
    }

    // -------------------------------------------------------------------
    // The frame loop

    /** The path every spawned enemy follows (`paths[pathIndex || 0]` with
        pathIndex 0), absent when the map has none. */
    function MainPath(): Option<seq<Point>> {
      if |mapData.paths| > 0 then Some(mapData.paths[0]) else None
    }

    /** The enemy phase: every enemy in turn has its frame; the survivors
        stay in order, each leak costs its lives and each kill pays its
        bounty. */
    method EnemyPhase(step: (Point, Point, real) -> Point)
      requires Valid()
      modifies this`enemies, this`lives, this`money, enemies
      ensures Valid()
      ensures Stepped(old(enemies), old(Snapshot(enemies)), MainPath(), step) == true
      ensures Marched(old(enemies), old(Snapshot(enemies)), MainPath(), step,
                      enemies, old(lives) - lives, money - old(money)) == true
      ensures lives <= old(lives) && forall e :: e in enemies ==> e in old(enemies)
    {
      var kept, lost, bounty := FilterEnemies(enemies, MainPath(), step, towers);
      assert TowersValid();
      Settle(kept, lost, bounty);
    }

    /** Keeps the survivors of the enemy phase, takes the lives the leaks
        cost and books the bounties the kills pay. */
    method Settle(kept: seq<Enemy>, lost: int, bounty: int)
      requires Board() && Distinct(projectiles) && Distinct(kept)
      modifies this`enemies, this`lives, this`money
      ensures Valid()
      ensures enemies == kept && lives == old(lives) - lost && money == old(money) + bounty
    {
      lives := lives - lost;
      money := money + bounty;
      enemies := kept;
    }

    /** An enemy of type `kind` as the spawner creates it at the start of
        the main path on this game's wave and difficulty. */
    predicate Spawned(e: Enemy, kind: string)
      requires kind in balance.enemies && |mapData.paths| > 0 && |mapData.paths[0]| > 0
      reads this, e
    {
      var data := balance.enemies[kind];
      && e.kind == kind && e.pos == ToCanvas(mapData.paths[0][0], CanvasWidth, CanvasHeight)
      && e.health == e.maxHealth == ScaledHealth(data.baseHealth, waveNumber, balance.waves.healthMultiplier)
      && e.speed == data.baseSpeed * SpeedFactor(difficulty) && e.bounty == data.bounty
      && e.pathIndex == 0 && e.waypointIndex == 0
      && !e.isFrozen && e.freezeTimer == 0 && !e.isBurning && e.burnTimer == 0 && e.burnTickTimer == 0
      && !e.isVoided && e.voidTimer == 0
      && (e.isStealthed <==> data.category == Stealth)
      && (e.isArmored <==> data.category == Armored || Contains(kind, "reinforced"))
      && (e.isBoss <==> data.category == Boss)
    }

    /** The spawner scales health by the balance data's multiplier, while
        `createEnemy` hard-codes a growth of 0.2: an enemy the spawner
        creates has the health the factory would give it exactly when the
        balance data's multiplier is 0.2 (for a live type after wave 0). */
    lemma SpawnedLikeFactory(e: Enemy, kind: string)
      requires kind in balance.enemies && |mapData.paths| > 0 && |mapData.paths[0]| > 0
      requires Spawned(e, kind) && balance.enemies[kind].baseHealth != 0.0 && waveNumber != 0
      ensures e.health == ScaledHealth(balance.enemies[kind].baseHealth, waveNumber, FactoryHealthMultiplier)
              <==> balance.waves.healthMultiplier == FactoryHealthMultiplier
    {
      ScaledHealthInjective(balance.enemies[kind].baseHealth, waveNumber, balance.waves.healthMultiplier,
                            FactoryHealthMultiplier);
    }

    /** The spawn phase: the spawner takes its frame, and an id it releases
        becomes a new enemy at the end of the list when the balance data
        knows it (an unknown id is dropped). */
    method SpawnPhase()
      requires Valid()
      modifies this`spawnQueue, this`spawnTimer, this`enemies
      ensures Valid()
      ensures var (s1, out) := SpawnStep(isWaveActive, Spawner(old(spawnQueue), old(spawnTimer)));
              && spawnQueue == s1.queue && spawnTimer == s1.timer
              && if out.Some? && out.value in balance.enemies then
                   && |enemies| == |old(enemies)| + 1 && enemies[..|old(enemies)|] == old(enemies)
                   && fresh(enemies[|old(enemies)|]) && Spawned(enemies[|old(enemies)|], out.value)
                 else enemies == old(enemies)
    {
      if isWaveActive && |spawnQueue| > 0 {
        spawnTimer := spawnTimer + 1;
        if spawnTimer >= SpawnDelayFrames {
          spawnTimer := 0;
          var kind := spawnQueue[0];
          spawnQueue := spawnQueue[1..];
          if kind in balance.enemies {
            var e := new Enemy.Create(kind, balance.enemies[kind], waveNumber, balance.waves.healthMultiplier,
                                      mapData.paths[0][0], CanvasWidth, CanvasHeight, SpeedFactor(difficulty));
            Snoc(enemies, e, []);
            enemies := enemies + [e];
          }
        }
      }
    }

    /** The tower phase: every tower takes its frame against the enemies
        left by the enemy phase; the banks pay out and the projectiles fired
        join the end of the list. */
    method TowerPhase() returns (fired: seq<Projectile>)
      requires Valid()
      modifies this`money, this`projectiles, towers`cooldown
      ensures Valid()
      ensures money == old(money) + BankIncome(towers, gameTick)
      ensures projectiles == old(projectiles) + fired
      ensures forall k :: 0 <= k < |fired| ==> fresh(fired[k]) && fired[k].target in enemies
    {
      var ts, es, prs := towers, enemies, projectiles;
      assert Distinct(ts) by { SpacedIsDistinct(ts); }
      var income;
      income, fired := TowerVolleys(ts, es, gameTick, prs);
      ShotsJoin(prs, fired);
      Collect(income, fired);
    }

    /** Books the towers' income and puts the projectiles they fired in flight. */
    method Collect(income: int, fired: seq<Projectile>)
      requires Board() && Distinct(enemies) && Distinct(projectiles + fired)
      modifies this`money, this`projectiles
      ensures Valid()
      ensures money == old(money) + income
      ensures projectiles == old(projectiles) + fired
    {
      money := money + income;
      projectiles := projectiles + fired;
    }

    /** The projectile phase: each projectile strikes its target or moves
        toward it; those that strike are dropped. */
    method ProjectilePhase(step: (Point, Point, real) -> Point)
      requires Valid()
      modifies this`projectiles, projectiles`pos, Aims(projectiles)`health, Aims(projectiles)`isFrozen
      modifies Aims(projectiles)`freezeTimer, Aims(projectiles)`isBurning, Aims(projectiles)`burnTimer
      modifies Aims(projectiles)`isVoided, Aims(projectiles)`voidTimer
      ensures Valid()
      ensures Flown(old(projectiles), old(Places(projectiles)), old(Spots(Aims(projectiles))),
                    old(Statuses(Aims(projectiles))), step) == true
      ensures Landed(old(projectiles), old(Places(projectiles)), old(Spots(Aims(projectiles))), projectiles) == true
    {
      var kept := FlyProjectiles(projectiles, step, towers, this);
      assert TowersValid();
      projectiles := kept;
    }

    /** The wave ends once it is active and both the spawn queue and the
        enemy list are empty: the next wave is due and its bonus is paid. */
    method CompleteWave()
      requires Valid()
      modifies this`isWaveActive, this`waveNumber, this`money
      ensures Valid()
      ensures if old(isWaveActive) && |spawnQueue| == 0 && |enemies| == 0 then
                !isWaveActive && waveNumber == old(waveNumber) + 1 && money == old(money) + WaveBonusMoney
              else isWaveActive == old(isWaveActive) && waveNumber == old(waveNumber) && money == old(money)
    {
      if isWaveActive && |spawnQueue| == 0 && |enemies| == 0 {
        isWaveActive := false;
        waveNumber := waveNumber + 1;
        money := money + WaveBonusMoney;
      }
    }

    /** The enemies' half of a frame: the spawner, then the enemies' turns. */
    method Advance(step: (Point, Point, real) -> Point)
      requires Valid()
      modifies this`spawnQueue, this`spawnTimer, this`enemies, this`lives, this`money, enemies
      ensures Valid()
      ensures lives <= old(lives)
      ensures forall e :: e in enemies ==> e in old(enemies) || fresh(e)
    {
      SpawnPhase();
      EnemyPhase(step);
    }

    /** The towers' half of a frame: the towers fire, then every projectile
        in flight moves and may strike. */
    method Shoot(step: (Point, Point, real) -> Point)
      requires Valid()
      modifies this`money, this`projectiles, towers, projectiles, enemies, Aims(projectiles)
      ensures Valid()
    {
      ghost var prs := projectiles;
      var fired := TowerPhase();
      assert Aims(projectiles) == Aims(prs) + Aims(fired) by { AimsJoin(prs, fired); }
      ProjectilePhase(step);
    }

    /** One frame of the game loop while it runs: the enemies' half, the
        towers' half, the end of the wave, the frame counter and the check
        for the end of the game; a stopped game stays as it is. */
    method Tick(step: (Point, Point, real) -> Point)
      requires Valid()
      modifies this, towers, (set e | e in enemies), projectiles, (set p | p in projectiles :: p.target)
      ensures Valid()
      ensures old(running) ==> gameTick == old(gameTick) + 1 && (running <==> lives > 0)
      ensures old(running) ==> lives <= old(lives) && old(waveNumber) <= waveNumber <= old(waveNumber) + 1
      ensures !old(running) ==> !running && gameTick == old(gameTick) && lives == old(lives) && money == old(money)
    {
      if !running {
        return;
      }
      Advance(step);
      Shoot(step);
      CompleteWave();
      CountFrame();
    }

    /** The frame counter advances, and the loop stops once the lives have
        run out. */
    method CountFrame()
      requires Valid()
      modifies this`gameTick, this`running
      ensures Valid()
      ensures gameTick == old(gameTick) + 1
      ensures running == (old(running) && lives > 0)
    {
      gameTick := gameTick + 1;
      if lives <= 0 {
        running := false;
      }
    }
  }

  /** The enemies a joined list of projectiles chase are those of its parts. */
  lemma AimsJoin(prs: seq<Projectile>, shots: seq<Projectile>)
    ensures Aims(prs + shots) == Aims(prs) + Aims(shots)
  {
    var a, b := Aims(prs + shots), Aims(prs) + Aims(shots);
    forall k | 0 <= k < |a|
      ensures a[k] == b[k]
    {
      if k < |prs| {
        assert (prs + shots)[k] == prs[k];
      } else {
        assert (prs + shots)[k] == shots[k - |prs|];
      }
    }
  }

  /** The projectiles fired on a frame join the list: distinct new objects
      keep it distinct. */
  lemma ShotsJoin(prs: seq<Projectile>, shots: seq<Projectile>)
    requires Distinct(prs) && Distinct(shots) && Disjoint(shots, prs)
    ensures Distinct(prs + shots)
  {
    DistinctPairs(prs);
    DistinctPairs(shots);
    var r := prs + shots;
    forall i, j | 0 <= i < j < |r|
      ensures r[i] != r[j]
    {
      if i >= |prs| {
        assert r[i] == shots[i - |prs|] && r[j] == shots[j - |prs|];
      } else if j >= |prs| {
        assert r[j] == shots[j - |prs|];
      }
    }
    DistinctPairs(r);
  }
}
