/** Obstacles: lethal cubes and harmless ramps placed in lanes off the centre line, generated
    from uniform random draws when the initial track is built and when segments are recycled. */
module Obstacles {
  import opened Space
  import opened Trail
  import opened Track

  /** A cube (`size` wide and deep, `height` tall) or a fixed-size ramp. */
  datatype Shape = Cube(size: real, height: real) | Ramp

  /** An obstacle: `position` is the forward position the game stores and retires it by,
      `lane` its lateral offset from the track's centre line. */
  datatype Obstacle = Obstacle(position: real, lane: real, shape: Shape)

  /** The forward position the retirement rule looks at. */
  function PlacedAt(o: Obstacle): real
  {
    o.position
  }

  /** A value Math.random() can return. */
  predicate Unit(r: real)
  {
    0.0 <= r < 1.0
  }

  /** The random draws createObstacle makes: the shape, then (when no offset is given) the lane's
      side and distance, then (for a cube) its size and height. */
  datatype ObstacleDraw = ObstacleDraw(kind: real, side: real, lane: real, size: real, height: real)
  {
    predicate Valid()
    {
      Unit(kind) && Unit(side) && Unit(lane) && Unit(size) && Unit(height)
    }
  }

  /** The random draws made for one new segment: whether obstacles appear at all (recycling only),
      the primary obstacle's forward jitter (recycling only) and draws, whether a second obstacle
      appears, its side, lateral distance and forward jitter, and its own draws. */
  datatype SpawnDraw = SpawnDraw(
    spawn: real, jitter: real, first: ObstacleDraw,
    second: real, secondSide: real, secondMag: real, offsetZ: real, secondObstacle: ObstacleDraw)
  {
    predicate Valid()
    {
      Unit(spawn) && Unit(jitter) && first.Valid() &&
      Unit(second) && Unit(secondSide) && Unit(secondMag) && Unit(offsetZ) && secondObstacle.Valid()
    }
  }

  /** Every draw in a list of per-segment draws is a possible Math.random() outcome. */
  predicate ValidDraws(ds: seq<SpawnDraw>)
  {
    forall i :: 0 <= i < |ds| ==> ds[i].Valid()
  }

  /** Probability thresholds and ranges used by the generator. */
  const RampThreshold: real := 0.85
  const InitialSecondThreshold: real := 0.65
  const RecycleSpawnThreshold: real := 0.4
  const RecycleSecondThreshold: real := 0.55
  const RecycleJitter: real := 15.0
  const SecondJitter: real := 8.0

  /** `(Math.random() > 0.5 ? 1 : -1)`. */
  function Side(r: real): (s: real)
    ensures s == 1.0 || s == -1.0
    ensures s > 0.0 <==> r > 0.5
  {
    if r > 0.5 then 1.0 else -1.0
  }

  /** The range every generated obstacle respects: a lane off the centre line and on the track,
      and a cube of medium size and height. */
  predicate WellFormed(o: Obstacle)
  {
    && 1.5 <= Abs(o.lane) < 5.5
    && (o.shape.Cube? ==> 1.0 <= o.shape.size < 2.5 && 1.0 <= o.shape.height < 2.8)
  }

  /** Every obstacle of `obs` is well formed. */
  predicate AllWellFormed(obs: seq<Obstacle>)
  {
    forall o :: o in obs ==> WellFormed(o)
  }

  /** createObstacle(z, xOffset): a ramp exactly when the first draw exceeds 0.85; the lane is
      `xOffset` unless that is 0, in which case (the "not given" default, which an explicit 0
      cannot be told apart from) a random side at distance in [1.5, 5.5). */
  function MakeObstacle(z: real, xOffset: real, d: ObstacleDraw): (o: Obstacle)
    requires d.Valid()
    ensures o.position == z
    ensures o.shape.Ramp? <==> d.kind > RampThreshold
    ensures xOffset != 0.0 ==> o.lane == xOffset
    ensures xOffset == 0.0 ==> 1.5 <= Abs(o.lane) < 5.5
    ensures o.shape.Cube? ==> 1.0 <= o.shape.size < 2.5 && 1.0 <= o.shape.height < 2.8
  {
    var lane := if xOffset != 0.0 then xOffset else Side(d.side) * (1.5 + d.lane * 4.0);
    if d.kind > RampThreshold then Obstacle(z, lane, Ramp)
    else Obstacle(z, lane, Cube(1.0 + d.size * 1.5, 1.0 + d.height * 1.8))
  }

  /** The second obstacle's lateral offset: a random side at distance in [2, 5), so never 0. */
  function SecondLane(d: SpawnDraw): (x: real)
    requires d.Valid()
    ensures 2.0 <= Abs(x) < 5.0
  {
    Side(d.secondSide) * (2.0 + d.secondMag * 3.0)
  }

  /** One or two obstacles for a segment: the primary at `primaryZ` in a random lane, and, when
      the draw beats `secondChance`, a second one up to 8 units after `anchorZ` at offset
      SecondLane. */
  function Spawn(primaryZ: real, anchorZ: real, d: SpawnDraw, secondChance: real): (r: seq<Obstacle>)
    requires d.Valid()
    ensures 1 <= |r| <= 2
    ensures r[0].position == primaryZ
    ensures |r| == 2 <==> d.second > secondChance
    ensures |r| == 2 ==> r[1].lane == SecondLane(d) && anchorZ <= r[1].position < anchorZ + SecondJitter
    ensures forall o :: o in r ==> WellFormed(o)
  {
    [MakeObstacle(primaryZ, 0.0, d.first)]
      + if d.second > secondChance
        then [MakeObstacle(anchorZ + d.offsetZ * SecondJitter, SecondLane(d), d.secondObstacle)]
        else []
  }

  /** What the recycling branch of updateTrack spawns on a new segment starting at `newPos`:
      with probability 0.6 an obstacle in its first 15 units, then possibly a second one. */
  function SpawnOn(newPos: real, d: SpawnDraw): (r: seq<Obstacle>)
    requires d.Valid()
    ensures |r| <= 2
    ensures r != [] <==> d.spawn > RecycleSpawnThreshold
    ensures forall o :: o in r ==> WellFormed(o) && newPos <= o.position < newPos + RecycleJitter
  {
    if d.spawn > RecycleSpawnThreshold
    then Spawn(newPos + d.jitter * RecycleJitter, newPos, d, RecycleSecondThreshold)
    else []
  }

  /** The obstacles createInitialTrack places while laying the first `n` segments, at
      0, 20, ..., with the draw at each segment's index: nothing on the segments at or before
      35, then one or two per segment. All of them lie between 40 and the end of the track laid
      so far. */
  function InitialObstacles(ds: seq<SpawnDraw>, n: nat): (r: seq<Obstacle>)
    requires ValidDraws(ds) && n <= |ds|
    ensures |r| <= 2 * n
  {
    if n == 0 then []
    else InitialObstacles(ds, n - 1) + InitialSpawn(n - 1, ds[n - 1])
  }

  /** Every initial obstacle is well formed and lies between 40 and the end of the track laid
      so far. */
  lemma {:induction false} InitialObstaclesPlaced(ds: seq<SpawnDraw>, n: nat)
    requires ValidDraws(ds) && n <= |ds|
    ensures forall o :: o in InitialObstacles(ds, n) ==> WellFormed(o) && 40.0 <= o.position < SegmentLength * (n as real)
  {
    if n > 0 {
      InitialObstaclesPlaced(ds, n - 1);
      InitialSpawnPlaced(n - 1, ds[n - 1]);
      LengthStep(n - 1);
    }
  }

  /** Laying the segment after the first `k` adds what that segment gets. */
  lemma InitialObstaclesStep(ds: seq<SpawnDraw>, k: nat, next: nat)
    requires ValidDraws(ds) && next == k + 1 && next <= |ds|
    ensures InitialObstacles(ds, next) == InitialObstacles(ds, k) + InitialSpawn(k, ds[k])
  {
  }

  /** What createInitialTrack places on the `j`-th segment, at z = 20 * j: nothing at or before
      35, otherwise one or two obstacles from the segment's position on. */
  function InitialSpawn(j: nat, d: SpawnDraw): (r: seq<Obstacle>)
    requires d.Valid()
    ensures r != [] <==> j >= 2
  {
    var z := 20 * j;
    if z > 35 && z % 20 == 0 then Spawn(z as real, z as real, d, InitialSecondThreshold) else []
  }

  /** What the `j`-th segment gets is well formed and lies from 40 up to 8 units past the
      segment's start. */
  lemma InitialSpawnPlaced(j: nat, d: SpawnDraw)
    requires d.Valid()
    ensures forall o :: o in InitialSpawn(j, d) ==> WellFormed(o) && 40.0 <= o.position < SegmentLength * (j as real) + SecondJitter
  {
    if j >= 2 {
      assert (20 * j) as real == SegmentLength * (j as real);
    }
  }

  /** The obstacles the segment loop of updateTrack pushes, in push order, when it walks `s`
      from the back: each retired segment gets its new segment at `base` plus 20 per segment
      retired after it in `s`, and SpawnOn with the draw at its own index. */
  function RecycleSpawns(s: seq<Segment>, ds: seq<SpawnDraw>, z: real, base: real): (r: seq<Obstacle>)
    requires |ds| == |s|
    requires ValidDraws(ds)
    ensures |r| <= 2 * RetiredCount(s, StartOf, z)
    decreases |s|
  {
    if s == [] then []
    else
      assert s == [s[0]] + s[1..];
      var later := RetiredCount(s[1..], StartOf, z);
      RecycleSpawns(s[1..], ds[1..], z, base)
        + if Behind(s[0].position, z) then SpawnOn(Offset(base, later), ds[0]) else []
  }

  /** Every obstacle spawned while recycling is well formed. */
  lemma {:induction false} RecycleSpawnsWellFormed(s: seq<Segment>, ds: seq<SpawnDraw>, z: real, base: real)
    requires |ds| == |s| && ValidDraws(ds)
    ensures AllWellFormed(RecycleSpawns(s, ds, z, base))
    decreases |s|
  {
    if s != [] {
      RecycleSpawnsWellFormed(s[1..], ds[1..], z, base);
    }
  }

  /** Every obstacle spawned while recycling lies in the first 15 units of one of the segments
      laid in that same call. */
  lemma {:induction false} RecycleSpawnsOnNewSegments(s: seq<Segment>, ds: seq<SpawnDraw>, z: real, base: real)
    requires |ds| == |s|
    requires ValidDraws(ds)
    ensures forall o :: o in RecycleSpawns(s, ds, z, base) ==>
      exists t :: t in Run(base, RetiredCount(s, StartOf, z)) && t.position <= o.position < t.position + RecycleJitter
    decreases |s|
  {
    if s != [] {
      assert s == [s[0]] + s[1..];
      var later := RetiredCount(s[1..], StartOf, z);
      RecycleSpawnsOnNewSegments(s[1..], ds[1..], z, base);
      if Behind(s[0].position, z) {
        assert RetiredCount(s, StartOf, z) == later + 1;
        var laid := Segment(Offset(base, later), SegmentLength);
        assert Run(base, later + 1) == Run(base, later) + [laid];
        forall o | o in SpawnOn(Offset(base, later), ds[0])
          ensures laid in Run(base, later + 1) && laid.position <= o.position < laid.position + RecycleJitter
        {
        }
      } else {
        assert RetiredCount(s, StartOf, z) == later;
      }
    }
  }

  /** Walking the segments from the back: the suffix from `i` spawns what the suffix from
      `h` = i + 1 spawns, then, if the segment at `i` is retired, what its new segment at
      `laid` gets. */
  lemma RecycleSpawnsStep(s: seq<Segment>, ds: seq<SpawnDraw>, i: nat, h: nat, z: real, base: real, laid: real)
    requires |ds| == |s| && ValidDraws(ds) && h == i + 1 && h <= |s|
    requires Behind(s[i].position, z) ==> laid == Offset(base, RetiredCount(s[h..], StartOf, z))
    ensures RecycleSpawns(s[i..], ds[i..], z, base) == RecycleSpawns(s[h..], ds[h..], z, base)
      + if Behind(s[i].position, z) then SpawnOn(laid, ds[i]) else []
  {
    assert s[i..][1..] == s[h..];
    assert ds[i..][1..] == ds[h..];
  }

  /** The obstacles left after a recycling pass and the retirement of those behind the player
      are all well formed when the ones before it were. */
  lemma RecycleKeepsWellFormed(obs: seq<Obstacle>, s: seq<Segment>, ds: seq<SpawnDraw>, z: real, base: real)
    requires AllWellFormed(obs) && |ds| == |s| && ValidDraws(ds)
    ensures AllWellFormed(Survivors(obs + RecycleSpawns(s, ds, z, base), PlacedAt, z))
  {
    RecycleSpawnsWellFormed(s, ds, z, base);
    SurvivorsMembers(obs + RecycleSpawns(s, ds, z, base), PlacedAt, z);
  }
}
