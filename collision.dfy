/** The analytic end-of-game test against obstacles: physics bodies of obstacles do not push
    the ball, so the game decides contact itself from distances. */
module Collision {
  import opened Space
  import opened Obstacles

  /** Radius of the ball's physics sphere. */
  const BallRadius: real := 1.0

  /** How far above an obstacle's half-height the ball may be and still be caught. */
  const Forgiveness: real := 0.45

  /** The centre of an obstacle's physics body: a cube sits on the floor at its stored position;
      a ramp's body is 2 tall and centred 3 units (half its depth) after its stored position. */
  function Center(o: Obstacle): (r: Vec3)
    ensures r.x == o.lane && o.position <= r.z <= o.position + 3.0
  {
    match o.shape
    case Cube(_, height) => Vec3(o.lane, height / 2.0, o.position)
    case Ramp => Vec3(o.lane, 1.0, o.position + 3.0)
  }

  /** The half-extents of an obstacle's physics box: a ramp is 4 wide, 2 tall and 6 deep. */
  function HalfExtents(o: Obstacle): (r: Vec3)
    ensures WellFormed(o) ==> r.x > 0.0 && r.y > 0.0 && r.z > 0.0
    ensures o.shape.Cube? ==> r.x == r.z
  {
    match o.shape
    case Cube(size, height) => Vec3(size / 2.0, height / 2.0, size / 2.0)
    case Ramp => Vec3(2.0, 1.0, 3.0)
  }

  /** The horizontal reach at which the ball touches the obstacle. */
  function Threshold(o: Obstacle): real
  {
    BallRadius + Max(HalfExtents(o).x, HalfExtents(o).z)
  }

  /** Squared horizontal (lateral and forward) distance from the ball to the obstacle's centre. */
  function HorizontalDistanceSquared(ball: Vec3, o: Obstacle): real
  {
    var dx := ball.x - Center(o).x;
    var dz := ball.z - Center(o).z;
    dx * dx + dz * dz
  }

  /** How far the ball is above the obstacle's centre. */
  function Lift(ball: Vec3, o: Obstacle): real
  {
    ball.y - Center(o).y
  }

  /** Whether this obstacle ends the game for a ball at `ball`. Ramps never do. The distance
      test is on squares, which agrees with the source's square root (CollisionRule). */
  predicate Hits(ball: Vec3, o: Obstacle): (r: bool)
    ensures r ==> o.shape.Cube?
  {
    && o.shape.Cube?
    && HorizontalDistanceSquared(ball, o) < Threshold(o) * Threshold(o)
    && Lift(ball, o) < HalfExtents(o).y + Forgiveness
  }

  /** The source's rule, with `h` the horizontal distance Math.sqrt(dx*dx + dz*dz): a ramp never
      ends the game, and a generated cube ends it exactly when `h` is below the ball radius plus the
      larger horizontal half-extent and the ball is not clearly above the cube. */
  lemma CollisionRule(ball: Vec3, o: Obstacle, h: real)
    requires WellFormed(o)
    requires h >= 0.0 && h * h == HorizontalDistanceSquared(ball, o)
    ensures o.shape.Ramp? ==> !Hits(ball, o)
    ensures o.shape.Cube? ==>
      (Hits(ball, o) <==> h < BallRadius + o.shape.size / 2.0 && ball.y - o.shape.height / 2.0 < o.shape.height / 2.0 + Forgiveness)
  {
    if o.shape.Cube? {
      var t := Threshold(o);
      assert t == BallRadius + o.shape.size / 2.0 && t > 0.0;
      assert HorizontalDistanceSquared(ball, o) == h * h;
      assert Lift(ball, o) == ball.y - o.shape.height / 2.0;
      assert HalfExtents(o).y == o.shape.height / 2.0;
      SquaresOrdered(h, t);
    }
  }

  /** For non-negative numbers, comparing squares compares the numbers. */
  lemma SquaresOrdered(h: real, t: real)
    requires h >= 0.0 && t > 0.0
    ensures h < t <==> h * h < t * t
  {
    assert t * t - h * h == (t - h) * (t + h);
    if h < t {
      PositiveProduct(t - h, t + h);
    } else if h > t {
      PositiveProduct(h - t, t + h);
    }
  }

  lemma PositiveProduct(a: real, b: real)
    requires a > 0.0 && b > 0.0
    ensures a * b > 0.0
  {
  }

  /** Directly above a cube, at or beyond the forgiveness height, the ball is safe. */
  lemma ClearAbove(ball: Vec3, o: Obstacle)
    requires o.shape.Cube?
    requires ball.y >= o.shape.height + Forgiveness
    ensures !Hits(ball, o)
  {
  }

  /** Index of the first obstacle of `obstacles` that ends the game, if any (-1 if none): the
      one checkObstacleCollisions stops at (FirstHitSpec). */
  function FirstHit(ball: Vec3, obstacles: seq<Obstacle>): (r: int)
    ensures -1 <= r < |obstacles|
    decreases |obstacles|
  {
    if obstacles == [] then -1
    else if Hits(ball, obstacles[0]) then 0
    else
      var rest := FirstHit(ball, obstacles[1..]);
      if rest == -1 then -1 else rest + 1
  }

  /** FirstHit is -1 exactly when no obstacle ends the game, and otherwise the index of one
      that does with none before it. */
  lemma {:induction false} FirstHitSpec(ball: Vec3, obstacles: seq<Obstacle>)
    ensures FirstHit(ball, obstacles) == -1 <==> forall i :: 0 <= i < |obstacles| ==> !Hits(ball, obstacles[i])
    ensures FirstHit(ball, obstacles) >= 0 ==>
      Hits(ball, obstacles[FirstHit(ball, obstacles)]) && forall i :: 0 <= i < FirstHit(ball, obstacles) ==> !Hits(ball, obstacles[i])
    decreases |obstacles|
  {
    if obstacles != [] && !Hits(ball, obstacles[0]) {
      var rest := obstacles[1..];
      FirstHitSpec(ball, rest);
      assert forall i :: 1 <= i < |obstacles| ==> obstacles[i] == rest[i - 1];
    }
  }

  /** Scanning `s` in order: when nothing before index `i` ends the game, the first hit is `i`
      if the obstacle there ends it, and otherwise there is still none up to and including `i`. */
  lemma FirstHitScan(ball: Vec3, s: seq<Obstacle>, i: nat)
    requires i < |s| && FirstHit(ball, s[..i]) == -1
    ensures Hits(ball, s[i]) ==> FirstHit(ball, s) == i
    ensures !Hits(ball, s[i]) ==> FirstHit(ball, s[..i + 1]) == -1
  {
    FirstHitSpec(ball, s[..i]);
    assert forall j :: 0 <= j < i ==> s[..i][j] == s[j];
    assert forall j :: 0 <= j < i ==> !Hits(ball, s[j]);
    if Hits(ball, s[i]) {
      FirstHitSpec(ball, s);
      var r := FirstHit(ball, s);
      assert r != -1;
      assert !(r < i);
      assert !(r > i);
    } else {
      FirstHitSpec(ball, s[..i + 1]);
      assert forall j :: 0 <= j < i + 1 ==> s[..i + 1][j] == s[j];
    }
  }
}
