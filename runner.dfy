/** The game object: run state, jump state, the track and its obstacles, updated in place once
    per animation frame. The physics engine is outside the model: each frame it hands over the
    ball's position after its step, and the forces and impulses the game would apply to the
    ball are returned instead of applied. */
module Runner {
  import opened Lists
  import opened Space
  import opened Trail
  import opened Track
  import opened Obstacles
  import opened Collision
  import opened Motion
  import opened Scoring

  datatype Option<T> = None | Some(value: T)

  class NeonRunner {
    var score: int
    var speed: real
    var maxSpeed: real
    const speedIncrement: real := SpeedIncrement
    var gameOver: bool
    var gameStarted: bool
    var canJump: bool
    var jumpCooldown: real
    var hasSpeedBoost: bool
    var speedBoostTime: real
    var hasSuperJump: bool
    var superJumpTime: real
    /** Track segments ordered by position. */
    var trackSegments: seq<Segment>
    var obstacles: seq<Obstacle>
    /** Position of the ball's physics body. */
    var ball: Vec3
    /** Whether the animation loop is scheduled, and the timestamp of its last frame (ms). */
    var animating: bool
    var lastTime: real

    /** The invariant every public operation keeps: the track is always 15 consecutive segments
        of length 20 with no gap or overlap, every obstacle is in range, and the speed lies
        between the initial speed and the cap plus one increment. */
    ghost predicate Valid()
      reads this
    {
      Window(trackSegments) && AllWellFormed(obstacles) && Paced(speed, maxSpeed)
    }

    /** The power-up state as one value. */
    ghost function Boosted(): Boosts
      reads this`hasSpeedBoost, this`speedBoostTime, this`hasSuperJump, this`superJumpTime, this`maxSpeed
    {
      Boosts(hasSpeedBoost, speedBoostTime, hasSuperJump, superJumpTime, maxSpeed)
    }

    /** The effect of one gameplay frame (update while the game is not over) of `dt` seconds,
        given the ball position `stepped` the physics step produced, the held `keys` and the
        draws for each segment index: the ball moves forward by the speed, the track is
        recycled and old obstacles retired, the power-up timers run, the jump gate settles, a
        fall or a cube ends the game, and the score and speed advance. */
    twostate predicate Advanced(dt: real, stepped: Vec3, keys: Keys, draws: seq<SpawnDraw>, forces: seq<real>)
      reads this
    {
      && |draws| == |old(trackSegments)| && ValidDraws(draws)
      && ball == Forward(stepped, old(speed), dt)
      && trackSegments == Recycle(old(trackSegments), ball.z)
      && obstacles == Survivors(old(obstacles) + RecycleSpawns(old(trackSegments), draws, ball.z, Frontier(old(trackSegments))), PlacedAt, ball.z)
      && forces == LateralForces(keys, ball.x)
      && Boosted() == BoostTick(old(Boosted()), dt)
      && JumpGate(canJump, jumpCooldown) == Settle(JumpGate(old(canJump), old(jumpCooldown)), dt, ball.y)
      && gameOver == (old(gameOver) || ball.y < FallHeight || FirstHit(ball, obstacles) >= 0)
      && score == old(score) + ScoreGain(old(speed), dt)
      && speed == NextSpeed(old(speed), maxSpeed, speedIncrement)
    }

    /** The constructor, including its first animate() call: that frame has time 0 against a
        last time of 0 and the game has not started, so it only marks the loop as running. */
    constructor (draws: seq<SpawnDraw>)
      requires |draws| == SegmentCount && ValidDraws(draws)
      ensures Valid()
      ensures score == 0 && speed == InitialSpeed && maxSpeed == MaxSpeed
      ensures !gameOver && !gameStarted && canJump && jumpCooldown == 0.0
      ensures !hasSpeedBoost && !hasSuperJump
      ensures trackSegments == Run(0.0, SegmentCount) && obstacles == InitialObstacles(draws, |draws|)
      ensures ball == Vec3(0.0, BallRadius, 0.0)
      ensures animating && lastTime == 0.0
    {
      score := 0;
      speed := InitialSpeed;
      maxSpeed := MaxSpeed;
      gameOver := false;
      canJump := true;
      jumpCooldown := 0.0;
      gameStarted := false;
      animating := true;
      hasSuperJump := false;
      hasSpeedBoost := false;
      speedBoostTime := 0.0;
      superJumpTime := 0.0;
      ball := Vec3(0.0, BallRadius, 0.0);
      lastTime := 0.0;
      new;
      RebuildTrack(draws);
    }

    /** Empties the segment and obstacle lists and lays the initial track on them: the 15
        segments from 0 and their obstacles, a valid window of well-formed obstacles. */
    method RebuildTrack(draws: seq<SpawnDraw>)
      requires |draws| == SegmentCount && ValidDraws(draws)
      modifies this`trackSegments, this`obstacles
      ensures trackSegments == Run(0.0, SegmentCount) && obstacles == InitialObstacles(draws, |draws|)
      ensures Window(trackSegments) && AllWellFormed(obstacles)
    {
      trackSegments := [];
      obstacles := [];
      CreateInitialTrack(draws);
      RunAt(0.0, SegmentCount, 0);
      InitialObstaclesPlaced(draws, |draws|);
    }

    /** Appends one segment of length 20 at `z` and returns its position and length. */
    method CreateTrackSegment(z: real) returns (t: Segment)
      modifies this`trackSegments
      ensures t == Segment(z, SegmentLength)
      ensures trackSegments == old(trackSegments) + [t]
    {
      t := Segment(z, SegmentLength);
      trackSegments := trackSegments + [t];
    }

    /** Appends the obstacle the draw `d` makes at `z` with lateral offset `xOffset`. */
    method CreateObstacle(z: real, xOffset: real, d: ObstacleDraw)
      requires d.Valid()
      modifies this`obstacles
      ensures obstacles == old(obstacles) + [MakeObstacle(z, xOffset, d)]
    {
      obstacles := obstacles + [MakeObstacle(z, xOffset, d)];
    }

    /** Lays the segments 0, 20, ..., 280 and the obstacles on those after 35. */
    method CreateInitialTrack(draws: seq<SpawnDraw>)
      requires |draws| == SegmentCount && ValidDraws(draws)
      modifies this`trackSegments, this`obstacles
      ensures trackSegments == old(trackSegments) + Run(0.0, |draws|)
      ensures obstacles == old(obstacles) + InitialObstacles(draws, |draws|)
    {
      ghost var T := trackSegments;
      ghost var O := obstacles;
      var z := 0;
      var k := 0;
      while z < TrackLength
        invariant 0 <= k <= SegmentCount && z == 20 * k
        invariant trackSegments == T + Run(0.0, k)
        invariant obstacles == O + InitialObstacles(draws, k)
        decreases TrackLength - z
      {
        var next := k + 1;
        LayInitialSegment(z, k, next, draws, T, O);
        z := z + 20;
        k := next;
      }
    }

    /** The body of createInitialTrack's loop for the `k`-th segment, at `z`: the segment, then
        its obstacles. */
    method LayInitialSegment(z: int, k: nat, next: nat, draws: seq<SpawnDraw>, ghost T: seq<Segment>, ghost O: seq<Obstacle>)
      requires z == 20 * k && next == k + 1 && next <= |draws| && ValidDraws(draws)
      requires trackSegments == T + Run(0.0, k) && obstacles == O + InitialObstacles(draws, k)
      modifies this`trackSegments, this`obstacles
      ensures trackSegments == T + Run(0.0, next) && obstacles == O + InitialObstacles(draws, next)
    {
      var segment := CreateTrackSegment(z as real);
      OffsetFromOrigin(k);
      RunStep(0.0, k, next);
      Concat3(T, Run(0.0, k), [segment]);
      PlaceInitialObstacles(z, k, draws[k]);
      InitialObstaclesStep(draws, k, next);
      Concat3(O, InitialObstacles(draws, k), InitialSpawn(k, draws[k]));
    }

    /** The obstacle block of createInitialTrack's loop for the `k`-th segment, at `z`. */
    method PlaceInitialObstacles(z: int, ghost k: nat, d: SpawnDraw)
      requires z == 20 * k && d.Valid()
      modifies this`obstacles
      ensures obstacles == old(obstacles) + InitialSpawn(k, d)
    {
      if z > 35 && z % 20 == 0 {
        CreateObstacle(z as real, 0.0, d.first);
        if d.second > InitialSecondThreshold {
          CreateObstacle(z as real + d.offsetZ * SecondJitter, SecondLane(d), d.secondObstacle);
        }
      }
    }

    /** Moves the ball forward by the speed, recycles every segment more than 40 behind it
        (walking the list from the back, pushing a new segment after the current last one, then
        splicing the old one out), and then retires the obstacles more than 40 behind it. */
    method UpdateTrack(dt: real, draws: seq<SpawnDraw>)
      requires Window(trackSegments) && AllWellFormed(obstacles)
      requires |draws| == |trackSegments| && ValidDraws(draws)
      modifies this`ball, this`trackSegments, this`obstacles
      ensures Window(trackSegments) && AllWellFormed(obstacles)
      ensures ball == Forward(old(ball), speed, dt)
      ensures trackSegments == Recycle(old(trackSegments), ball.z)
      ensures obstacles == Survivors(old(obstacles) + RecycleSpawns(old(trackSegments), draws, ball.z, Frontier(old(trackSegments))), PlacedAt, ball.z)
    {
      ghost var S := trackSegments;
      ghost var O := obstacles;
      ball := Forward(ball, speed, dt);
      var z := ball.z;
      RecycleSegments(z, draws);
      RetireObstacles(z);
      RecycleKeepsWindow(S, z);
      RecycleKeepsWellFormed(O, S, draws, z, Frontier(S));
    }

    /** The segment loop of updateTrack for a player at `z`, with the draw for each segment
        index: walks the list from the back, handling each index in turn (RecycleIndex). */
    method RecycleSegments(z: real, draws: seq<SpawnDraw>)
      requires |draws| == |trackSegments| && ValidDraws(draws)
      modifies this`trackSegments, this`obstacles
      ensures trackSegments == Recycle(old(trackSegments), z)
      ensures obstacles == old(obstacles) + RecycleSpawns(old(trackSegments), draws, z, Frontier(old(trackSegments)))
    {
      ghost var S := trackSegments;
      ghost var O := obstacles;
      PendingEnds(S, z);
      assert draws[|S|..] == [] && S[|S|..] == [];
      var i := |trackSegments| - 1;
      ghost var h := |S|;
      while i >= 0
        invariant -1 <= i < |S| && h == i + 1
        invariant trackSegments == Pending(S, h, z)
        invariant obstacles == O + RecycleSpawns(S[h..], draws[h..], z, Frontier(S))
        decreases i
      {
        RecycleIndex(i, h, S, O, z, draws);
        h := i;
        i := i - 1;
      }
      assert S[0..] == S && draws[0..] == draws;
    }

    /** The body of the segment loop at index `i`, all indices after it handled: a segment
        more than 40 behind the player gets a new segment pushed where the last one ends, with
        its obstacles, and is then spliced out. */
    method RecycleIndex(i: int, ghost h: nat, ghost S: seq<Segment>, ghost O: seq<Obstacle>, z: real, draws: seq<SpawnDraw>)
      requires 0 <= i && h == i + 1 && h <= |S| && |draws| == |S| && ValidDraws(draws)
      requires trackSegments == Pending(S, h, z)
      requires obstacles == O + RecycleSpawns(S[h..], draws[h..], z, Frontier(S))
      modifies this`trackSegments, this`obstacles
      ensures trackSegments == Pending(S, i, z)
      ensures obstacles == O + RecycleSpawns(S[i..], draws[i..], z, Frontier(S))
    {
      ghost var cur := trackSegments;
      ghost var spawned := RecycleSpawns(S[h..], draws[h..], z, Frontier(S));
      RecycleStep(S, i, h, z, cur);
      var segment := trackSegments[i];
      if Behind(segment.position, z) {
        var lastSegment := trackSegments[|trackSegments| - 1];
        var newPosition := lastSegment.position + lastSegment.length;
        var laid := CreateTrackSegment(newPosition);
        ghost var pushed := trackSegments;
        SpawnOnNewSegment(newPosition, draws[i]);
        trackSegments := trackSegments[..i] + trackSegments[i + 1..];
        RetireStep(S, i, h, z, cur, pushed);
        RecycleSpawnsStep(S, draws, i, h, z, Frontier(S), newPosition);
        Concat3(O, spawned, SpawnOn(newPosition, draws[i]));
      } else {
        RecycleSpawnsStep(S, draws, i, h, z, Frontier(S), 0.0);
        assert spawned + [] == spawned;
      }
    }

    /** The obstacle block of updateTrack's recycling branch for a new segment at `newPosition`:
        with probability 0.6 an obstacle within its first 15 units, then possibly a second one
        beside it. */
    method SpawnOnNewSegment(newPosition: real, d: SpawnDraw)
      requires d.Valid()
      modifies this`obstacles
      ensures obstacles == old(obstacles) + SpawnOn(newPosition, d)
    {
      if d.spawn > RecycleSpawnThreshold {
        CreateObstacle(newPosition + d.jitter * RecycleJitter, 0.0, d.first);
        if d.second > RecycleSecondThreshold {
          CreateObstacle(newPosition + d.offsetZ * SecondJitter, SecondLane(d), d.secondObstacle);
        }
      }
    }

    /** The obstacle loop of updateTrack for a player at `z`: splices out, from the back, every
        obstacle more than 40 behind. */
    method RetireObstacles(z: real)
      modifies this`obstacles
      ensures obstacles == Survivors(old(obstacles), PlacedAt, z)
    {
      ghost var P := obstacles;
      var i := |obstacles| - 1;
      while i >= 0
        invariant -1 <= i < |P|
        invariant obstacles == P[..i + 1] + Survivors(P[i + 1..], PlacedAt, z)
        decreases i
      {
        PrefixStep(P, i);
        SurvivorsStep(P, i, PlacedAt, z);
        var obstacle := obstacles[i];
        if Behind(obstacle.position, z) {
          Splice(P[..i], P[i], Survivors(P[i + 1..], PlacedAt, z));
          obstacles := obstacles[..i] + obstacles[i + 1..];
        } else {
          Concat3(P[..i], [P[i]], Survivors(P[i + 1..], PlacedAt, z));
        }
        i := i - 1;
      }
      assert P[0..] == P;
    }

    /** The timer part of updatePowerups. */
    method UpdatePowerups(dt: real)
      requires Paced(speed, maxSpeed)
      modifies this`hasSpeedBoost, this`speedBoostTime, this`hasSuperJump, this`superJumpTime, this`maxSpeed
      ensures Paced(speed, maxSpeed)
      ensures Boosted() == BoostTick(old(Boosted()), dt)
    {
      if hasSpeedBoost {
        speedBoostTime := speedBoostTime - dt;
        if speedBoostTime <= 0.0 {
          hasSpeedBoost := false;
          maxSpeed := BoostedMaxSpeed;
        }
      }
      if hasSuperJump {
        superJumpTime := superJumpTime - dt;
        if superJumpTime <= 0.0 {
          hasSuperJump := false;
        }
      }
    }

    /** endGame, without its display and restart-button plumbing. */
    method EndGame()
      modifies this`gameOver
      ensures gameOver
    {
      gameOver := true;
    }

    /** Ends the game on the first cube the ball touches, skipping ramps; stops there, so the
        game is ended at most once per check. Returns that obstacle's index, or -1. */
    method CheckObstacleCollisions() returns (hit: int)
      modifies this`gameOver
      ensures hit == FirstHit(ball, obstacles)
      ensures gameOver == (old(gameOver) || hit >= 0)
    {
      hit := -1;
      var i := 0;
      while i < |obstacles|
        invariant 0 <= i <= |obstacles|
        invariant hit == -1 && gameOver == old(gameOver)
        invariant FirstHit(ball, obstacles[..i]) == -1
      {
        var obstacle := obstacles[i];
        FirstHitScan(ball, obstacles, i);
        var touching := Touches(obstacle);
        if touching {
          EndGame();
          hit := i;
          break;
        }
        i := i + 1;
      }
      if hit == -1 {
        assert obstacles[..|obstacles|] == obstacles;
      }
    }

    /** The test checkObstacleCollisions applies to one obstacle: ramps are skipped, and a cube
        is hit when the ball is within reach horizontally and not clearly above it. */
    method Touches(obstacle: Obstacle) returns (touching: bool)
      ensures touching == Hits(ball, obstacle)
    {
      if obstacle.shape.Ramp? {
        return false;
      }
      var halfExtents := HalfExtents(obstacle);
      var dy := Lift(ball, obstacle);
      var threshold := Threshold(obstacle);
      var distanceSquared := HorizontalDistanceSquared(ball, obstacle);
      touching := distanceSquared < threshold * threshold && dy < halfExtents.y + Forgiveness;
    }

    /** The gameplay part of updateBall: the lateral forces for the held keys, the power-up
        timers, the fall check, the jump cooldown and ground contact, and the obstacle check. */
    method UpdateBall(dt: real, keys: Keys) returns (forces: seq<real>)
      requires Paced(speed, maxSpeed)
      modifies this`hasSpeedBoost, this`speedBoostTime, this`hasSuperJump, this`superJumpTime, this`maxSpeed
      modifies this`gameOver, this`canJump, this`jumpCooldown
      ensures Paced(speed, maxSpeed)
      ensures forces == LateralForces(keys, ball.x)
      ensures Boosted() == BoostTick(old(Boosted()), dt)
      ensures JumpGate(canJump, jumpCooldown) == Settle(JumpGate(old(canJump), old(jumpCooldown)), dt, ball.y)
      ensures gameOver == (old(gameOver) || ball.y < FallHeight || FirstHit(ball, obstacles) >= 0)
    {
      forces := LateralForces(keys, ball.x);
      UpdatePowerups(dt);
      if ball.y < FallHeight {
        EndGame();
      }
      SettleJump(dt);
      var hit := CheckObstacleCollisions();
    }

    /** The cooldown and ground-contact block of updateBall. */
    method SettleJump(dt: real)
      modifies this`canJump, this`jumpCooldown
      ensures JumpGate(canJump, jumpCooldown) == Settle(JumpGate(old(canJump), old(jumpCooldown)), dt, ball.y)
    {
      if !canJump {
        jumpCooldown := jumpCooldown - dt;
        if jumpCooldown <= 0.0 {
          canJump := true;
        }
      }
      var groundContact := ball.y <= GroundHeight;
      if groundContact {
        canJump := true;
      }
    }

    /** Adds the frame's points and ramps the speed up while it is below the cap. */
    method UpdateScore(dt: real)
      requires Paced(speed, maxSpeed)
      modifies this`score, this`speed
      ensures Paced(speed, maxSpeed)
      ensures score == old(score) + ScoreGain(old(speed), dt)
      ensures speed == NextSpeed(old(speed), maxSpeed, speedIncrement)
    {
      score := score + ScoreGain(speed, dt);
      if speed < maxSpeed {
        speed := speed + speedIncrement;
      }
    }

    /** jump(): returns the upward impulse and blocks jumping for the cooldown. */
    method Jump() returns (impulse: real)
      modifies this`canJump, this`jumpCooldown
      ensures impulse == Impulse(hasSuperJump)
      ensures JumpGate(canJump, jumpCooldown) == Jumped
    {
      impulse := if hasSuperJump then SuperJumpImpulse else JumpImpulse;
      canJump := false;
      jumpCooldown := JumpCooldown;
    }

    /** The guard every jump input goes through: jump only when jumping is allowed. */
    method RequestJump() returns (impulse: Option<real>)
      modifies this`canJump, this`jumpCooldown
      ensures old(canJump) ==> impulse == Some(Impulse(hasSuperJump)) && JumpGate(canJump, jumpCooldown) == Jumped
      ensures !old(canJump) ==> impulse == None && canJump == old(canJump) && jumpCooldown == old(jumpCooldown)
    {
      if canJump {
        var i := Jump();
        impulse := Some(i);
      } else {
        impulse := None;
      }
    }

    /** update(deltaTime): nothing happens once the game is over; otherwise the physics step
        (whose resulting ball position is `stepped`), then the track, the ball and the score. */
    method Update(dt: real, stepped: Vec3, keys: Keys, draws: seq<SpawnDraw>) returns (forces: seq<real>)
      requires Valid()
      requires |draws| == SegmentCount && ValidDraws(draws)
      modifies this`ball, this`trackSegments, this`obstacles, this`hasSpeedBoost, this`speedBoostTime
      modifies this`hasSuperJump, this`superJumpTime, this`maxSpeed, this`gameOver, this`canJump
      modifies this`jumpCooldown, this`score, this`speed
      ensures Valid()
      ensures old(gameOver) ==> forces == [] && unchanged(this)
      ensures !old(gameOver) ==> Advanced(dt, stepped, keys, draws, forces)
    {
      if gameOver {
        forces := [];
        return;
      }
      forces := Play(dt, stepped, keys, draws);
    }

    /** The body of update() for a game that is not over. */
    method Play(dt: real, stepped: Vec3, keys: Keys, draws: seq<SpawnDraw>) returns (forces: seq<real>)
      requires Valid() && !gameOver
      requires |draws| == SegmentCount && ValidDraws(draws)
      modifies this`ball, this`trackSegments, this`obstacles, this`hasSpeedBoost, this`speedBoostTime
      modifies this`hasSuperJump, this`superJumpTime, this`maxSpeed, this`gameOver, this`canJump
      modifies this`jumpCooldown, this`score, this`speed
      ensures Valid()
      ensures Advanced(dt, stepped, keys, draws, forces)
    {
      ball := stepped;
      UpdateTrack(dt, draws);
      forces := UpdateBall(dt, keys);
      UpdateScore(dt);
    }

    /** animate(time): stops the loop once the game is over; otherwise runs update with the
        frame time when the game has started. The frame time is the corrected FrameDelta. */
    method Animate(time: real, stepped: Vec3, keys: Keys, draws: seq<SpawnDraw>) returns (forces: seq<real>)
      requires Valid()
      requires |draws| == SegmentCount && ValidDraws(draws)
      modifies this`ball, this`trackSegments, this`obstacles, this`hasSpeedBoost, this`speedBoostTime
      modifies this`hasSuperJump, this`superJumpTime, this`maxSpeed, this`gameOver, this`canJump
      modifies this`jumpCooldown, this`score, this`speed, this`animating, this`lastTime
      ensures Valid()
      ensures old(gameOver) ==> !animating && forces == [] && lastTime == old(lastTime)
      ensures !old(gameOver) ==> animating && lastTime == time
      ensures old(gameOver) || !old(gameStarted) ==>
        unchanged(this`ball, this`trackSegments, this`obstacles, this`hasSpeedBoost, this`speedBoostTime) &&
        unchanged(this`hasSuperJump, this`superJumpTime, this`maxSpeed, this`gameOver, this`canJump) &&
        unchanged(this`jumpCooldown, this`score, this`speed)
      ensures !old(gameOver) && !old(gameStarted) ==> forces == []
      ensures !old(gameOver) && old(gameStarted) ==>
        && 0.0 <= FrameDelta(time, old(lastTime)) <= MaxFrame
        && Advanced(FrameDelta(time, old(lastTime)), stepped, keys, draws, forces)
        && score >= old(score)
    {
      if gameOver {
        animating := false;
        forces := [];
        return;
      }
      animating := true;
      var dt := FrameDelta(time, lastTime);
      lastTime := time;
      if gameStarted {
        forces := Update(dt, stepped, keys, draws);
      } else {
        forces := [];
      }
    }

    /** restart(): a fresh run with score 0 and speed 22 on a rebuilt initial track, the ball
        back at its start. The jump gate, the speed cap and the power-ups are left as they are.
        When the loop had stopped it is marked running again with `now` (the wall clock) as the
        last frame time; the source then calls animate() once with time 0. */
    method Restart(now: real, draws: seq<SpawnDraw>) returns (resumed: bool)
      requires Valid()
      requires |draws| == SegmentCount && ValidDraws(draws)
      modifies this`gameOver, this`gameStarted, this`score, this`speed, this`trackSegments
      modifies this`obstacles, this`ball, this`animating, this`lastTime
      ensures Valid()
      ensures !gameOver && gameStarted && score == 0 && speed == RestartSpeed
      ensures trackSegments == Run(0.0, SegmentCount) && obstacles == InitialObstacles(draws, |draws|)
      ensures ball == Vec3(0.0, BallRadius, 0.0)
      ensures resumed == !old(animating) && animating
      ensures lastTime == if resumed then now else old(lastTime)
    {
      ResetRun();
      ball := Vec3(0.0, BallRadius, 0.0);
      RebuildTrack(draws);
      resumed := ResumeLoop(now);
    }

    /** The run-state block of restart(). */
    method ResetRun()
      modifies this`gameOver, this`gameStarted, this`score, this`speed
      ensures !gameOver && gameStarted && score == 0 && speed == RestartSpeed
    {
      gameOver := false;
      gameStarted := true;
      score := 0;
      speed := RestartSpeed;
    }

    /** The last block of restart(): a stopped loop is marked running again, with `now` as the
        last frame time. */
    method ResumeLoop(now: real) returns (resumed: bool)
      modifies this`animating, this`lastTime
      ensures resumed == !old(animating) && animating
      ensures lastTime == if resumed then now else old(lastTime)
    {
      resumed := !animating;
      if resumed {
        animating := true;
        lastTime := now;
      }
    }

    /** startGame(). */
    method StartGame()
      modifies this`gameStarted
      ensures gameStarted
    {
      gameStarted := true;
    }
  }
}
