/** The score and difficulty curve, and the frame time the animation loop feeds them. */
module Scoring {
  import opened Space

  /** Speed at construction, and the speed restart() sets (the two differ in the game). */
  const InitialSpeed: real := 20.0
  const RestartSpeed: real := 22.0

  /** Speed cap at construction, and the cap the expiring speed boost sets. */
  const MaxSpeed: real := 65.0
  const BoostedMaxSpeed: real := 70.0

  /** Speed added per frame while below the cap. */
  const SpeedIncrement: real := 0.025

  /** Points per unit of distance. */
  const ScoreMultiplier: real := 10.0

  /** Longest frame the animation loop passes on, in seconds. */
  const MaxFrame: real := 0.1

  /** The power-up timers and the speed cap they touch. Nothing in the game switches a power-up
      on, so both stay off and the timers never run. */
  datatype Boosts = Boosts(hasSpeedBoost: bool, speedBoostTime: real, hasSuperJump: bool, superJumpTime: real, maxSpeed: real)

  /** The timer part of updatePowerups: an active power-up runs down and switches off when its
      time is up; the speed boost then sets the cap to 70, whatever it was. */
  function BoostTick(b: Boosts, dt: real): (r: Boosts)
    ensures !b.hasSpeedBoost && !b.hasSuperJump ==> r == b
    ensures r.maxSpeed == b.maxSpeed || r.maxSpeed == BoostedMaxSpeed
    ensures r.hasSpeedBoost ==> b.hasSpeedBoost && r.speedBoostTime > 0.0
    ensures r.hasSuperJump ==> b.hasSuperJump && r.superJumpTime > 0.0
    ensures b.hasSpeedBoost && !r.hasSpeedBoost ==> r.maxSpeed == BoostedMaxSpeed
  {
    var speedBoostTime := if b.hasSpeedBoost then b.speedBoostTime - dt else b.speedBoostTime;
    var boostEnds := b.hasSpeedBoost && speedBoostTime <= 0.0;
    var superJumpTime := if b.hasSuperJump then b.superJumpTime - dt else b.superJumpTime;
    var superEnds := b.hasSuperJump && superJumpTime <= 0.0;
    Boosts(b.hasSpeedBoost && !boostEnds, speedBoostTime,
           b.hasSuperJump && !superEnds, superJumpTime,
           if boostEnds then BoostedMaxSpeed else b.maxSpeed)
  }

  /** Points one frame of `dt` seconds at `speed` adds: Math.floor(speed * dt * 10), the
      largest integer not above the distance-based amount. */
  function ScoreGain(speed: real, dt: real): (g: int)
    ensures g as real <= speed * dt * ScoreMultiplier < g as real + 1.0
    ensures speed >= 0.0 && dt >= 0.0 ==> g >= 0
  {
    (speed * dt * ScoreMultiplier).Floor
  }

  /** A frame at top speed with the longest allowed frame time scores the floor of the top speed. */
  lemma TopSpeedFrame()
    ensures ScoreGain(MaxSpeed, MaxFrame) == 65
    ensures ScoreGain(BoostedMaxSpeed, MaxFrame) == 70
  {
  }

  /** The speed invariant the game keeps: at least the initial speed, at most one increment
      above the cap, and the cap is the normal or the boosted one. */
  predicate Paced(speed: real, maxSpeed: real)
  {
    && InitialSpeed <= speed <= maxSpeed + SpeedIncrement
    && (maxSpeed == MaxSpeed || maxSpeed == BoostedMaxSpeed)
  }

  /** The speed after one frame: one increment while below the cap. It never decreases, holds
      once the cap is reached, and never overshoots the cap by more than one increment. */
  function NextSpeed(speed: real, cap: real, increment: real): (r: real)
    requires increment >= 0.0
    ensures r >= speed
    ensures speed >= cap ==> r == speed
    ensures speed <= cap + increment ==> r <= cap + increment
    ensures speed < cap ==> r == speed + increment
  {
    if speed < cap then speed + increment else speed
  }

  /** `k` frames of the ramp from `speed`. */
  function Ramp(speed: real, cap: real, increment: real, k: nat): real
    requires increment >= 0.0
  {
    if k == 0 then speed else NextSpeed(Ramp(speed, cap, increment, k - 1), cap, increment)
  }

  /** Over any number of frames the speed stays between where it started and the cap plus one
      increment, and it has climbed by one increment per frame until it reaches the cap. */
  lemma {:induction false} RampBounds(speed: real, cap: real, increment: real, k: nat)
    requires increment >= 0.0
    requires speed <= cap + increment
    ensures speed <= Ramp(speed, cap, increment, k) <= cap + increment
    ensures speed + increment * (k as real) < cap ==> Ramp(speed, cap, increment, k) == speed + increment * (k as real)
  {
    if k > 0 {
      RampBounds(speed, cap, increment, k - 1);
      var before := Ramp(speed, cap, increment, k - 1);
      if speed + increment * (k as real) < cap {
        var climbed := increment * ((k - 1) as real);
        OneMoreStep(increment, k);
        assert climbed <= increment * (k as real);
        assert speed + climbed < cap;
        assert before == speed + climbed;
        assert before < cap;
        assert Ramp(speed, cap, increment, k) == before + increment;
      }
    }
  }

  /** `k` increments are `k - 1` increments and one more. */
  lemma OneMoreStep(increment: real, k: nat)
    requires k > 0
    requires increment >= 0.0
    ensures increment * (k as real) == increment * ((k - 1) as real) + increment
    ensures increment * ((k - 1) as real) <= increment * (k as real)
  {
  }

  /** Frame time as animate() computes it from animation timestamps in milliseconds: capped
      above at 0.1 s, with no lower bound. */
  function FrameDeltaAsWritten(time: real, lastTime: real): (dt: real)
    ensures dt <= MaxFrame
    ensures (time - lastTime) / 1000.0 <= MaxFrame ==> dt == (time - lastTime) / 1000.0
  {
    Min((time - lastTime) / 1000.0, MaxFrame)
  }

  /** restart() on a stopped loop sets lastTime to the wall clock and then calls animate() with
      its default time of 0, so the first frame after a restart has a negative duration of the
      whole wall-clock time, and the score drops by about ten times that many seconds' distance. */
  lemma RestartFrameGoesBackwards(now: real)
    requires now >= 1000.0
    ensures FrameDeltaAsWritten(0.0, now) == -now / 1000.0
    ensures ScoreGain(RestartSpeed, FrameDeltaAsWritten(0.0, now)) < 0
  {
    assert -now / 1000.0 <= -1.0;
  }

  /** Frame time as the cap evidently intends it: within [0, 0.1], and equal to the elapsed
      time whenever that already lies in that range. */
  function FrameDelta(time: real, lastTime: real): (dt: real)
    ensures 0.0 <= dt <= MaxFrame
    ensures 0.0 <= (time - lastTime) / 1000.0 <= MaxFrame ==> dt == (time - lastTime) / 1000.0
  {
    Max(0.0, FrameDeltaAsWritten(time, lastTime))
  }

  /** With the corrected frame time no frame lowers the score. */
  lemma ScoreNeverDrops(speed: real, time: real, lastTime: real)
    requires speed >= 0.0
    ensures ScoreGain(speed, FrameDelta(time, lastTime)) >= 0
  {
  }
}
