/** The locomotion controller of src/Loader.js (`updateCamera`): two velocity
    channels driven by the held-key flags. While a channel's magnitude is within
    its clamp, a held key accelerates it by increment * elapsedTime (forward
    before backward, left before right); otherwise, or with no key held, it
    decays by the factor 0.8. `elapsedTime` is whatever the caller passes: the
    source passes the total time since its clock started. */
module Locomotion {
  import opened Common
  import opened Controls

  const VerticalClamp: real := 0.5
  const VerticalIncrement: real := 0.0005
  const RotationClamp: real := 0.05
  const RotationIncrement: real := 0.00005
  const Damping: real := 0.8

  /** verticalVelocity drives the camera along its up axis; rotationVelocity
      turns the island about the world up axis. */
  datatype Velocity = Velocity(vertical: real, rotation: real)

  /** Both velocities start at 0.0. */
  const AtRest: Velocity := Velocity(0.0, 0.0)

  /** One channel of updateCamera; `positive` is the key checked first. */
  function ChannelStep(v: real, positive: bool, negative: bool, clamp: real, increment: real,
                       elapsed: real): real
  {
    if clamp >= Abs(v) then
      if positive then v + increment * elapsed
      else if negative then v - increment * elapsed
      else v * Damping
    else
      v * Damping
  }

  /** updateCamera: the vertical channel reads forward/backward, the rotational
      channel reads left/right. */
  function UpdateCamera(vel: Velocity, keys: KeyState, elapsed: real): (r: Velocity)
    // vertical channel: forward has precedence over backward
    ensures Abs(vel.vertical) <= VerticalClamp && keys.forward ==>
              r.vertical == vel.vertical + VerticalIncrement * elapsed
    ensures Abs(vel.vertical) <= VerticalClamp && !keys.forward && keys.backward ==>
              r.vertical == vel.vertical - VerticalIncrement * elapsed
    ensures Abs(vel.vertical) > VerticalClamp || (!keys.forward && !keys.backward) ==>
              r.vertical == Damping * vel.vertical
    // rotational channel: left has precedence over right
    ensures Abs(vel.rotation) <= RotationClamp && keys.left ==>
              r.rotation == vel.rotation + RotationIncrement * elapsed
    ensures Abs(vel.rotation) <= RotationClamp && !keys.left && keys.right ==>
              r.rotation == vel.rotation - RotationIncrement * elapsed
    ensures Abs(vel.rotation) > RotationClamp || (!keys.left && !keys.right) ==>
              r.rotation == Damping * vel.rotation
  {
    Velocity(
      ChannelStep(vel.vertical, keys.forward, keys.backward, VerticalClamp, VerticalIncrement, elapsed),
      ChannelStep(vel.rotation, keys.left, keys.right, RotationClamp, RotationIncrement, elapsed))
  }

  /** The channels are independent: the vertical result depends only on the
      vertical velocity and forward/backward, the rotational result only on the
      rotational velocity and left/right. */
  lemma ChannelsIndependent(v1: Velocity, k1: KeyState, v2: Velocity, k2: KeyState, elapsed: real)
    ensures v1.vertical == v2.vertical && k1.forward == k2.forward && k1.backward == k2.backward ==>
              UpdateCamera(v1, k1, elapsed).vertical == UpdateCamera(v2, k2, elapsed).vertical
    ensures v1.rotation == v2.rotation && k1.left == k2.left && k1.right == k2.right ==>
              UpdateCamera(v1, k1, elapsed).rotation == UpdateCamera(v2, k2, elapsed).rotation
  {
  }

  /** Decay keeps the sign and strictly shrinks every non-zero velocity. */
  lemma DecayShrinks(v: real)
    ensures v > 0.0 ==> 0.0 < Damping * v < v
    ensures v < 0.0 ==> v < Damping * v < 0.0
    ensures Abs(Damping * v) <= Abs(v)
    ensures Abs(Damping * v) == Abs(v) <==> v == 0.0
  {
  }

  /** The clamp is tested before the increment is added, so it is not a hard
      ceiling: at any positive elapsed time, a channel exactly at its clamp
      with its key held ends past it by the increment times that time. */
  lemma ClampIsNotACeiling(t: real)
    requires 0.0 < t
    ensures var r := UpdateCamera(Velocity(VerticalClamp, RotationClamp), KeyState(true, true, false, false), t);
            r.vertical == VerticalClamp + VerticalIncrement * t > VerticalClamp
            && r.rotation == RotationClamp + RotationIncrement * t > RotationClamp
  {
  }

  // ---------------------------------------------------------------------------
  // Runs of frames

  /** One animation frame: the keys held and the elapsed time passed in. */
  datatype Frame = Frame(keys: KeyState, elapsed: real)

  /** The velocity after the frames, in order. */
  function Run(vel: Velocity, frames: seq<Frame>): Velocity
    decreases |frames|
  {
    if frames == [] then vel
    else Run(UpdateCamera(vel, frames[0].keys, frames[0].elapsed), frames[1..])
  }

  /** Clock readings that never go backwards, starting no earlier than `t0`. */
  predicate ClockFrom(t0: real, frames: seq<Frame>)
    decreases |frames|
  {
    frames == [] || (t0 <= frames[0].elapsed && ClockFrom(frames[0].elapsed, frames[1..]))
  }

  /** The last clock reading of the run (`t0` if there is none). */
  function LastTime(t0: real, frames: seq<Frame>): real
    decreases |frames|
  {
    if frames == [] then t0 else LastTime(frames[0].elapsed, frames[1..])
  }

  /** The magnitudes reachable by time `t`: the clamp plus one increment. */
  predicate WithinReach(vel: Velocity, t: real) {
    && Abs(vel.vertical) <= VerticalClamp + VerticalIncrement * t
    && Abs(vel.rotation) <= RotationClamp + RotationIncrement * t
  }

  lemma StepWithinReach(vel: Velocity, keys: KeyState, t0: real, t: real)
    requires 0.0 <= t0 <= t
    requires WithinReach(vel, t0)
    ensures WithinReach(UpdateCamera(vel, keys, t), t)
  {
    DecayShrinks(vel.vertical);
    DecayShrinks(vel.rotation);
  }

  /** Under a clock that never runs backwards, each channel overshoots its clamp
      by at most one increment at the latest clock reading. */
  lemma {:induction false} RunWithinReach(vel: Velocity, t0: real, frames: seq<Frame>)
    requires 0.0 <= t0
    requires ClockFrom(t0, frames)
    requires WithinReach(vel, t0)
    ensures WithinReach(Run(vel, frames), LastTime(t0, frames))
    decreases |frames|
  {
    if frames != [] {
      var f := frames[0];
      StepWithinReach(vel, f.keys, t0, f.elapsed);
      RunWithinReach(UpdateCamera(vel, f.keys, f.elapsed), f.elapsed, frames[1..]);
    }
  }

  /** From rest at clock zero, the velocities never exceed the clamp by more than
      the increment scaled by the latest clock reading. */
  lemma RunFromRestWithinReach(frames: seq<Frame>)
    requires ClockFrom(0.0, frames)
    ensures WithinReach(Run(AtRest, frames), LastTime(0.0, frames))
  {
    RunWithinReach(AtRest, 0.0, frames);
  }

  function Power(b: real, n: nat): real {
    if n == 0 then 1.0 else b * Power(b, n - 1)
  }

  predicate AllReleased(frames: seq<Frame>) {
    forall i :: 0 <= i < |frames| ==> frames[i].keys == Released
  }

  /** With every key released, each frame multiplies both velocities by 0.8,
      whatever the clock says: after n frames they are scaled by 0.8^n. */
  lemma {:induction false} ReleasedRunDecays(vel: Velocity, frames: seq<Frame>)
    requires AllReleased(frames)
    ensures Run(vel, frames) ==
              Velocity(vel.vertical * Power(Damping, |frames|), vel.rotation * Power(Damping, |frames|))
    decreases |frames|
  {
    if frames != [] {
      var next := UpdateCamera(vel, frames[0].keys, frames[0].elapsed);
      assert next == Velocity(Damping * vel.vertical, Damping * vel.rotation);
      ReleasedRunDecays(next, frames[1..]);
      var p := Power(Damping, |frames| - 1);
      assert (Damping * vel.vertical) * p == vel.vertical * (Damping * p);
      assert (Damping * vel.rotation) * p == vel.rotation * (Damping * p);
    }
  }

  lemma {:induction false} PowerPositive(b: real, n: nat)
    requires 0.0 < b
    ensures 0.0 < Power(b, n)
  {
    if n > 0 {
      PowerPositive(b, n - 1);
    }
  }

  /** Decay approaches zero but never reaches it: a moving channel keeps its
      sign through any number of released frames. */
  lemma ReleasedRunNeverStops(vel: Velocity, frames: seq<Frame>)
    requires AllReleased(frames)
    ensures vel.vertical > 0.0 <==> Run(vel, frames).vertical > 0.0
    ensures vel.vertical < 0.0 <==> Run(vel, frames).vertical < 0.0
    ensures vel.rotation > 0.0 <==> Run(vel, frames).rotation > 0.0
    ensures vel.rotation < 0.0 <==> Run(vel, frames).rotation < 0.0
  {
    ReleasedRunDecays(vel, frames);
    PowerPositive(Damping, |frames|);
  }
}
