/** The scalar rules that `updateUniformBuffer` applies once per frame in the
    two first-person variants of the simulator (SolarSimulator and MeshLoader):
    ship velocity, the three rotation accumulators, the simulation speed and
    clock, and the shared P/I key latch. Both variants use the same rules except
    for the speed keys, which are level-triggered in SolarSimulator and
    edge-triggered in MeshLoader. Values are `real`: the float rounding of the
    source is not modelled. */
module FrameRules {
  import opened Graphics

  /** A glm::vec3 read from the six-axis controller. */
  datatype Vec3 = Vec3(x: real, y: real, z: real)

  /** The keys `updateUniformBuffer` polls. `faster`/`slower` are M/N in
      SolarSimulator and '='/'-' in MeshLoader. */
  datatype Keys = Keys(printKey: bool, resetKey: bool, faster: bool, slower: bool, escape: bool)

  function Abs(x: real): real
  {
    if x < 0.0 then -x else x
  }

  /** The value of `x` nearest to it inside [lo, hi]. */
  function Clamp(x: real, lo: real, hi: real): (r: real)
    requires lo <= hi
    ensures lo <= r <= hi
    ensures lo <= x <= hi ==> r == x
    ensures x < lo ==> r == lo
    ensures x > hi ==> r == hi
  {
    if x > hi then hi else if x < lo then lo else x
  }

  // ---------------------------------------------------------------------------
  // Ship velocity
  // ---------------------------------------------------------------------------

  const VEL_MIN: real := -5.0
  const VEL_MAX: real := 5.0
  const ACC: real := 0.05
  const DEAD_ZONE: real := 0.25
  const NUDGE: real := 0.001

  predicate InVelocityRange(v: real)
  {
    VEL_MIN <= v <= VEL_MAX
  }

  /** Integrate forward input `mz` while the velocity is inside its bounds,
      then clamp. */
  function Accelerate(vel: real, mz: real): (v: real)
    ensures mz == 0.0 || !InVelocityRange(vel) ==> v == vel
    ensures mz != 0.0 && InVelocityRange(vel) ==> v == Clamp(vel + mz * ACC, VEL_MIN, VEL_MAX)
  {
    if mz != 0.0 && vel >= VEL_MIN && vel <= VEL_MAX then
      var v1 := vel + mz * ACC;
      var v2 := if v1 > VEL_MAX then VEL_MAX else v1;
      if v2 < VEL_MIN then VEL_MIN else v2
    else
      vel
  }

  /** The dead-zone nudge: two consecutive ifs, the first adding NUDGE to a
      negative velocity and the second subtracting it from a positive one. */
  function Nudge(vel: real): real
  {
    if vel > -DEAD_ZONE && vel < DEAD_ZONE then
      var v1 := if vel < 0.0 then vel + NUDGE else vel;
      if v1 > 0.0 then v1 - NUDGE else v1
    else
      vel
  }

  /** One frame of the velocity rule. Outside the dead zone a velocity without
      input is kept; inside it moves NUDGE toward zero, except that a velocity in
      (-NUDGE, 0) is pushed over zero by the first if and back by the second, so
      it stays where it is. */
  function VelocityStep(vel: real, mz: real): (v: real)
    ensures InVelocityRange(vel) ==> InVelocityRange(v)
    ensures var a := Accelerate(vel, mz); Abs(a) >= DEAD_ZONE ==> v == a
    ensures var a := Accelerate(vel, mz); 0.0 < a < DEAD_ZONE ==> v == a - NUDGE
    ensures var a := Accelerate(vel, mz); -DEAD_ZONE < a <= -NUDGE ==> v == a + NUDGE
    ensures var a := Accelerate(vel, mz); -NUDGE < a <= 0.0 ==> v == a
  {
    Nudge(Accelerate(vel, mz))
  }

  /** The velocity update: integrate and clamp, then the dead-zone nudge. */
  method UpdateVelocity(vel: real, mz: real) returns (v: real)
    ensures v == VelocityStep(vel, mz)
  {
    v := vel;
    if mz != 0.0 && v >= VEL_MIN && v <= VEL_MAX {
      v := v + mz * ACC;
      if v > VEL_MAX { v := VEL_MAX; }
      if v < VEL_MIN { v := VEL_MIN; }
    }
    if v > -DEAD_ZONE && v < DEAD_ZONE {
      if v < 0.0 { v := v + NUDGE; }
      if v > 0.0 { v := v - NUDGE; }
    }
  }

  /** `n` frames without forward input. */
  function VelocityIdle(vel: real, n: nat): real
    decreases n
  {
    if n == 0 then vel else VelocityIdle(VelocityStep(vel, 0.0), n - 1)
  }

  /** Without input, a velocity of k * NUDGE (either sign) inside the dead zone
      reaches exactly zero after k frames. */
  lemma {:induction false} VelocitySettles(k: nat)
    requires (k as real) * NUDGE < DEAD_ZONE
    ensures VelocityIdle((k as real) * NUDGE, k) == 0.0
    ensures VelocityIdle(-((k as real) * NUDGE), k) == 0.0
  {
    if k > 0 {
      var v := (k as real) * NUDGE;
      assert VelocityStep(v, 0.0) == ((k - 1) as real) * NUDGE;
      assert VelocityStep(-v, 0.0) == -(((k - 1) as real) * NUDGE);
      VelocitySettles(k - 1);
    }
  }

  /** Without input, a velocity in (-NUDGE, 0) never changes again. */
  lemma {:induction false} VelocityStuck(vel: real, n: nat)
    requires -NUDGE < vel < 0.0
    ensures VelocityIdle(vel, n) == vel
  {
    if n > 0 {
      VelocityStuck(VelocityStep(vel, 0.0), n - 1);
    }
  }

  // ---------------------------------------------------------------------------
  // Rotation accumulators (x_rot, y_rot, z_rot)
  // ---------------------------------------------------------------------------

  const ROT_AMOUNT: real := 0.01
  const ROT_LIMIT: real := 1.0
  const SNAP: real := 0.001

  /** An accumulator integrates input only while the input is nonzero and the
      accumulator is strictly inside (-ROT_LIMIT, ROT_LIMIT). */
  predicate Integrating(acc: real, input: real)
  {
    input != 0.0 && -ROT_LIMIT < acc < ROT_LIMIT
  }

  /** Exactly zero, or at least SNAP away from it. */
  predicate Settled(acc: real)
  {
    acc == 0.0 || Abs(acc) >= SNAP
  }

  /** One frame of one accumulator: integrate, otherwise decay by ROT_AMOUNT
      toward zero, then snap values inside (-SNAP, SNAP) to zero. */
  function RotationStep(acc: real, input: real): (a: real)
    ensures Settled(a)
    ensures Integrating(acc, input) ==>
              a == acc + ROT_AMOUNT * input || (a == 0.0 && Abs(acc + ROT_AMOUNT * input) < SNAP)
    ensures !Integrating(acc, input) && acc >= ROT_AMOUNT + SNAP ==> a == acc - ROT_AMOUNT
    ensures !Integrating(acc, input) && acc <= -(ROT_AMOUNT + SNAP) ==> a == acc + ROT_AMOUNT
    ensures !Integrating(acc, input) && acc > 0.0 ==>
              a == acc - ROT_AMOUNT || (a == 0.0 && Abs(acc - ROT_AMOUNT) < SNAP)
    ensures !Integrating(acc, input) && acc < 0.0 ==>
              a == acc + ROT_AMOUNT || (a == 0.0 && Abs(acc + ROT_AMOUNT) < SNAP)
    ensures acc == 0.0 && input == 0.0 ==> a == 0.0
    ensures -1.0 <= input <= 1.0 && Abs(acc) < ROT_LIMIT + ROT_AMOUNT ==> Abs(a) < ROT_LIMIT + ROT_AMOUNT
  {
    var a1 :=
      if input != 0.0 && acc > -ROT_LIMIT && acc < ROT_LIMIT then acc + ROT_AMOUNT * input
      else if acc > 0.0 then acc - ROT_AMOUNT
      else if acc < 0.0 then acc + ROT_AMOUNT
      else acc;
    if a1 > -SNAP && a1 < SNAP then 0.0 else a1
  }

  /** The integration step of one rotation accumulator: the if / else-if chain
      followed by the snap to zero. */
  method UpdateAxis(acc: real, input: real) returns (a: real)
    ensures a == RotationStep(acc, input)
  {
    a := acc;
    if input != 0.0 && a > -ROT_LIMIT && a < ROT_LIMIT {
      a := a + ROT_AMOUNT * input;
    } else if a > 0.0 {
      a := a - ROT_AMOUNT;
    } else if a < 0.0 {
      a := a + ROT_AMOUNT;
    }
    if a > -SNAP && a < SNAP {
      a := 0.0;
    }
  }

  /** `n` frames without rotation input. */
  function RotationIdle(acc: real, n: nat): real
    decreases n
  {
    if n == 0 then acc else RotationIdle(RotationStep(acc, 0.0), n - 1)
  }

  /** Without input, an accumulator of k * ROT_AMOUNT (either sign) reaches
      exactly zero after k frames. */
  lemma {:induction false} RotationSettles(k: nat)
    ensures RotationIdle((k as real) * ROT_AMOUNT, k) == 0.0
    ensures RotationIdle(-((k as real) * ROT_AMOUNT), k) == 0.0
  {
    if k > 0 {
      var a := (k as real) * ROT_AMOUNT;
      assert RotationStep(a, 0.0) == ((k - 1) as real) * ROT_AMOUNT;
      assert RotationStep(-a, 0.0) == -(((k - 1) as real) * ROT_AMOUNT);
      RotationSettles(k - 1);
    }
  }

  /** Without input, an accumulator in [SNAP, ROT_AMOUNT - SNAP] overshoots zero
      by the decay step, lands outside the snap band, and comes back: it
      alternates between `acc` and `acc - ROT_AMOUNT` for ever. */
  lemma {:induction false} RotationOscillates(acc: real, n: nat)
    requires SNAP <= acc <= ROT_AMOUNT - SNAP
    ensures RotationIdle(acc, 2 * n) == acc
    ensures RotationIdle(acc, 2 * n + 1) == acc - ROT_AMOUNT != 0.0
  {
    assert RotationStep(acc, 0.0) == acc - ROT_AMOUNT;
    assert RotationStep(acc - ROT_AMOUNT, 0.0) == acc;
    if n > 0 {
      calc {
        RotationIdle(acc, 2 * n);
        RotationIdle(acc - ROT_AMOUNT, 2 * n - 1);
        RotationIdle(acc, 2 * (n - 1));
      }
      RotationOscillates(acc, n - 1);
    }
  }

  // ---------------------------------------------------------------------------
  // Simulation speed and clock
  // ---------------------------------------------------------------------------

  const INITIAL_SPEED: real := 0.75
  const SPEED_STEP: real := 0.05
  const MIN_SPEED: real := 0.1
  const MAX_SPEED: real := 3.0

  predicate InSpeedRange(s: real)
  {
    MIN_SPEED <= s <= MAX_SPEED
  }

  /** `glm::min` */
  function Min(a: real, b: real): real
  {
    if b < a then b else a
  }

  /** `glm::max` */
  function Max(a: real, b: real): real
  {
    if a < b then b else a
  }

  /** The level-triggered speed keys: every frame the faster key is down the
      speed goes one step up (saturating at MAX_SPEED); otherwise every frame the
      slower key is down it goes one step down (saturating at MIN_SPEED). */
  function SpeedLevel(s: real, faster: bool, slower: bool): (r: real)
    ensures InSpeedRange(s) ==> InSpeedRange(r)
    ensures !faster && !slower ==> r == s
    ensures faster && s + SPEED_STEP <= MAX_SPEED ==> r == s + SPEED_STEP
    ensures faster && s + SPEED_STEP > MAX_SPEED ==> r == MAX_SPEED
    ensures faster ==> r <= MAX_SPEED && (s <= MAX_SPEED ==> s <= r)
    ensures faster && s == MAX_SPEED ==> r == s
    ensures !faster && slower && s - SPEED_STEP >= MIN_SPEED ==> r == s - SPEED_STEP
    ensures !faster && slower && s - SPEED_STEP < MIN_SPEED ==> r == MIN_SPEED
    ensures !faster && slower ==> r >= MIN_SPEED && (s >= MIN_SPEED ==> r <= s)
    ensures !faster && slower && s == MIN_SPEED ==> r == s
  {
    if faster then Min(s + SPEED_STEP, MAX_SPEED)
    else if slower then Max(s - SPEED_STEP, MIN_SPEED)
    else s
  }

  /** The edge-triggered speed keys of MeshLoader: `keyPressed` is the
      `speedKeyPressed` latch. */
  datatype SpeedControl = SpeedControl(speed: real, keyPressed: bool)

  /** One frame of the edge-triggered rule. The latch ends up set exactly when a
      speed key is down; the speed changes only on a frame where the latch was
      clear, and then as the level-triggered rule would change it. */
  function SpeedEdge(c: SpeedControl, faster: bool, slower: bool): (r: SpeedControl)
    ensures r.keyPressed == (faster || slower)
    ensures c.keyPressed ==> r.speed == c.speed
    ensures !c.keyPressed ==> r.speed == SpeedLevel(c.speed, faster, slower)
    ensures InSpeedRange(c.speed) ==> InSpeedRange(r.speed)
  {
    if faster then
      (if !c.keyPressed then SpeedControl(Min(c.speed + SPEED_STEP, MAX_SPEED), true) else c)
    else if slower then
      (if !c.keyPressed then SpeedControl(Max(c.speed - SPEED_STEP, MIN_SPEED), true) else c)
    else
      c.(keyPressed := false)
  }

  /** The speed keys over several frames: (faster, slower) per frame. */
  datatype SpeedKeys = SpeedKeys(faster: bool, slower: bool)

  function SpeedEdgeRun(c: SpeedControl, frames: seq<SpeedKeys>): SpeedControl
    decreases |frames|
  {
    if frames == [] then c
    else SpeedEdgeRun(SpeedEdge(c, frames[0].faster, frames[0].slower), frames[1..])
  }

  /** While some speed key stays down, the speed changes at most once: on the
      first frame, and only if the latch was clear. */
  lemma {:induction false} SpeedChangesOncePerHold(c: SpeedControl, frames: seq<SpeedKeys>)
    requires frames != []
    requires forall k :: 0 <= k < |frames| ==> frames[k].faster || frames[k].slower
    ensures SpeedEdgeRun(c, frames).keyPressed
    ensures SpeedEdgeRun(c, frames).speed ==
              if c.keyPressed then c.speed else SpeedLevel(c.speed, frames[0].faster, frames[0].slower)
    decreases |frames|
  {
    var c1 := SpeedEdge(c, frames[0].faster, frames[0].slower);
    if |frames| > 1 {
      SpeedChangesOncePerHold(c1, frames[1..]);
    }
  }

  /** `accumulatedTime += deltaT * speedMultiplier` */
  function Advance(time: real, deltaT: real, speed: real): (t: real)
    ensures deltaT >= 0.0 && speed >= 0.0 ==> t >= time
    ensures deltaT > 0.0 && speed > 0.0 ==> t > time
    ensures deltaT == 0.0 ==> t == time
  {
    time + deltaT * speed
  }

  /** One frame of the level-triggered clock: the speed keys first, then the
      clock advances at the new speed. */
  datatype Clock = Clock(time: real, speed: real)

  datatype Tick = Tick(deltaT: real, faster: bool, slower: bool)

  function ClockRun(c: Clock, ticks: seq<Tick>): Clock
    decreases |ticks|
  {
    if ticks == [] then c
    else
      var s := SpeedLevel(c.speed, ticks[0].faster, ticks[0].slower);
      ClockRun(Clock(Advance(c.time, ticks[0].deltaT, s), s), ticks[1..])
  }

  /** From a speed in range, any sequence of frames with non-negative deltaT keeps
      the speed in [MIN_SPEED, MAX_SPEED] and never moves the clock backward. */
  lemma {:induction false} ClockMonotone(c: Clock, ticks: seq<Tick>)
    requires InSpeedRange(c.speed)
    requires forall k :: 0 <= k < |ticks| ==> ticks[k].deltaT >= 0.0
    ensures InSpeedRange(ClockRun(c, ticks).speed)
    ensures ClockRun(c, ticks).time >= c.time
    decreases |ticks|
  {
    if ticks != [] {
      var s := SpeedLevel(c.speed, ticks[0].faster, ticks[0].slower);
      ClockMonotone(Clock(Advance(c.time, ticks[0].deltaT, s), s), ticks[1..]);
    }
  }

  // ---------------------------------------------------------------------------
  // The P (print) / I (reset) key latch: `debounce` and `curDebounce`
  // ---------------------------------------------------------------------------

  const GLFW_KEY_I: int := 73
  const GLFW_KEY_P: int := 80

  datatype Debounce = Debounce(active: bool, key: int)

  const RELEASED: Debounce := Debounce(false, 0)

  /** `debounce` holds exactly when `curDebounce` records a key, and the key is P or I. */
  predicate DebounceValid(d: Debounce)
  {
    (d.active <==> d.key != 0) && (d.key == 0 || d.key == GLFW_KEY_P || d.key == GLFW_KEY_I)
  }

  /** The new latch and which action fired. */
  datatype KeyActions = KeyActions(state: Debounce, printFired: bool, resetFired: bool)

  /** The P block followed by the I block of one frame. */
  function DebounceStep(d: Debounce, printHeld: bool, resetHeld: bool): (r: KeyActions)
    ensures DebounceValid(d) ==> DebounceValid(r.state)
    ensures !(r.printFired && r.resetFired)
    ensures r.printFired <==> printHeld && !d.active
    ensures r.resetFired <==> resetHeld && !printHeld && (!d.active || d.key == GLFW_KEY_P)
    ensures r.printFired ==> r.state == Debounce(true, GLFW_KEY_P)
    ensures r.resetFired ==> r.state == Debounce(true, GLFW_KEY_I)
    ensures d.active && !r.state.active ==>
              (d.key == GLFW_KEY_P && !printHeld) || (d.key == GLFW_KEY_I && !resetHeld)
    ensures d.active && d.key == GLFW_KEY_P && printHeld ==> r == KeyActions(d, false, false)
    ensures d.active && d.key == GLFW_KEY_I && resetHeld ==> r == KeyActions(d, false, false)
    ensures DebounceValid(d) && d.active && !r.resetFired && !Holds(LatchKeys(printHeld, resetHeld), d.key)
            ==> r.state == RELEASED
    ensures !d.active && !printHeld && !resetHeld ==> r == KeyActions(d, false, false)
  {
    var afterP :=
      if printHeld then
        (if !d.active then KeyActions(Debounce(true, GLFW_KEY_P), true, false) else KeyActions(d, false, false))
      else
        (if d.key == GLFW_KEY_P && d.active then KeyActions(RELEASED, false, false) else KeyActions(d, false, false));
    var s := afterP.state;
    if resetHeld then
      (if !s.active then KeyActions(Debounce(true, GLFW_KEY_I), false, true) else afterP)
    else
      (if s.key == GLFW_KEY_I && s.active then afterP.(state := RELEASED) else afterP)
  }

  /** The P and I keys over several frames. */
  datatype LatchKeys = LatchKeys(printHeld: bool, resetHeld: bool)

  predicate Holds(f: LatchKeys, key: int)
  {
    (key == GLFW_KEY_P && f.printHeld) || (key == GLFW_KEY_I && f.resetHeld)
  }

  /** How many frames of `frames` fire an action, and the latch at the end. */
  function DebounceRun(d: Debounce, frames: seq<LatchKeys>): (Debounce, nat)
    decreases |frames|
  {
    if frames == [] then (d, 0)
    else
      var r := DebounceStep(d, frames[0].printHeld, frames[0].resetHeld);
      var rest := DebounceRun(r.state, frames[1..]);
      (rest.0, rest.1 + if r.printFired || r.resetFired then 1 else 0)
  }

  /** Once a key holds the latch, nothing fires for as long as that key stays
      down, whatever the other key does, and the latch is unchanged. */
  lemma {:induction false} HeldKeyBlocksActions(d: Debounce, frames: seq<LatchKeys>)
    requires DebounceValid(d) && d.active
    requires forall k :: 0 <= k < |frames| ==> Holds(frames[k], d.key)
    ensures DebounceRun(d, frames) == (d, 0)
    decreases |frames|
  {
    if frames != [] {
      HeldKeyBlocksActions(d, frames[1..]);
    }
  }

  // ---------------------------------------------------------------------------
  // The first-person view matrix
  // ---------------------------------------------------------------------------

  const ROTATION_SPEED: real := 1.0

  /** `rotation_speed * rot * deltaT`: the angle one accumulator turns the view by
      in one frame. */
  function Angle(rot: real, deltaT: real): real
  {
    ROTATION_SPEED * rot * deltaT
  }

  /** `vel * deltaT`: how far the view moves along its axis in one frame. */
  function Distance(vel: real, deltaT: real): real
  {
    vel * deltaT
  }

  /** rotate(x_rot·dt, X) · rotate(y_rot·dt, Y) · rotate(-z_rot·dt, Z) */
  function RotationMatrix(xRot: real, yRot: real, zRot: real, deltaT: real): Matrix
  {
    Product(Product(Rotation(Angle(xRot, deltaT), XAxis), Rotation(Angle(yRot, deltaT), YAxis)),
            Rotation(-Angle(zRot, deltaT), ZAxis))
  }

  /** The view after one frame: premultiply the rotation, then a translation of
      `vel * deltaT` along the view axis. */
  function MovedView(view: Matrix, xRot: real, yRot: real, zRot: real, vel: real, deltaT: real): Matrix
  {
    Product(Translation(0.0, 0.0, Distance(vel, deltaT)), Product(RotationMatrix(xRot, yRot, zRot, deltaT), view))
  }

  /** `translate(mat4(1), -initPos)`: where the camera starts and where the I
      key puts it back. */
  function Home(x: real, y: real, z: real): Matrix
  {
    Translation(-x, -y, -z)
  }

  // ---------------------------------------------------------------------------
  // The camera part of one frame
  // ---------------------------------------------------------------------------

  /** The camera state carried from frame to frame: velocity, rotation
      accumulators, `ViewMatrix`, `View`, and the P/I latch. */
  datatype Camera = Camera(vel: real, xRot: real, yRot: real, zRot: real, viewMatrix: Matrix, view: Matrix,
                           latch: Debounce)

  /** What one frame reads: `deltaT`, `m` and `r` from getSixAxis, and the polled keys. */
  datatype FrameInput = FrameInput(deltaT: real, move: Vec3, rotate: Vec3, keys: Keys)

  predicate CameraValid(c: Camera)
  {
    InVelocityRange(c.vel) && DebounceValid(c.latch)
  }

  /** At rest, nothing latched, looking from `home`. `View` has no value before
      the first frame assigns it; the model starts it at the identity. */
  function StartCamera(home: Matrix): (c: Camera)
    ensures CameraValid(c)
    ensures c.vel == 0.0 && c.viewMatrix == home && !c.latch.active
  {
    Camera(0.0, 0.0, 0.0, 0.0, home, Identity, RELEASED)
  }

  datatype CameraStep = CameraStep(camera: Camera, printFired: bool, resetFired: bool)

  /** The camera part of `updateUniformBuffer`: velocity, rotations, the moved
      view (which is what this frame renders), then the P and I blocks. A reset
      zeroes the velocity and puts `ViewMatrix` back at `home`, but after `View`
      was taken, so the reset shows from the next frame on; it leaves the
      rotation accumulators alone. */
  function CameraFrame(c: Camera, home: Matrix, input: FrameInput): (r: CameraStep)
    ensures CameraValid(c) ==> CameraValid(r.camera)
    ensures !(r.printFired && r.resetFired)
    ensures r.camera.xRot == RotationStep(c.xRot, input.rotate.x)
    ensures r.camera.yRot == RotationStep(c.yRot, input.rotate.y)
    ensures r.camera.zRot == RotationStep(c.zRot, input.rotate.z)
    ensures r.camera.view == MovedView(c.viewMatrix, r.camera.xRot, r.camera.yRot, r.camera.zRot,
                                       VelocityStep(c.vel, input.move.z), input.deltaT)
    ensures r.resetFired ==> r.camera.vel == 0.0 && r.camera.viewMatrix == home
    ensures !r.resetFired ==> r.camera.vel == VelocityStep(c.vel, input.move.z) && r.camera.viewMatrix == r.camera.view
    ensures r.printFired <==> input.keys.printKey && !c.latch.active
    ensures var k := DebounceStep(c.latch, input.keys.printKey, input.keys.resetKey);
            r.camera.latch == k.state && r.printFired == k.printFired && r.resetFired == k.resetFired
  {
    var vel := VelocityStep(c.vel, input.move.z);
    var x := RotationStep(c.xRot, input.rotate.x);
    var y := RotationStep(c.yRot, input.rotate.y);
    var z := RotationStep(c.zRot, input.rotate.z);
    var moved := MovedView(c.viewMatrix, x, y, z, vel, input.deltaT);
    var keys := DebounceStep(c.latch, input.keys.printKey, input.keys.resetKey);
    CameraStep(Camera(if keys.resetFired then 0.0 else vel, x, y, z, if keys.resetFired then home else moved,
                      moved, keys.state),
               keys.printFired, keys.resetFired)
  }

  /** After a reset, the next frame moves from `home` at the speed that frame's
      own input gives a standing ship. */
  lemma ResetShowsNextFrame(c: Camera, home: Matrix, first: FrameInput, second: FrameInput)
    requires CameraFrame(c, home, first).resetFired
    ensures var c1 := CameraFrame(c, home, first).camera;
            var c2 := CameraFrame(c1, home, second).camera;
            c2.view == MovedView(home, c2.xRot, c2.yRot, c2.zRot, VelocityStep(0.0, second.move.z), second.deltaT)
  {
  }
}
