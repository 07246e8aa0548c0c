/** The MeshLoader application: the sun, eight planets and the moon (no Saturn
    ring) under a free-flying first-person camera, with edge-triggered speed
    keys ('=' faster, '-' slower) guarded by the `speedKeyPressed` latch. */
module MeshLoader {
  import opened Graphics
  import opened FrameRules
  import opened DrawOrder

  /** `initPos = (0, 30, 100)` */
  const HOME: Matrix := Home(0.0, 30.0, 100.0)

  /** Everything `updateUniformBuffer` carries from one frame to the next: the
      camera, `speedMultiplier` with the `speedKeyPressed` latch,
      `accumulatedTime`, and whether ESC asked the window to close. */
  datatype SimState = SimState(camera: Camera, speed: SpeedControl, time: real, closing: bool)

  predicate SimValid(s: SimState)
  {
    CameraValid(s.camera) && InSpeedRange(s.speed.speed)
  }

  function Initial(): (s: SimState)
    ensures SimValid(s)
    ensures s.camera.viewMatrix == HOME && s.speed == SpeedControl(INITIAL_SPEED, false)
    ensures s.time == 0.0 && !s.closing
  {
    SimState(StartCamera(HOME), SpeedControl(INITIAL_SPEED, false), 0.0, false)
  }

  /** One `updateUniformBuffer` call, on the state it carries. The speed keys act
      before the clock advances, so the frame's time step already uses the new
      speed. */
  function Frame(s: SimState, input: FrameInput): (r: SimState)
    ensures SimValid(s) ==> SimValid(r)
    ensures SimValid(s) && input.deltaT >= 0.0 ==> r.time >= s.time
    ensures r.closing <==> s.closing || input.keys.escape
    ensures r.speed == SpeedEdge(s.speed, input.keys.faster, input.keys.slower)
    ensures r.time == Advance(s.time, input.deltaT, r.speed.speed)
    ensures r.camera == CameraFrame(s.camera, HOME, input).camera
  {
    var speed := SpeedEdge(s.speed, input.keys.faster, input.keys.slower);
    SimState(CameraFrame(s.camera, HOME, input).camera, speed, Advance(s.time, input.deltaT, speed.speed),
             s.closing || input.keys.escape)
  }

  function Run(s: SimState, inputs: seq<FrameInput>): SimState
    decreases |inputs|
  {
    if inputs == [] then s else Run(Frame(s, inputs[0]), inputs[1..])
  }

  /** Over any run of frames with non-negative time steps the state stays valid
      (speed in [0.1, 3.0], velocity in [-5, 5], latch consistent), the clock
      never goes back, and once ESC has been seen the window stays marked for
      closing. */
  lemma {:induction false} RunKeepsInvariant(s: SimState, inputs: seq<FrameInput>)
    requires SimValid(s)
    requires forall k :: 0 <= k < |inputs| ==> inputs[k].deltaT >= 0.0
    ensures SimValid(Run(s, inputs))
    ensures Run(s, inputs).time >= s.time
    ensures s.closing ==> Run(s, inputs).closing
    decreases |inputs|
  {
    if inputs != [] {
      RunKeepsInvariant(Frame(s, inputs[0]), inputs[1..]);
    }
  }

  /** While a speed key stays down the speed changes at most once, on the
      first frame of the hold and only if the latch was clear then. */
  lemma {:induction false} HeldSpeedKeyActsOnce(s: SimState, inputs: seq<FrameInput>)
    requires inputs != []
    requires forall k :: 0 <= k < |inputs| ==> inputs[k].keys.faster || inputs[k].keys.slower
    ensures Run(s, inputs).speed.keyPressed
    ensures Run(s, inputs).speed.speed ==
              if s.speed.keyPressed then s.speed.speed
              else SpeedLevel(s.speed.speed, inputs[0].keys.faster, inputs[0].keys.slower)
    decreases |inputs|
  {
    var s1 := Frame(s, inputs[0]);
    if |inputs| > 1 {
      HeldSpeedKeyActsOnce(s1, inputs[1..]);
    }
  }

  /** The meshes of this variant: no ring. */
  predicate SceneShape(scene: Scene)
  {
    WellFormed(scene) && scene.ring.None?
  }

  class Loader {
    var speedMultiplier: real
    var speedKeyPressed: bool
    var accumulatedTime: real
    var vel: real
    var xRot: real
    var yRot: real
    var zRot: real
    var viewMatrix: Matrix
    var view: Matrix
    /** The function-static `debounce` and `curDebounce` of `updateUniformBuffer`. */
    var debounce: bool
    var curDebounce: int
    /** `glfwWindowShouldClose(window)` */
    var windowShouldClose: bool
    var sun: Mesh
    var planets: array<Mesh>
    var moon: Mesh
    var skybox: Mesh

    function CameraOf(): Camera
      reads this
    {
      Camera(vel, xRot, yRot, zRot, viewMatrix, view, Debounce(debounce, curDebounce))
    }

    function State(): SimState
      reads this
    {
      SimState(CameraOf(),
               SpeedControl(speedMultiplier, speedKeyPressed), accumulatedTime, windowShouldClose)
    }

    function CurrentScene(): Scene
      reads this, planets
    {
      Scene(sun, planets[..], moon, None, skybox)
    }

    ghost predicate Valid()
      reads this
    {
      planets.Length == NUM_PLANETS && SimValid(State())
    }

    /** The field initialisers, the two statics, and no meshes loaded yet. */
    constructor ()
      ensures Valid() && State() == Initial()
      ensures fresh(planets)
    {
      speedMultiplier := INITIAL_SPEED;
      speedKeyPressed := false;
      accumulatedTime := 0.0;
      vel := 0.0;
      xRot := 0.0;
      yRot := 0.0;
      zRot := 0.0;
      viewMatrix := HOME;
      view := Identity;
      debounce := false;
      curDebounce := 0;
      windowShouldClose := false;
      sun := Mesh(0, 0);
      planets := new Mesh[NUM_PLANETS](_ => Mesh(0, 0));
      moon := Mesh(0, 0);
      skybox := Mesh(0, 0);
    }

    /** The model loading of `localInit`: each mesh is stored, then checked, and
        the first empty one throws. On success the simulator holds the scene. */
    method LocalInit(loaded: Scene) returns (error: Option<string>)
      requires Valid() && SceneShape(loaded)
      modifies this`sun, this`moon, this`skybox, planets
      ensures Valid()
      ensures error == LoadCheck(loaded)
      ensures error.None? ==> CurrentScene() == loaded
    {
      sun := loaded.sun;
      if !Drawable(sun) {
        return Some("Failed to load sun model");
      }
      for i := 0 to NUM_PLANETS
        invariant sun == loaded.sun
        invariant planets[..i] == loaded.planets[..i]
        invariant PlanetCheck(loaded.planets, 0) == PlanetCheck(loaded.planets, i)
      {
        planets[i] := loaded.planets[i];
        if !Drawable(planets[i]) {
          return Some("Failed to load planet model: " + PLANET_NAMES[i]);
        }
      }
      moon := loaded.moon;
      if !Drawable(moon) {
        return Some("Failed to load moon model");
      }
      skybox := loaded.skybox;
      if !Drawable(skybox) {
        return Some("Failed to load skybox model");
      }
      assert planets[..] == planets[..NUM_PLANETS];
      assert loaded.planets == loaded.planets[..NUM_PLANETS];
      error := None;
    }

    /** `populateCommandBuffer`: skybox, sun, the planet pipeline, planets 0..7,
        moon; every body but the skybox only if its mesh is non-empty. */
    method PopulateCommandBuffer(cb: CommandBuffer, image: int)
      requires Valid()
      modifies cb
      ensures cb.commands == old(cb.commands) + FrameCommands(CurrentScene(), image)
    {
      ghost var before := cb.commands;
      cb.Record(BindPipeline(SkyboxPipeline));
      cb.Record(BindMesh(Skybox));
      cb.Record(BindDescriptorSet(Skybox, SkyboxPipeline, image));
      cb.Record(DrawIndexed(ToU32(skybox.indexCount)));
      ghost var done := SkyboxSegment(skybox, image);
      assert cb.commands == before + done;
      if Drawable(sun) {
        cb.Record(BindPipeline(SunPipeline));
        RecordBoundDraw(cb, Sun, SunPipeline, sun, image);
      }
      Recorded(before, done, SunSegment(sun, image), cb.commands);
      done := done + SunSegment(sun, image);
      cb.Record(BindPipeline(PlanetPipeline));
      Recorded(before, done, [BindPipeline(PlanetPipeline)], cb.commands);
      done := done + [BindPipeline(PlanetPipeline)];
      RecordPlanets(cb, planets, image);
      Recorded(before, done, PlanetSegments(planets[..], NUM_PLANETS, image), cb.commands);
      done := done + PlanetSegments(planets[..], NUM_PLANETS, image);
      if Drawable(moon) {
        RecordBoundDraw(cb, Moon, PlanetPipeline, moon, image);
      }
      Recorded(before, done, BodySegment(Moon, moon, image), cb.commands);
      done := done + BodySegment(Moon, moon, image);
      Recorded(before, done, RingSegment(None, image), cb.commands);
    }

    /** The descriptor-set writes at the end of `updateUniformBuffer`: sun,
        planets 0..7, moon, skybox, all at `image`. */
    method WriteUniforms(mem: UniformMemory, image: int)
      modifies mem
      ensures mem.writes == old(mem.writes) + FrameWrites(false, image)
    {
      ghost var before := mem.writes;
      mem.Map(Sun, image);
      WritePlanets(mem, image);
      mem.Map(Moon, image);
      mem.Map(Skybox, image);
      assert mem.writes == before + ([UniformWrite(Sun, image)] + PlanetWrites(NUM_PLANETS, image)
        + [UniformWrite(Moon, image)] + [UniformWrite(Skybox, image)]);
    }

    /** The velocity and rotation updates and the moved view: the first half of
        `updateUniformBuffer`. */
    method MoveCamera(input: FrameInput)
      modifies this`vel, this`xRot, this`yRot, this`zRot, this`viewMatrix, this`view
      ensures vel == VelocityStep(old(vel), input.move.z)
      ensures xRot == RotationStep(old(xRot), input.rotate.x)
      ensures yRot == RotationStep(old(yRot), input.rotate.y)
      ensures zRot == RotationStep(old(zRot), input.rotate.z)
      ensures view == MovedView(old(viewMatrix), xRot, yRot, zRot, vel, input.deltaT)
      ensures viewMatrix == view
    {
      var v := UpdateVelocity(vel, input.move.z);
      var x := UpdateAxis(xRot, input.rotate.x);
      var y := UpdateAxis(yRot, input.rotate.y);
      var z := UpdateAxis(zRot, input.rotate.z);
      var deltaT := input.deltaT;
      var rotationMatrix := RotationMatrix(x, y, z, deltaT);
      var moved := Product(rotationMatrix, viewMatrix);
      moved := Product(Translation(0.0, 0.0, Distance(v, deltaT)), moved);
      vel, xRot, yRot, zRot := v, x, y, z;
      viewMatrix := moved;
      view := viewMatrix;
    }

    /** The P block, then the I block. Returns whether P printed the debug dump. */
    method HandleLatchKeys(keys: Keys) returns (printed: bool)
      modifies this`debounce, this`curDebounce, this`vel, this`viewMatrix
      ensures var step := DebounceStep(Debounce(old(debounce), old(curDebounce)), keys.printKey, keys.resetKey);
              && Debounce(debounce, curDebounce) == step.state
              && printed == step.printFired
              && vel == (if step.resetFired then 0.0 else old(vel))
              && viewMatrix == (if step.resetFired then HOME else old(viewMatrix))
    {
      printed := false;
      if keys.printKey {
        if !debounce {
          debounce := true;
          curDebounce := GLFW_KEY_P;
          printed := true;
        }
      } else if curDebounce == GLFW_KEY_P && debounce {
        debounce := false;
        curDebounce := 0;
      }

      if keys.resetKey {
        if !debounce {
          debounce := true;
          curDebounce := GLFW_KEY_I;
          vel := 0.0;
          viewMatrix := HOME;
        }
      } else if curDebounce == GLFW_KEY_I && debounce {
        debounce := false;
        curDebounce := 0;
      }
    }

    /** The edge-triggered speed keys. */
    method HandleSpeedKeys(keys: Keys)
      modifies this`speedMultiplier, this`speedKeyPressed
      ensures SpeedControl(speedMultiplier, speedKeyPressed)
           == SpeedEdge(SpeedControl(old(speedMultiplier), old(speedKeyPressed)), keys.faster, keys.slower)
    {
      if keys.faster {
        if !speedKeyPressed {
          speedMultiplier := Min(speedMultiplier + SPEED_STEP, MAX_SPEED);
          speedKeyPressed := true;
        }
      } else if keys.slower {
        if !speedKeyPressed {
          speedMultiplier := Max(speedMultiplier - SPEED_STEP, MIN_SPEED);
          speedKeyPressed := true;
        }
      } else {
        speedKeyPressed := false;
      }
    }

    /** The camera half of `updateUniformBuffer`. */
    method UpdateCamera(input: FrameInput) returns (printed: bool)
      modifies this`vel, this`xRot, this`yRot, this`zRot, this`viewMatrix, this`view, this`debounce, this`curDebounce
      ensures CameraOf() == CameraFrame(old(CameraOf()), HOME, input).camera
      ensures printed == CameraFrame(old(CameraOf()), HOME, input).printFired
    {
      MoveCamera(input);
      printed := HandleLatchKeys(input.keys);
    }

    /** `updateUniformBuffer(image)` with getSixAxis's output and the polled keys
        as `input`. Returns whether the P key printed the debug dump this frame. */
    method UpdateUniformBuffer(image: int, input: FrameInput, mem: UniformMemory) returns (printed: bool)
      requires Valid()
      modifies this`speedMultiplier, this`speedKeyPressed, this`accumulatedTime, this`vel, this`xRot, this`yRot, this`zRot
      modifies this`viewMatrix, this`view, this`debounce, this`curDebounce, this`windowShouldClose, mem
      ensures Valid()
      ensures State() == Frame(old(State()), input)
      ensures printed == CameraFrame(old(State()).camera, HOME, input).printFired
      ensures mem.writes == old(mem.writes) + FrameWrites(false, image)
    {
      ghost var s0 := State();
      printed := UpdateCamera(input);

      HandleSpeedKeys(input.keys);

      if input.keys.escape {
        windowShouldClose := true;
      }

      accumulatedTime := Advance(accumulatedTime, input.deltaT, speedMultiplier);

      WriteUniforms(mem, image);
      assert State().camera == CameraFrame(s0.camera, HOME, input).camera;
      assert State().speed == SpeedEdge(s0.speed, input.keys.faster, input.keys.slower);
      assert State() == Frame(s0, input);
    }
  }
}
