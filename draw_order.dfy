/** What one frame submits in the two first-person variants (SolarSimulator and
    MeshLoader): the command list `populateCommandBuffer` records, the uniform
    writes at the end of `updateUniformBuffer`, and the mesh checks of
    `localInit`. The variants differ only in the Saturn ring, which MeshLoader
    does not have; a scene carries the ring as an Option. */
module DrawOrder {
  import opened Graphics

  /** NUM_PLANETS, Mercury to Neptune. */
  const NUM_PLANETS: nat := 8

  const PLANET_NAMES: seq<string> := ["Mercury", "Venus", "Earth", "Mars", "Jupiter", "Saturn", "Uranus", "Neptune"]

  /** The meshes `localInit` loads. */
  datatype Scene = Scene(sun: Mesh, planets: seq<Mesh>, moon: Mesh, ring: Option<Mesh>, skybox: Mesh)

  predicate WellFormed(scene: Scene)
  {
    |scene.planets| == NUM_PLANETS
  }

  /** The mesh an entity is drawn with (an empty mesh for an entity the scene lacks). */
  function MeshOf(scene: Scene, e: Entity): Mesh
  {
    match e
    case Skybox => scene.skybox
    case Sun => scene.sun
    case Planet(i) => if i < |scene.planets| then scene.planets[i] else Mesh(0, 0)
    case Moon => scene.moon
    case SaturnRing => if scene.ring.Some? then scene.ring.value else Mesh(0, 0)
  }

  /** The pipeline each entity is drawn with: skybox and sun have their own, every
      other body shares the planet pipeline `P`. */
  function PipelineOf(e: Entity): Pipeline
  {
    match e
    case Skybox => SkyboxPipeline
    case Sun => SunPipeline
    case _ => PlanetPipeline
  }

  /** The skybox is drawn unconditionally; every other entity only when its mesh
      has vertices and indices. */
  predicate Visible(scene: Scene, e: Entity)
  {
    e == Skybox || Drawable(MeshOf(scene, e))
  }

  /** Planets 0 .. n-1 in index order. */
  function PlanetOrder(n: nat): (o: seq<Entity>)
    ensures |o| == n
    ensures forall k :: 0 <= k < n ==> o[k] == Planet(k)
  {
    if n == 0 then [] else PlanetOrder(n - 1) + [Planet(n - 1)]
  }

  /** Paint order: skybox, sun, planets 0..7, moon, then the ring when there is one. */
  function SceneOrder(hasRing: bool): seq<Entity>
  {
    [Skybox, Sun] + PlanetOrder(NUM_PLANETS) + [Moon] + RingOrder(hasRing)
  }

  function ExpectedDraw(scene: Scene, e: Entity, image: int): Draw
  {
    DrawOf(e, PipelineOf(e), MeshOf(scene, e), image)
  }

  /** The draws that painting `order` should perform: one per visible entity, in
      order, each with that entity's pipeline, descriptor set, mesh and index count. */
  function ExpectedDraws(scene: Scene, image: int, order: seq<Entity>): seq<Draw>
    decreases |order|
  {
    if order == [] then []
    else (if Visible(scene, order[0]) then [ExpectedDraw(scene, order[0], image)] else [])
         + ExpectedDraws(scene, image, order[1..])
  }

  lemma {:induction false} ExpectedDrawsAppend(scene: Scene, image: int, a: seq<Entity>, b: seq<Entity>)
    ensures ExpectedDraws(scene, image, a + b) == ExpectedDraws(scene, image, a) + ExpectedDraws(scene, image, b)
    decreases |a|
  {
    if a == [] {
      assert a + b == b;
    } else {
      assert (a + b)[0] == a[0];
      assert (a + b)[1..] == a[1..] + b;
      ExpectedDrawsAppend(scene, image, a[1..], b);
    }
  }

  /** When every entity of `order` is visible, each one is drawn, in order. */
  lemma {:induction false} ExpectedDrawsAllVisible(scene: Scene, image: int, order: seq<Entity>)
    requires forall k :: 0 <= k < |order| ==> Visible(scene, order[k])
    ensures |ExpectedDraws(scene, image, order)| == |order|
    ensures forall k :: 0 <= k < |order| ==> ExpectedDraws(scene, image, order)[k] == ExpectedDraw(scene, order[k], image)
    decreases |order|
  {
    if order != [] {
      assert Visible(scene, order[0]);
      ExpectedDrawsAllVisible(scene, image, order[1..]);
    }
  }

  // ---------------------------------------------------------------------------
  // populateCommandBuffer
  // ---------------------------------------------------------------------------

  /** `skyboxP.bind; skybox.bind; skyboxDS.bind(skyboxP, image); draw`, with no
      emptiness check. */
  function SkyboxSegment(m: Mesh, image: int): seq<Command>
  {
    [BindPipeline(SkyboxPipeline), BindMesh(Skybox), BindDescriptorSet(Skybox, SkyboxPipeline, image),
     DrawIndexed(ToU32(m.indexCount))]
  }

  /** `sunP.bind; sunDS.bind(sunP, image); sun.bind; draw`, skipped for an empty mesh. */
  function SunSegment(m: Mesh, image: int): seq<Command>
  {
    if Drawable(m) then [BindPipeline(SunPipeline)] + BoundDraw(Sun, SunPipeline, m, image) else []
  }

  /** A body drawn under the already bound planet pipeline, skipped for an empty mesh. */
  function BodySegment(e: Entity, m: Mesh, image: int): seq<Command>
  {
    if Drawable(m) then BoundDraw(e, PlanetPipeline, m, image) else []
  }

  /** The planet loop, iterations 0 .. n-1. */
  function PlanetSegments(planets: seq<Mesh>, n: nat, image: int): seq<Command>
    requires n <= |planets|
    decreases n
  {
    if n == 0 then [] else PlanetSegments(planets, n - 1, image) + BodySegment(Planet(n - 1), planets[n - 1], image)
  }

  function RingSegment(ring: Option<Mesh>, image: int): seq<Command>
  {
    if ring.Some? then BodySegment(SaturnRing, ring.value, image) else []
  }

  /** `eDS.bind(cb, P, 0, image); e.bind(cb); vkCmdDrawIndexed(...)` */
  method RecordBoundDraw(cb: CommandBuffer, e: Entity, p: Pipeline, m: Mesh, image: int)
    modifies cb
    ensures cb.commands == old(cb.commands) + BoundDraw(e, p, m, image)
  {
    cb.Record(BindDescriptorSet(e, p, image));
    cb.Record(BindMesh(e));
    cb.Record(DrawIndexed(ToU32(m.indexCount)));
  }

  /** The planet loop of `populateCommandBuffer`. */
  method RecordPlanets(cb: CommandBuffer, planets: array<Mesh>, image: int)
    requires planets.Length == NUM_PLANETS
    modifies cb
    ensures cb.commands == old(cb.commands) + PlanetSegments(planets[..], NUM_PLANETS, image)
  {
    ghost var before := cb.commands;
    for i := 0 to NUM_PLANETS
      invariant cb.commands == before + PlanetSegments(planets[..], i, image)
    {
      if Drawable(planets[i]) {
        RecordBoundDraw(cb, Planet(i), PlanetPipeline, planets[i], image);
      }
      assert cb.commands == before + PlanetSegments(planets[..], i + 1, image);
    }
  }

  /** Bookkeeping for a buffer recorded piece by piece. */
  lemma Recorded(before: seq<Command>, done: seq<Command>, piece: seq<Command>, now: seq<Command>)
    requires now == before + done + piece
    ensures now == before + (done + piece)
  {
  }

  /** The commands `populateCommandBuffer(cb, image)` records. */
  function FrameCommands(scene: Scene, image: int): seq<Command>
    requires WellFormed(scene)
  {
    SkyboxSegment(scene.skybox, image) + SunSegment(scene.sun, image) + [BindPipeline(PlanetPipeline)]
    + PlanetSegments(scene.planets, NUM_PLANETS, image) + BodySegment(Moon, scene.moon, image)
    + RingSegment(scene.ring, image)
  }

  lemma SkyboxSegmentReplay(scene: Scene, image: int, s: BoundState)
    ensures Draws(SkyboxSegment(scene.skybox, image), s) == ExpectedDraws(scene, image, [Skybox])
  {
    var log := SkyboxSegment(scene.skybox, image);
    var s1 := Apply(s, log[0]);
    var s2 := Apply(s1, log[1]);
    var s3 := Apply(s2, log[2]);
    assert log[1..][1..][1..] == [log[3]];
    assert [log[3]][1..] == [];
    assert Draws([log[3]], s3) == [Draw(s3, ToU32(scene.skybox.indexCount))];
    assert Draws(log[1..][1..], s2) == Draws([log[3]], s3);
    assert Draws(log[1..], s1) == Draws(log[1..][1..], s2);
    assert Draws(log, s) == Draws(log[1..], s1);
    assert s3 == BoundState(Some(SkyboxPipeline), Some(Binding(Skybox, SkyboxPipeline, image)), Some(Skybox));
    assert [Skybox][1..] == [];
    assert ExpectedDraws(scene, image, [Skybox]) == [ExpectedDraw(scene, Skybox, image)];
  }

  lemma SunSegmentReplay(scene: Scene, image: int, s: BoundState)
    ensures Draws(SunSegment(scene.sun, image), s) == ExpectedDraws(scene, image, [Sun])
  {
    assert [Sun][1..] == [];
    if Drawable(scene.sun) {
      var s1 := Apply(s, BindPipeline(SunPipeline));
      var rest := BoundDraw(Sun, SunPipeline, scene.sun, image);
      assert SunSegment(scene.sun, image)[1..] == rest;
      BoundDrawReplay(Sun, SunPipeline, scene.sun, image, s1);
    }
  }

  lemma BodySegmentReplay(scene: Scene, e: Entity, image: int, s: BoundState)
    requires PipelineOf(e) == PlanetPipeline
    requires s.pipeline == Some(PlanetPipeline)
    ensures Draws(BodySegment(e, MeshOf(scene, e), image), s) == ExpectedDraws(scene, image, [e])
    ensures After(BodySegment(e, MeshOf(scene, e), image), s).pipeline == Some(PlanetPipeline)
  {
    assert [e][1..] == [];
    if Drawable(MeshOf(scene, e)) {
      BoundDrawReplay(e, PlanetPipeline, MeshOf(scene, e), image, s);
    }
  }

  /** Under the planet pipeline, the planet loop draws the visible planets in
      index order and leaves the planet pipeline bound. */
  lemma {:induction false} PlanetSegmentsReplay(scene: Scene, n: nat, image: int, s: BoundState)
    requires n <= |scene.planets|
    requires s.pipeline == Some(PlanetPipeline)
    ensures Draws(PlanetSegments(scene.planets, n, image), s) == ExpectedDraws(scene, image, PlanetOrder(n))
    ensures After(PlanetSegments(scene.planets, n, image), s).pipeline == Some(PlanetPipeline)
    decreases n
  {
    if n > 0 {
      var front := PlanetSegments(scene.planets, n - 1, image);
      PlanetSegmentsReplay(scene, n - 1, image, s);
      var mid := After(front, s);
      assert MeshOf(scene, Planet(n - 1)) == scene.planets[n - 1];
      BodySegmentReplay(scene, Planet(n - 1), image, mid);
      ReplayAppend(front, BodySegment(Planet(n - 1), scene.planets[n - 1], image), s);
      ExpectedDrawsAppend(scene, image, PlanetOrder(n - 1), [Planet(n - 1)]);
    }
  }

  lemma PlanetPipelineReplay(s: BoundState)
    ensures Draws([BindPipeline(PlanetPipeline)], s) == []
    ensures After([BindPipeline(PlanetPipeline)], s).pipeline == Some(PlanetPipeline)
  {
    assert [BindPipeline(PlanetPipeline)][1..] == [];
  }

  lemma MoonSegmentReplay(scene: Scene, image: int, s: BoundState)
    requires s.pipeline == Some(PlanetPipeline)
    ensures Draws(BodySegment(Moon, scene.moon, image), s) == ExpectedDraws(scene, image, [Moon])
    ensures After(BodySegment(Moon, scene.moon, image), s).pipeline == Some(PlanetPipeline)
  {
    assert MeshOf(scene, Moon) == scene.moon;
    BodySegmentReplay(scene, Moon, image, s);
  }

  lemma RingSegmentReplay(scene: Scene, image: int, s: BoundState)
    requires s.pipeline == Some(PlanetPipeline)
    ensures Draws(RingSegment(scene.ring, image), s) == ExpectedDraws(scene, image, RingOrder(scene.ring.Some?))
  {
    if scene.ring.Some? {
      assert MeshOf(scene, SaturnRing) == scene.ring.value;
      BodySegmentReplay(scene, SaturnRing, image, s);
    }
  }

  /** Replaying six consecutive segments, each from the state the previous left. */
  lemma ReplaySix(a: seq<Command>, b: seq<Command>, c: seq<Command>, d: seq<Command>, e: seq<Command>,
                  f: seq<Command>, s0: BoundState, s1: BoundState, s2: BoundState, s3: BoundState,
                  s4: BoundState, s5: BoundState)
    requires s1 == After(a, s0) && s2 == After(b, s1) && s3 == After(c, s2)
    requires s4 == After(d, s3) && s5 == After(e, s4)
    ensures Draws(a + b + c + d + e + f, s0)
         == Draws(a, s0) + Draws(b, s1) + Draws(c, s2) + Draws(d, s3) + Draws(e, s4) + Draws(f, s5)
  {
    ReplayAppend(a, b, s0);
    ReplayAppend(a + b, c, s0);
    ReplayAppend(a + b + c, d, s0);
    ReplayAppend(a + b + c + d, e, s0);
    ReplayAppend(a + b + c + d + e, f, s0);
  }

  function RingOrder(hasRing: bool): seq<Entity>
  {
    if hasRing then [SaturnRing] else []
  }

  lemma SceneOrderDraws(scene: Scene, image: int, hasRing: bool)
    ensures ExpectedDraws(scene, image, SceneOrder(hasRing))
         == ExpectedDraws(scene, image, [Skybox]) + ExpectedDraws(scene, image, [Sun])
          + ExpectedDraws(scene, image, PlanetOrder(NUM_PLANETS)) + ExpectedDraws(scene, image, [Moon])
          + ExpectedDraws(scene, image, RingOrder(hasRing))
  {
    var planets := PlanetOrder(NUM_PLANETS);
    assert SceneOrder(hasRing) == [Skybox] + [Sun] + planets + [Moon] + RingOrder(hasRing);
    ExpectedDrawsAppend(scene, image, [Skybox], [Sun]);
    ExpectedDrawsAppend(scene, image, [Skybox] + [Sun], planets);
    ExpectedDrawsAppend(scene, image, [Skybox] + [Sun] + planets, [Moon]);
    ExpectedDrawsAppend(scene, image, [Skybox] + [Sun] + planets + [Moon], RingOrder(hasRing));
  }

  /** The frame's draws, assembled from what each of its six segments draws. */
  lemma ComposeFrame(scene: Scene, image: int, hasRing: bool,
                     a: seq<Command>, b: seq<Command>, c: seq<Command>, d: seq<Command>, e: seq<Command>,
                     f: seq<Command>, s0: BoundState, s1: BoundState, s2: BoundState, s3: BoundState,
                     s4: BoundState, s5: BoundState)
    requires s1 == After(a, s0) && s2 == After(b, s1) && s3 == After(c, s2)
    requires s4 == After(d, s3) && s5 == After(e, s4)
    requires Draws(a, s0) == ExpectedDraws(scene, image, [Skybox])
    requires Draws(b, s1) == ExpectedDraws(scene, image, [Sun])
    requires Draws(c, s2) == []
    requires Draws(d, s3) == ExpectedDraws(scene, image, PlanetOrder(NUM_PLANETS))
    requires Draws(e, s4) == ExpectedDraws(scene, image, [Moon])
    requires Draws(f, s5) == ExpectedDraws(scene, image, RingOrder(hasRing))
    ensures Draws(a + b + c + d + e + f, s0) == ExpectedDraws(scene, image, SceneOrder(hasRing))
  {
    ReplaySix(a, b, c, d, e, f, s0, s1, s2, s3, s4, s5);
    SceneOrderDraws(scene, image, hasRing);
    calc {
      Draws(a + b + c + d + e + f, s0);
      Draws(a, s0) + Draws(b, s1) + Draws(c, s2) + Draws(d, s3) + Draws(e, s4) + Draws(f, s5);
      ExpectedDraws(scene, image, [Skybox]) + ExpectedDraws(scene, image, [Sun]) + []
        + ExpectedDraws(scene, image, PlanetOrder(NUM_PLANETS)) + ExpectedDraws(scene, image, [Moon])
        + ExpectedDraws(scene, image, RingOrder(hasRing));
      { assert ExpectedDraws(scene, image, [Skybox]) + ExpectedDraws(scene, image, [Sun]) + []
            == ExpectedDraws(scene, image, [Skybox]) + ExpectedDraws(scene, image, [Sun]); }
      ExpectedDraws(scene, image, SceneOrder(hasRing));
    }
  }

  /** The recorded frame paints exactly the visible entities in scene order
      (skybox, sun, planets 0..7, moon, ring), each under its own pipeline, with
      its own descriptor set bound at slot `image`, its own mesh bound, and that
      mesh's index count. */
  lemma FrameDrawsInSceneOrder(scene: Scene, image: int)
    requires WellFormed(scene)
    ensures Draws(FrameCommands(scene, image), UNBOUND) == ExpectedDraws(scene, image, SceneOrder(scene.ring.Some?))
  {
    var a := SkyboxSegment(scene.skybox, image);
    var b := SunSegment(scene.sun, image);
    var c := [BindPipeline(PlanetPipeline)];
    var d := PlanetSegments(scene.planets, NUM_PLANETS, image);
    var e := BodySegment(Moon, scene.moon, image);
    var f := RingSegment(scene.ring, image);
    var s1 := After(a, UNBOUND);
    var s2 := After(b, s1);
    var s3 := After(c, s2);
    var s4 := After(d, s3);
    var s5 := After(e, s4);
    SkyboxSegmentReplay(scene, image, UNBOUND);
    SunSegmentReplay(scene, image, s1);
    PlanetPipelineReplay(s2);
    PlanetSegmentsReplay(scene, NUM_PLANETS, image, s3);
    MoonSegmentReplay(scene, image, s4);
    RingSegmentReplay(scene, image, s5);
    ComposeFrame(scene, image, scene.ring.Some?, a, b, c, d, e, f, UNBOUND, s1, s2, s3, s4, s5);
  }

  lemma BindsAtAppend(a: seq<Command>, b: seq<Command>, image: int)
    requires BindsAt(a, image) && BindsAt(b, image)
    ensures BindsAt(a + b, image)
  {
    forall k | 0 <= k < |a + b| && (a + b)[k].BindDescriptorSet?
      ensures (a + b)[k].image == image
    {
      if k >= |a| {
        assert (a + b)[k] == b[k - |a|];
      }
    }
  }

  lemma {:induction false} PlanetSegmentsBindAt(planets: seq<Mesh>, n: nat, image: int)
    requires n <= |planets|
    ensures BindsAt(PlanetSegments(planets, n, image), image)
    decreases n
  {
    if n > 0 {
      PlanetSegmentsBindAt(planets, n - 1, image);
      BindsAtAppend(PlanetSegments(planets, n - 1, image), BodySegment(Planet(n - 1), planets[n - 1], image), image);
    }
  }

  /** Every descriptor-set bind of the frame targets slot `image`. */
  lemma FrameBindsCurrentImage(scene: Scene, image: int)
    requires WellFormed(scene)
    ensures BindsAt(FrameCommands(scene, image), image)
  {
    var a := SkyboxSegment(scene.skybox, image);
    var b := SunSegment(scene.sun, image);
    var c := [BindPipeline(PlanetPipeline)];
    var d := PlanetSegments(scene.planets, NUM_PLANETS, image);
    var e := BodySegment(Moon, scene.moon, image);
    var f := RingSegment(scene.ring, image);
    PlanetSegmentsBindAt(scene.planets, NUM_PLANETS, image);
    BindsAtAppend(a, b, image);
    BindsAtAppend(a + b, c, image);
    BindsAtAppend(a + b + c, d, image);
    BindsAtAppend(a + b + c + d, e, image);
    BindsAtAppend(a + b + c + d + e, f, image);
  }

  /** Every mesh of the scene has vertices and indices: what `localInit` checks. */
  predicate AllDrawable(scene: Scene)
  {
    && Drawable(scene.sun)
    && (forall i :: 0 <= i < |scene.planets| ==> Drawable(scene.planets[i]))
    && Drawable(scene.moon)
    && (scene.ring.Some? ==> Drawable(scene.ring.value))
    && Drawable(scene.skybox)
  }

  /** Once every mesh is loaded, the frame draws every entity of the scene in
      paint order: twelve draws with the ring, eleven without. */
  lemma LoadedFrameDrawsEverything(scene: Scene, image: int)
    requires WellFormed(scene) && AllDrawable(scene)
    ensures var draws := Draws(FrameCommands(scene, image), UNBOUND);
            var order := SceneOrder(scene.ring.Some?);
            && |draws| == (if scene.ring.Some? then 12 else 11)
            && forall k :: 0 <= k < |draws| ==> draws[k] == ExpectedDraw(scene, order[k], image)
  {
    var order := SceneOrder(scene.ring.Some?);
    forall k | 0 <= k < |order| ensures Visible(scene, order[k]) {
      if 2 <= k < 2 + NUM_PLANETS {
        assert order[k] == Planet(k - 2);
      }
    }
    FrameDrawsInSceneOrder(scene, image);
    ExpectedDrawsAllVisible(scene, image, order);
  }

  // ---------------------------------------------------------------------------
  // The uniform writes of updateUniformBuffer
  // ---------------------------------------------------------------------------

  /** The planet loop of the uniform update, iterations 0 .. n-1. */
  function PlanetWrites(n: nat, image: int): (ws: seq<UniformWrite>)
    decreases n
  {
    if n == 0 then [] else PlanetWrites(n - 1, image) + [UniformWrite(Planet(n - 1), image)]
  }

  /** The planet loop of the uniform update. */
  method WritePlanets(mem: UniformMemory, image: int)
    modifies mem
    ensures mem.writes == old(mem.writes) + PlanetWrites(NUM_PLANETS, image)
  {
    ghost var before := mem.writes;
    for i := 0 to NUM_PLANETS
      invariant mem.writes == before + PlanetWrites(i, image)
    {
      mem.Map(Planet(i), image);
    }
  }

  /** The planets whose position the moon's and the ring's world matrices are
      built from: the hard-coded `earthIndex = 2` and `saturnIndex = 5`. */
  function AnchorPlanet(e: Entity): (i: nat)
    requires e == Moon || e == SaturnRing
    ensures i < NUM_PLANETS
    ensures PLANET_NAMES[i] == if e == Moon then "Earth" else "Saturn"
  {
    if e == Moon then 2 else 5
  }

  /** The writes of one frame: sun, planets 0..7, moon, ring (when present), skybox. */
  function FrameWrites(hasRing: bool, image: int): seq<UniformWrite>
  {
    [UniformWrite(Sun, image)] + PlanetWrites(NUM_PLANETS, image) + [UniformWrite(Moon, image)]
    + (if hasRing then [UniformWrite(SaturnRing, image)] else []) + [UniformWrite(Skybox, image)]
  }

  lemma {:induction false} PlanetWritesShape(n: nat, image: int)
    ensures |PlanetWrites(n, image)| == n
    ensures forall k :: 0 <= k < n ==> PlanetWrites(n, image)[k] == UniformWrite(Planet(k), image)
    decreases n
  {
    if n > 0 {
      PlanetWritesShape(n - 1, image);
    }
  }

  /** Each frame writes the descriptor set of every entity of the scene exactly
      once (no set twice, no set missing, nothing else), all at slot `image`. */
  lemma FrameWritesEachSetOnce(hasRing: bool, image: int)
    ensures var ws := FrameWrites(hasRing, image);
            && WritesAt(ws, image)
            && Distinct(Targets(ws))
            && |ws| == |SceneOrder(hasRing)|
            && forall e :: e in Targets(ws) <==> e in SceneOrder(hasRing)
  {
    var ws := FrameWrites(hasRing, image);
    var order := SceneOrder(hasRing);
    PlanetWritesShape(NUM_PLANETS, image);
    var t := Targets(ws);
    assert |ws| == |order|;
    forall k | 0 <= k < |ws| ensures ws[k].image == image && (1 <= k <= NUM_PLANETS <==> ws[k].target.Planet?)
      && (1 <= k <= NUM_PLANETS ==> ws[k].target == Planet(k - 1)) {
      if 1 <= k <= NUM_PLANETS {
        assert ws[k] == PlanetWrites(NUM_PLANETS, image)[k - 1];
      }
    }
    forall e | e in t ensures e in order {
      var k :| 0 <= k < |t| && t[k] == e;
      if 1 <= k <= NUM_PLANETS {
        assert order[k + 1] == Planet(k - 1);
      } else if k == 0 {
        assert order[1] == Sun;
      } else if k == |t| - 1 {
        assert order[0] == Skybox;
      } else if k == NUM_PLANETS + 1 {
        assert order[NUM_PLANETS + 2] == Moon;
      } else {
        assert hasRing && order[NUM_PLANETS + 3] == SaturnRing;
      }
    }
    forall e | e in order ensures e in t {
      var k :| 0 <= k < |order| && order[k] == e;
      if 2 <= k < 2 + NUM_PLANETS {
        assert t[k - 1] == Planet(k - 2);
      } else if k == 0 {
        assert t[|t| - 1] == Skybox;
      } else if k == 1 {
        assert t[0] == Sun;
      } else if k == NUM_PLANETS + 2 {
        assert t[NUM_PLANETS + 1] == Moon;
      } else {
        assert hasRing && t[NUM_PLANETS + 2] == SaturnRing;
      }
    }
  }

  // ---------------------------------------------------------------------------
  // The mesh checks of localInit
  // ---------------------------------------------------------------------------

  /** The first planet, from `i` on, whose mesh is empty: the message
      `localInit` throws for it, or None. */
  function PlanetCheck(planets: seq<Mesh>, i: nat): Option<string>
    requires |planets| <= NUM_PLANETS && i <= |planets|
    decreases |planets| - i
  {
    if i == |planets| then None
    else if !Drawable(planets[i]) then Some("Failed to load planet model: " + PLANET_NAMES[i])
    else PlanetCheck(planets, i + 1)
  }

  /** The runtime_error `localInit` throws, checking sun, planets 0..7, moon,
      ring and skybox in that order; None when every check passes. */
  function LoadCheck(scene: Scene): Option<string>
    requires WellFormed(scene)
  {
    if !Drawable(scene.sun) then Some("Failed to load sun model")
    else if PlanetCheck(scene.planets, 0).Some? then PlanetCheck(scene.planets, 0)
    else if !Drawable(scene.moon) then Some("Failed to load moon model")
    else if scene.ring.Some? && !Drawable(scene.ring.value) then Some("Failed to load ring model")
    else if !Drawable(scene.skybox) then Some("Failed to load skybox model")
    else None
  }

  lemma {:induction false} PlanetCheckPasses(planets: seq<Mesh>, i: nat)
    requires |planets| <= NUM_PLANETS && i <= |planets|
    ensures PlanetCheck(planets, i).None? <==> forall j :: i <= j < |planets| ==> Drawable(planets[j])
    decreases |planets| - i
  {
    if i < |planets| {
      PlanetCheckPasses(planets, i + 1);
    }
  }

  /** `localInit` completes exactly when every mesh is non-empty; a single empty
      mesh makes it throw. */
  lemma LoadCheckPasses(scene: Scene)
    requires WellFormed(scene)
    ensures LoadCheck(scene).None? <==> AllDrawable(scene)
  {
    PlanetCheckPasses(scene.planets, 0);
  }
}
