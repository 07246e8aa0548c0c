/** The SolarSystem application: a sun and a JSON-configured list of planets
    drawn as procedurally generated spheres inside a skybox cube, with a
    mouse-look camera and a time scale changed by the arrow keys. */
module SolarSystem {
  import opened Graphics
  import opened FrameRules
  import opened DrawOrder

  // ---------------------------------------------------------------------------
  // Vertices
  // ---------------------------------------------------------------------------

  /** A glm::vec3 of a vertex or of the camera. The trigonometric ones are kept
      as the arguments they are computed from: `SpherePoint(r, u, v)` is
      r·(cos 2πu · sin πv, cos πv, sin 2πu · sin πv), and `Heading(yaw, pitch)`
      is normalize(cos yaw · cos pitch, sin pitch, sin yaw · cos pitch) in degrees. */
  datatype Vector3 =
    | Coordinates(x: real, y: real, z: real)
    | SpherePoint(radius: real, u: real, v: real)
    | Heading(yaw: real, pitch: real)

  /** `VertexMesh { pos, normal, texCoord }` */
  datatype VertexMesh = VertexMesh(pos: Vector3, normal: Vector3, texU: real, texV: real)

  /** A `Model<VertexMesh>`'s vertex and index vectors. */
  datatype ModelData = ModelData(vertices: seq<VertexMesh>, indices: seq<nat>)

  function MeshOfModel(m: ModelData): (r: Mesh)
    ensures r.vertexCount == |m.vertices| && r.indexCount == |m.indices|
  {
    Mesh(|m.vertices|, |m.indices|)
  }

  // ---------------------------------------------------------------------------
  // createPlanetMesh: a (RINGS+1) x (SEGMENTS+1) grid of sphere points
  // ---------------------------------------------------------------------------

  const SEGMENTS: nat := 64
  const RINGS: nat := 32
  /** Vertices per grid row. */
  const ROW: nat := SEGMENTS + 1
  const VERTEX_COUNT: nat := (RINGS + 1) * ROW
  const INDEX_COUNT: nat := 6 * RINGS * SEGMENTS

  /** The vertex of grid cell (y, x): texture coordinate (x/SEGMENTS, y/RINGS),
      normal the unit-sphere point there, position that point scaled by `radius`. */
  function GridVertex(radius: real, y: nat, x: nat): (v: VertexMesh)
    requires y <= RINGS && x <= SEGMENTS
    ensures 0.0 <= v.texU <= 1.0 && 0.0 <= v.texV <= 1.0
    ensures x == 0 <==> v.texU == 0.0
    ensures y == RINGS <==> v.texV == 1.0
  {
    var u := (x as real) / (SEGMENTS as real);
    var w := (y as real) / (RINGS as real);
    VertexMesh(SpherePoint(radius, u, w), SpherePoint(1.0, u, w), u, w)
  }

  /** The vertex list `createPlanetMesh` pushes: row by row, `x` fastest. */
  function PlanetVertices(radius: real): (vs: seq<VertexMesh>)
    ensures |vs| == VERTEX_COUNT
  {
    seq(VERTEX_COUNT, k requires 0 <= k < VERTEX_COUNT => GridVertex(radius, k / ROW, k % ROW))
  }

  /** Corner `c` of the two triangles of cell (y, x), in push order. */
  function CornerIndex(y: nat, x: nat, c: nat): (i: nat)
    requires y < RINGS && x < SEGMENTS && c < 6
    ensures i < VERTEX_COUNT
  {
    match c
    case 0 => (y + 1) * ROW + x
    case 1 => y * ROW + x
    case 2 => y * ROW + x + 1
    case 3 => (y + 1) * ROW + x
    case 4 => y * ROW + x + 1
    case 5 => (y + 1) * ROW + x + 1
  }

  /** The index list `createPlanetMesh` pushes: six per cell, cells row by row. */
  function PlanetIndices(): (ix: seq<nat>)
    ensures |ix| == INDEX_COUNT
  {
    seq(INDEX_COUNT, k requires 0 <= k < INDEX_COUNT => CornerIndex(k / 6 / SEGMENTS, k / 6 % SEGMENTS, k % 6))
  }

  /** The grid layout: the vertex for cell (y, x) sits at position y·ROW + x. */
  lemma PlanetVertexAt(radius: real, y: nat, x: nat)
    requires y <= RINGS && x <= SEGMENTS
    ensures y * ROW + x < VERTEX_COUNT
    ensures PlanetVertices(radius)[y * ROW + x] == GridVertex(radius, y, x)
  {
    assert (y * 65 + x) / 65 == y && (y * 65 + x) % 65 == x;
  }

  /** Index `(y·SEGMENTS + x)·6 + c` is corner `c` of cell (y, x). */
  lemma PlanetIndexAt(y: nat, x: nat, c: nat)
    requires y < RINGS && x < SEGMENTS && c < 6
    ensures (y * SEGMENTS + x) * 6 + c < INDEX_COUNT
    ensures PlanetIndices()[(y * SEGMENTS + x) * 6 + c] == CornerIndex(y, x, c)
  {
    var cell := y * SEGMENTS + x;
    assert (cell * 6 + c) / 6 == cell && (cell * 6 + c) % 6 == c;
    assert cell / SEGMENTS == y && cell % SEGMENTS == x;
  }

  /** `createPlanetMesh(radius, vertices, indices)`: appends the sphere grid to the
      caller's vectors and leaves what they held before in place. */
  method CreatePlanetMesh(radius: real, vertices: Vector<VertexMesh>, indices: Vector<nat>)
    modifies vertices, indices
    ensures vertices.elems == old(vertices.elems) + PlanetVertices(radius)
    ensures indices.elems == old(indices.elems) + PlanetIndices()
  {
    ghost var vs := PlanetVertices(radius);
    ghost var vertexBefore := vertices.elems;
    ghost var indexBefore := indices.elems;
    var y := 0;
    while y <= RINGS
      invariant 0 <= y <= RINGS + 1
      invariant vertices.elems == vertexBefore + vs[..y * ROW]
      invariant indices.elems == indexBefore
    {
      var x := 0;
      while x <= SEGMENTS
        invariant 0 <= x <= SEGMENTS + 1
        invariant vertices.elems == vertexBefore + vs[..y * ROW + x]
        invariant indices.elems == indexBefore
      {
        PlanetVertexAt(radius, y, x);
        vertices.PushBack(GridVertex(radius, y, x));
        assert vs[..y * ROW + x + 1] == vs[..y * ROW + x] + [vs[y * ROW + x]];
        x := x + 1;
      }
      y := y + 1;
    }
    assert vs[..VERTEX_COUNT] == vs;

    ghost var ix := PlanetIndices();
    y := 0;
    while y < RINGS
      invariant 0 <= y <= RINGS
      invariant indices.elems == indexBefore + ix[..y * SEGMENTS * 6]
      invariant vertices.elems == vertexBefore + vs
    {
      var x := 0;
      while x < SEGMENTS
        invariant 0 <= x <= SEGMENTS
        invariant indices.elems == indexBefore + ix[..(y * SEGMENTS + x) * 6]
        invariant vertices.elems == vertexBefore + vs
      {
        PushCell(indices, y, x, indexBefore);
        x := x + 1;
      }
      y := y + 1;
    }
    assert ix[..INDEX_COUNT] == ix;
  }

  /** One `indices.push_back` of corner `c` of cell (y, x). */
  method PushCorner(indices: Vector<nat>, y: nat, x: nat, c: nat, i: nat, ghost indexBefore: seq<nat>)
    requires y < RINGS && x < SEGMENTS && c < 6 && i == CornerIndex(y, x, c)
    requires indices.elems == indexBefore + PlanetIndices()[..(y * SEGMENTS + x) * 6 + c]
    modifies indices
    ensures indices.elems == indexBefore + PlanetIndices()[..(y * SEGMENTS + x) * 6 + c + 1]
  {
    ghost var ix := PlanetIndices();
    ghost var k := (y * SEGMENTS + x) * 6 + c;
    PlanetIndexAt(y, x, c);
    indices.PushBack(i);
    assert ix[..k + 1] == ix[..k] + [ix[k]];
  }

  /** The six pushes of one cell. */
  method PushCell(indices: Vector<nat>, y: nat, x: nat, ghost indexBefore: seq<nat>)
    requires y < RINGS && x < SEGMENTS
    requires indices.elems == indexBefore + PlanetIndices()[..(y * SEGMENTS + x) * 6]
    modifies indices
    ensures indices.elems == indexBefore + PlanetIndices()[..(y * SEGMENTS + x + 1) * 6]
  {
    ghost var ix := PlanetIndices();
    ghost var base := (y * SEGMENTS + x) * 6;
    PushCorner(indices, y, x, 0, (y + 1) * ROW + x, indexBefore);
    PushCorner(indices, y, x, 1, y * ROW + x, indexBefore);
    PushCorner(indices, y, x, 2, y * ROW + x + 1, indexBefore);
    PushCorner(indices, y, x, 3, (y + 1) * ROW + x, indexBefore);
    PushCorner(indices, y, x, 4, y * ROW + x + 1, indexBefore);
    PushCorner(indices, y, x, 5, (y + 1) * ROW + x + 1, indexBefore);
    assert base + 6 == (y * SEGMENTS + x + 1) * 6;
  }

  /** The corners of one grid cell: the two triangles pushed for cell (y, x)
      share the diagonal (y+1, x) – (y, x+1), and together use exactly the
      cell's four corners. */
  lemma CellTrianglesShareDiagonal(y: nat, x: nat)
    requires y < RINGS && x < SEGMENTS
    ensures var ix := PlanetIndices();
            var t := (y * SEGMENTS + x) * 6;
            && t + 6 <= |ix|
            && ix[t] == ix[t + 3] == (y + 1) * ROW + x
            && ix[t + 2] == ix[t + 4] == y * ROW + x + 1
            && {ix[t], ix[t + 1], ix[t + 2], ix[t + 3], ix[t + 4], ix[t + 5]}
               == {y * ROW + x, y * ROW + x + 1, (y + 1) * ROW + x, (y + 1) * ROW + x + 1}
  {
    PlanetIndexAt(y, x, 0);
    PlanetIndexAt(y, x, 1);
    PlanetIndexAt(y, x, 2);
    PlanetIndexAt(y, x, 3);
    PlanetIndexAt(y, x, 4);
    PlanetIndexAt(y, x, 5);
  }

  /** The index list comes in whole triangles, and every one of its entries names
      a vertex of the grid; conversely every grid vertex is used by some triangle. */
  lemma PlanetIndicesCoverGrid()
    ensures |PlanetIndices()| % 3 == 0
    ensures forall k :: 0 <= k < |PlanetIndices()| ==> PlanetIndices()[k] < |PlanetVertices(0.0)|
    ensures forall v :: 0 <= v < VERTEX_COUNT ==> v in PlanetIndices()
  {
    var ix := PlanetIndices();
    forall v | 0 <= v < VERTEX_COUNT
      ensures v in ix
    {
      var y, x := v / ROW, v % ROW;
      assert v == y * ROW + x;
      if y < RINGS && x < SEGMENTS {
        PlanetIndexAt(y, x, 1);
        assert ix[(y * SEGMENTS + x) * 6 + 1] == v;
      } else if y < RINGS {
        PlanetIndexAt(y, SEGMENTS - 1, 2);
        assert ix[(y * SEGMENTS + SEGMENTS - 1) * 6 + 2] == v;
      } else if x < SEGMENTS {
        PlanetIndexAt(RINGS - 1, x, 0);
        assert ix[((RINGS - 1) * SEGMENTS + x) * 6] == v;
      } else {
        PlanetIndexAt(RINGS - 1, SEGMENTS - 1, 5);
        assert ix[((RINGS - 1) * SEGMENTS + SEGMENTS - 1) * 6 + 5] == v;
      }
    }
  }

  /** The model `createPlanetMesh` fills for a body of the given radius. */
  function PlanetModel(radius: real): (m: ModelData)
    ensures |m.vertices| == (RINGS + 1) * (SEGMENTS + 1) && |m.indices| == 6 * RINGS * SEGMENTS
    ensures forall k :: 0 <= k < |m.indices| ==> m.indices[k] < |m.vertices|
  {
    ModelData(PlanetVertices(radius), PlanetIndices())
  }

  // ---------------------------------------------------------------------------
  // createSkyboxMesh: a fixed cube table
  // ---------------------------------------------------------------------------

  const SKYBOX_SIZE: real := 1000.0

  /** The eight cube corners: back face (z = -size) then front face (z = +size),
      each counter-clockwise from (-, -). */
  function SkyboxVertices(): (vs: seq<VertexMesh>)
    ensures |vs| == 8
    ensures forall k :: 0 <= k < 8 ==> vs[k].normal == Coordinates(0.0, 0.0, 0.0)
    ensures forall k :: 0 <= k < 8 ==> vs[k].pos.Coordinates?
    ensures forall k :: 0 <= k < 8 ==> Abs(vs[k].pos.x) == Abs(vs[k].pos.y) == Abs(vs[k].pos.z) == SKYBOX_SIZE
  {
    var n := SKYBOX_SIZE;
    var zero := Coordinates(0.0, 0.0, 0.0);
    [ VertexMesh(Coordinates(-n, -n, -n), zero, 0.0, 0.0),
      VertexMesh(Coordinates(n, -n, -n), zero, 1.0, 0.0),
      VertexMesh(Coordinates(n, n, -n), zero, 1.0, 1.0),
      VertexMesh(Coordinates(-n, n, -n), zero, 0.0, 1.0),
      VertexMesh(Coordinates(-n, -n, n), zero, 0.0, 0.0),
      VertexMesh(Coordinates(n, -n, n), zero, 1.0, 0.0),
      VertexMesh(Coordinates(n, n, n), zero, 1.0, 1.0),
      VertexMesh(Coordinates(-n, n, n), zero, 0.0, 1.0) ]
  }

  /** Six faces of two triangles each. */
  function SkyboxIndices(): (ix: seq<nat>)
    ensures |ix| == 36 && |ix| % 3 == 0
    ensures forall k :: 0 <= k < |ix| ==> ix[k] < |SkyboxVertices()|
    ensures forall v :: 0 <= v < |SkyboxVertices()| ==> v in ix
  {
    var ix := [0, 1, 2, 2, 3, 0,
               1, 5, 6, 6, 2, 1,
               5, 4, 7, 7, 6, 5,
               4, 0, 3, 3, 7, 4,
               3, 2, 6, 6, 7, 3,
               4, 5, 1, 1, 0, 4];
    assert ix[0] == 0 && ix[1] == 1 && ix[2] == 2 && ix[4] == 3;
    assert ix[7] == 5 && ix[8] == 6 && ix[14] == 7;
    ix
  }

  /** A plane of the cube: the coordinate on `axis` equals `sign`·SKYBOX_SIZE. */
  datatype Plane = Plane(axis: Axis, positive: bool)

  predicate OnPlane(v: Vector3, p: Plane)
  {
    var c := if p.positive then SKYBOX_SIZE else -SKYBOX_SIZE;
    v.Coordinates? &&
    match p.axis
    case XAxis => v.x == c
    case YAxis => v.y == c
    case ZAxis => v.z == c
  }

  /** The face drawn by index group `g` of the skybox table. */
  const SKYBOX_FACES: seq<Plane> := [Plane(ZAxis, false), Plane(XAxis, true), Plane(ZAxis, true),
                                     Plane(XAxis, false), Plane(YAxis, true), Plane(YAxis, false)]

  /** Entry `j` of index group `g` of the skybox table (table position 6g + j). */
  function GroupCorner(g: nat, j: nat): (v: nat)
    requires g < 6 && j < 6
    ensures v < |SkyboxVertices()|
  {
    SkyboxIndices()[6 * g + j]
  }

  /** Every vertex index group `g` uses lies in plane `p`. */
  predicate GroupOnPlane(g: nat, p: Plane)
    requires g < 6
  {
    forall j :: 0 <= j < 6 ==> OnPlane(SkyboxVertices()[GroupCorner(g, j)].pos, p)
  }

  /** Each group of six skybox indices draws two triangles lying in one face of the
      cube, the six groups draw six different faces, so the table closes the cube. */
  lemma SkyboxFacesCoverCube()
    ensures |SKYBOX_FACES| * 6 == |SkyboxIndices()|
    ensures forall g :: 0 <= g < 6 ==> GroupOnPlane(g, SKYBOX_FACES[g])
    ensures forall g, h :: 0 <= g < h < 6 ==> SKYBOX_FACES[g] != SKYBOX_FACES[h]
    ensures forall p: Plane :: p in SKYBOX_FACES
  {
    var ix := SkyboxIndices();
    assert ix == [0, 1, 2, 2, 3, 0, 1, 5, 6, 6, 2, 1, 5, 4, 7, 7, 6, 5,
                  4, 0, 3, 3, 7, 4, 3, 2, 6, 6, 7, 3, 4, 5, 1, 1, 0, 4];
    forall g | 0 <= g < 6
      ensures GroupOnPlane(g, SKYBOX_FACES[g])
    {
      forall j | 0 <= j < 6
        ensures OnPlane(SkyboxVertices()[GroupCorner(g, j)].pos, SKYBOX_FACES[g])
      {
        assert g == 0 || g == 1 || g == 2 || g == 3 || g == 4 || g == 5;
        assert j == 0 || j == 1 || j == 2 || j == 3 || j == 4 || j == 5;
      }
    }
    forall p: Plane
      ensures p in SKYBOX_FACES
    {
      match p.axis
      case XAxis => assert p == SKYBOX_FACES[if p.positive then 1 else 3];
      case YAxis => assert p == SKYBOX_FACES[if p.positive then 4 else 5];
      case ZAxis => assert p == SKYBOX_FACES[if p.positive then 2 else 0];
    }
  }

  /** The skybox model `createSkyboxMesh` fills. */
  function SkyboxModel(): (m: ModelData)
    ensures |m.vertices| == 8 && |m.indices| == 36
    ensures forall k :: 0 <= k < |m.indices| ==> m.indices[k] < |m.vertices|
  {
    ModelData(SkyboxVertices(), SkyboxIndices())
  }

  // ---------------------------------------------------------------------------
  // populateCommandBuffer: skybox, sun, then every planet, with no guard
  // ---------------------------------------------------------------------------

  /** The planet loop, iterations 0 .. n-1. */
  function PlanetDraws(planets: seq<Mesh>, n: nat, image: int): seq<Command>
    requires n <= |planets|
    decreases n
  {
    if n == 0 then []
    else PlanetDraws(planets, n - 1, image) + BoundDraw(Planet(n - 1), PlanetPipeline, planets[n - 1], image)
  }

  /** The fixed part of a frame: skybox, sun, then the planet pipeline. */
  function SystemHead(skybox: Mesh, sun: Mesh, image: int): seq<Command>
  {
    [BindPipeline(SkyboxPipeline)] + BoundDraw(Skybox, SkyboxPipeline, skybox, image)
    + [BindPipeline(SunPipeline)] + BoundDraw(Sun, SunPipeline, sun, image)
    + [BindPipeline(PlanetPipeline)]
  }

  /** The commands one frame records. */
  function SystemFrameCommands(skybox: Mesh, sun: Mesh, planets: seq<Mesh>, image: int): seq<Command>
  {
    SystemHead(skybox, sun, image) + PlanetDraws(planets, |planets|, image)
  }

  /** The draws the frame should perform: skybox, sun, planets 0 .. n-1, each
      under its own pipeline and descriptor set at slot `image`. */
  function SystemDraws(skybox: Mesh, sun: Mesh, planets: seq<Mesh>, image: int): (ds: seq<Draw>)
    ensures |ds| == 2 + |planets|
  {
    [DrawOf(Skybox, SkyboxPipeline, skybox, image), DrawOf(Sun, SunPipeline, sun, image)]
    + seq(|planets|, i requires 0 <= i < |planets| => DrawOf(Planet(i), PlanetPipeline, planets[i], image))
  }

  lemma {:induction false} PlanetDrawsReplay(planets: seq<Mesh>, n: nat, image: int, s: BoundState)
    requires n <= |planets| && s.pipeline == Some(PlanetPipeline)
    ensures Draws(PlanetDraws(planets, n, image), s)
            == seq(n, i requires 0 <= i < n => DrawOf(Planet(i), PlanetPipeline, planets[i], image))
    ensures After(PlanetDraws(planets, n, image), s).pipeline == Some(PlanetPipeline)
    decreases n
  {
    if n == 0 {
      assert PlanetDraws(planets, n, image) == [];
    } else {
      var head := PlanetDraws(planets, n - 1, image);
      var last := BoundDraw(Planet(n - 1), PlanetPipeline, planets[n - 1], image);
      PlanetDrawsReplay(planets, n - 1, image, s);
      ReplayAppend(head, last, s);
      BoundDrawReplay(Planet(n - 1), PlanetPipeline, planets[n - 1], image, After(head, s));
    }
  }

  lemma PipelineReplay(p: Pipeline, rest: seq<Command>, s: BoundState)
    ensures Draws([BindPipeline(p)] + rest, s) == Draws(rest, s.(pipeline := Some(p)))
    ensures After([BindPipeline(p)] + rest, s) == After(rest, s.(pipeline := Some(p)))
  {
    ReplayAppend([BindPipeline(p)], rest, s);
    assert [BindPipeline(p)][1..] == [];
  }

  /** Replaying one frame's command list performs exactly the skybox draw, the
      sun draw and the draw of every planet in index order: 2 + n draws, all
      with descriptor sets bound at slot `image`. */
  lemma SystemFrameDrawsInOrder(skybox: Mesh, sun: Mesh, planets: seq<Mesh>, image: int)
    ensures Draws(SystemFrameCommands(skybox, sun, planets, image), UNBOUND) == SystemDraws(skybox, sun, planets, image)
    ensures |Draws(SystemFrameCommands(skybox, sun, planets, image), UNBOUND)| == 2 + |planets|
  {
    var a := BoundDraw(Skybox, SkyboxPipeline, skybox, image);
    var b := BoundDraw(Sun, SunPipeline, sun, image);
    var c := PlanetDraws(planets, |planets|, image);
    var tail := [BindPipeline(PlanetPipeline)] + c;
    var middle := [BindPipeline(SunPipeline)] + (b + tail);
    var whole := [BindPipeline(SkyboxPipeline)] + (a + middle);
    assert SystemFrameCommands(skybox, sun, planets, image) == whole;

    var s1 := UNBOUND.(pipeline := Some(SkyboxPipeline));
    PipelineReplay(SkyboxPipeline, a + middle, UNBOUND);
    ReplayAppend(a, middle, s1);
    BoundDrawReplay(Skybox, SkyboxPipeline, skybox, image, s1);
    var s2 := After(a, s1).(pipeline := Some(SunPipeline));
    PipelineReplay(SunPipeline, b + tail, After(a, s1));
    ReplayAppend(b, tail, s2);
    BoundDrawReplay(Sun, SunPipeline, sun, image, s2);
    var s3 := After(b, s2).(pipeline := Some(PlanetPipeline));
    PipelineReplay(PlanetPipeline, c, After(b, s2));
    PlanetDrawsReplay(planets, |planets|, image, s3);
  }

  // ---------------------------------------------------------------------------
  // updateUniformBuffer: skybox, sun, then every planet
  // ---------------------------------------------------------------------------

  function SystemWrites(n: nat, image: int): seq<UniformWrite>
  {
    [UniformWrite(Skybox, image), UniformWrite(Sun, image)] + PlanetWrites(n, image)
  }

  /** Every descriptor set a frame draws with is the one written that frame, in
      the same order and at the same slot, and no set is written twice. */
  lemma WritesMatchDraws(skybox: Mesh, sun: Mesh, planets: seq<Mesh>, image: int)
    ensures var ws := SystemWrites(|planets|, image);
            var ds := SystemDraws(skybox, sun, planets, image);
            && |ws| == |ds|
            && WritesAt(ws, image)
            && Distinct(Targets(ws))
            && forall k :: 0 <= k < |ws| ==> ds[k].state.descriptor == Some(Binding(ws[k].target, ds[k].state.pipeline.value, ws[k].image))
  {
    var ws := SystemWrites(|planets|, image);
    var ds := SystemDraws(skybox, sun, planets, image);
    PlanetWritesShape(|planets|, image);
    forall k | 2 <= k < |ws|
      ensures ws[k] == UniformWrite(Planet(k - 2), image)
    {
      assert ws[k] == PlanetWrites(|planets|, image)[k - 2];
    }
  }

  /** The time the clock of `updateDeltaT` has reached, scaled by `timeScale`:
      `simulationTime += deltaT * timeScale` split across two frames adds up to
      one frame of the combined length. */
  lemma AdvanceSplits(time: real, a: real, b: real, scale: real)
    ensures Advance(Advance(time, a, scale), b, scale) == Advance(time, a + b, scale)
  {
    calc {
      Advance(Advance(time, a, scale), b, scale);
      time + a * scale + b * scale;
      { assert a * scale + b * scale == (a + b) * scale; }
      time + (a + b) * scale;
    }
  }

  /** `simulationTime` over a run of frames whose clock reads `clock[0]`,
      `clock[1]`, ..., starting from `lastFrameTime == last`. */
  function SimulationTimeRun(time: real, last: real, scale: real, clock: seq<real>): real
    decreases |clock|
  {
    if clock == [] then time
    else SimulationTimeRun(Advance(time, clock[0] - last, scale), clock[0], scale, clock[1..])
  }

  /** With the time scale held, the simulation clock advances by exactly the
      wall-clock time elapsed since the last frame, scaled: rounding aside, no
      frame's time is lost or counted twice. */
  lemma {:induction false} SimulationTimeTelescopes(time: real, last: real, scale: real, clock: seq<real>)
    requires clock != []
    ensures SimulationTimeRun(time, last, scale, clock) == Advance(time, clock[|clock| - 1] - last, scale)
    decreases |clock|
  {
    if |clock| > 1 {
      SimulationTimeTelescopes(Advance(time, clock[0] - last, scale), clock[0], scale, clock[1..]);
      AdvanceSplits(time, clock[0] - last, clock[|clock| - 1] - clock[0], scale);
    }
  }

  // ---------------------------------------------------------------------------
  // processInput: the time scale
  // ---------------------------------------------------------------------------

  const TIME_FACTOR: real := 1.1

  /** UP multiplies the scale by 1.1, then DOWN divides it by 1.1. */
  function ScaleTime(scale: real, up: bool, down: bool): (r: real)
    ensures scale > 0.0 ==> r > 0.0
    ensures scale > 0.0 ==> (r > scale <==> up && !down) && (r < scale <==> down && !up)
    ensures up == down ==> r == scale
  {
    var faster := if up then scale * TIME_FACTOR else scale;
    if down then faster / TIME_FACTOR else faster
  }

  /** TIME_FACTOR to the power n. */
  function Power(n: nat): (r: real)
    ensures r >= 1.0
  {
    if n == 0 then 1.0 else TIME_FACTOR * Power(n - 1)
  }

  /** The time scale after a run of frames with these (UP, DOWN) states. */
  function ScaleRun(scale: real, keys: seq<(bool, bool)>): real
    decreases |keys|
  {
    if keys == [] then scale else ScaleRun(ScaleTime(scale, keys[0].0, keys[0].1), keys[1..])
  }

  function Presses(keys: seq<(bool, bool)>, up: bool): (n: nat)
    ensures n <= |keys|
    decreases |keys|
  {
    if keys == [] then 0
    else (if (if up then keys[0].0 else keys[0].1) then 1 else 0) + Presses(keys[1..], up)
  }

  /** Real multiplication, named so that the run lemma below can be stated
      without handing the solver a nonlinear goal. */
  function Times(a: real, b: real): (r: real)
    ensures a == 0.0 || b == 0.0 ==> r == 0.0
  {
    a * b
  }

  /** One frame of `ScaleRunCounts`: the frame's key states move one factor
      of 1.1 to the side of the equation that counts them. */
  lemma ScaleStep(r: real, pd: real, next: real, pu: real, scale: real, up: bool, down: bool)
    requires Times(r, pd) == Times(next, pu) && next == ScaleTime(scale, up, down)
    ensures Times(r, if down then TIME_FACTOR * pd else pd) == Times(scale, if up then TIME_FACTOR * pu else pu)
  {
    assert r * pd == next * pu;
    if up && !down {
      calc {
        r * pd;
        (scale * TIME_FACTOR) * pu;
        scale * (TIME_FACTOR * pu);
      }
    } else if down && !up {
      assert next * TIME_FACTOR == scale;
      calc {
        r * (TIME_FACTOR * pd);
        TIME_FACTOR * (r * pd);
        TIME_FACTOR * (next * pu);
        (next * TIME_FACTOR) * pu;
      }
    } else if up && down {
      assert next == scale;
      calc {
        r * (TIME_FACTOR * pd);
        TIME_FACTOR * (r * pd);
        TIME_FACTOR * (scale * pu);
      }
    }
  }

  /** After any run of frames the scale is the initial one times 1.1 per frame
      UP was held, divided by 1.1 per frame DOWN was held, so a positive scale
      never reaches zero or flips sign. */
  lemma {:induction false} ScaleRunCounts(scale: real, keys: seq<(bool, bool)>)
    ensures Times(ScaleRun(scale, keys), Power(Presses(keys, false))) == Times(scale, Power(Presses(keys, true)))
    ensures scale > 0.0 ==> ScaleRun(scale, keys) > 0.0
    decreases |keys|
  {
    if keys != [] {
      var up, down := keys[0].0, keys[0].1;
      var next := ScaleTime(scale, up, down);
      var rest := keys[1..];
      ScaleRunCounts(next, rest);
      var r := ScaleRun(scale, keys);
      var u, d := Presses(rest, true), Presses(rest, false);
      var pu, pd := Power(u), Power(d);
      assert r == ScaleRun(next, rest);
      ScaleStep(r, pd, next, pu, scale, up, down);
      assert Presses(keys, true) == (if up then 1 else 0) + u;
      assert Presses(keys, false) == (if down then 1 else 0) + d;
      assert Power(Presses(keys, false)) == if down then TIME_FACTOR * pd else pd;
      assert Power(Presses(keys, true)) == if up then TIME_FACTOR * pu else pu;
    }
  }

  // ---------------------------------------------------------------------------
  // mouseCallback: yaw and clamped pitch from cursor motion
  // ---------------------------------------------------------------------------

  const PITCH_LIMIT: real := 89.0

  /** The two sequential pitch guards. */
  function ClampPitch(pitch: real): (r: real)
    ensures r == Clamp(pitch, -PITCH_LIMIT, PITCH_LIMIT)
  {
    var below := if pitch > PITCH_LIMIT then PITCH_LIMIT else pitch;
    if below < -PITCH_LIMIT then -PITCH_LIMIT else below
  }

  /** `offset *= mouseSensitivity` */
  function Scaled(offset: real, sensitivity: real): (r: real)
    ensures offset == 0.0 ==> r == 0.0
  {
    offset * sensitivity
  }

  /** The fields `mouseCallback` reads and writes. */
  datatype MouseState = MouseState(yaw: real, pitch: real, lastX: real, lastY: real, firstMouse: bool)

  function Look(m: MouseState, sensitivity: real, xpos: real, ypos: real): (r: MouseState)
    ensures -PITCH_LIMIT <= r.pitch <= PITCH_LIMIT
    ensures r.lastX == xpos && r.lastY == ypos && !r.firstMouse
    ensures m.firstMouse ==> r.yaw == m.yaw && r.pitch == Clamp(m.pitch, -PITCH_LIMIT, PITCH_LIMIT)
    ensures -PITCH_LIMIT <= m.pitch <= PITCH_LIMIT && m.firstMouse ==> r.pitch == m.pitch
    ensures !m.firstMouse && ypos == m.lastY && -PITCH_LIMIT <= m.pitch <= PITCH_LIMIT ==> r.pitch == m.pitch
    ensures !m.firstMouse ==> r.yaw - m.yaw == Scaled(xpos - m.lastX, sensitivity)
    ensures !m.firstMouse ==> r.pitch == ClampPitch(m.pitch + Scaled(m.lastY - ypos, sensitivity))
  {
    var lastX := if m.firstMouse then xpos else m.lastX;
    var lastY := if m.firstMouse then ypos else m.lastY;
    var xoffset := Scaled(xpos - lastX, sensitivity);
    var yoffset := Scaled(lastY - ypos, sensitivity);
    MouseState(m.yaw + xoffset, ClampPitch(m.pitch + yoffset), xpos, ypos, false)
  }

  function LookRun(m: MouseState, sensitivity: real, cursor: seq<(real, real)>): MouseState
    decreases |cursor|
  {
    if cursor == [] then m else LookRun(Look(m, sensitivity, cursor[0].0, cursor[0].1), sensitivity, cursor[1..])
  }

  lemma ScaledAdds(a: real, b: real, sensitivity: real)
    ensures Scaled(a, sensitivity) + Scaled(b, sensitivity) == Scaled(a + b, sensitivity)
  {
    assert a * sensitivity + b * sensitivity == (a + b) * sensitivity;
  }

  /** Yaw is never clamped, so after any run of cursor events it has turned by
      the total horizontal travel since the last position seen (or, right after
      the latch, since the first event), scaled by the sensitivity; pitch stays
      within ±89 degrees throughout. */
  lemma {:induction false} YawFollowsCursor(m: MouseState, sensitivity: real, cursor: seq<(real, real)>)
    requires cursor != []
    ensures var r := LookRun(m, sensitivity, cursor);
            var from := if m.firstMouse then cursor[0].0 else m.lastX;
            && r.yaw == m.yaw + Scaled(cursor[|cursor| - 1].0 - from, sensitivity)
            && -PITCH_LIMIT <= r.pitch <= PITCH_LIMIT
            && r.lastX == cursor[|cursor| - 1].0 && r.lastY == cursor[|cursor| - 1].1
            && !r.firstMouse
    decreases |cursor|
  {
    var next := Look(m, sensitivity, cursor[0].0, cursor[0].1);
    if |cursor| > 1 {
      YawFollowsCursor(next, sensitivity, cursor[1..]);
      var from := if m.firstMouse then cursor[0].0 else m.lastX;
      ScaledAdds(cursor[0].0 - from, cursor[|cursor| - 1].0 - cursor[0].0, sensitivity);
    }
  }

  // ---------------------------------------------------------------------------
  // The application object
  // ---------------------------------------------------------------------------

  const WINDOW_WIDTH: nat := 1280
  const WINDOW_HEIGHT: nat := 720

  /** One body read from solarSystemData.json. */
  datatype PlanetData = PlanetData(name: string, distanceFromSun: real, revolutionPeriod: real,
                                   eclipticInclination: real, rotationPeriod: real, axialTilt: real,
                                   radius: real)

  /** The models the planet loop of `localInit` appends, one per planet. */
  function PlanetModels(planets: seq<PlanetData>): (ms: seq<ModelData>)
    ensures |ms| == |planets|
    ensures forall i :: 0 <= i < |planets| ==> ms[i] == PlanetModel(planets[i].radius)
  {
    seq(|planets|, i requires 0 <= i < |planets| => PlanetModel(planets[i].radius))
  }

  /** Once initialised, every draw of a frame covers its whole mesh: 36 indices
      for the skybox, a full sphere grid for the sun and for each planet. */
  lemma InitialisedFrameDrawsWholeMeshes(planets: seq<PlanetData>, image: int)
    requires planets != []
    ensures var ds := SystemDraws(MeshOfModel(SkyboxModel()), MeshOfModel(PlanetModel(planets[0].radius)),
                                  seq(|planets|, i requires 0 <= i < |planets| => MeshOfModel(PlanetModels(planets)[i])), image);
            && |ds| == 2 + |planets|
            && ds[0].indexCount == 36
            && forall k :: 1 <= k < |ds| ==> ds[k].indexCount == INDEX_COUNT
  {
    assert ToU32(36) == 36;
    assert ToU32(INDEX_COUNT) == INDEX_COUNT;
  }

  class SolarSystem {
    var planets: seq<PlanetData>
    var planetModels: seq<ModelData>
    var sunModel: ModelData
    var skyboxModel: ModelData
    var cameraPos: Vector3
    var cameraFront: Vector3
    var cameraUp: Vector3
    var cameraSpeed: real
    var mouseSensitivity: real
    var pitch: real
    var yaw: real
    var firstMouse: bool
    var lastX: real
    var lastY: real
    var lastFrameTime: real
    var deltaT: real
    var simulationTime: real
    var timeScale: real
    var windowShouldClose: bool

    /** What every operation preserves: a positive time scale and a pitch
        inside the clamp. */
    ghost predicate Valid()
      reads this
    {
      timeScale > 0.0 && -PITCH_LIMIT <= pitch <= PITCH_LIMIT
    }

    function Mouse(): (m: MouseState)
      reads this
      ensures m.yaw == yaw && m.pitch == pitch && m.lastX == lastX && m.lastY == lastY && m.firstMouse == firstMouse
    {
      MouseState(yaw, pitch, lastX, lastY, firstMouse)
    }

    /** The meshes of the first `n` planet models. */
    function ModelMeshes(n: nat): (ms: seq<Mesh>)
      reads this
      requires n <= |planetModels|
      ensures |ms| == n
      ensures forall i :: 0 <= i < n ==> ms[i] == MeshOfModel(planetModels[i])
    {
      var models := planetModels;
      seq(n, i requires 0 <= i < n => MeshOfModel(models[i]))
    }

    /** The in-class defaults (`simulationTime = 0`, `timeScale = 1`); the fields
        without one are set by `localInit`, and start at zero here. */
    constructor ()
      ensures Valid()
      ensures planets == [] && planetModels == []
      ensures simulationTime == 0.0 && timeScale == 1.0 && !windowShouldClose
    {
      planets := [];
      planetModels := [];
      sunModel := ModelData([], []);
      skyboxModel := ModelData([], []);
      cameraPos := Coordinates(0.0, 0.0, 0.0);
      cameraFront := Coordinates(0.0, 0.0, 0.0);
      cameraUp := Coordinates(0.0, 0.0, 0.0);
      cameraSpeed := 0.0;
      mouseSensitivity := 0.0;
      pitch := 0.0;
      yaw := 0.0;
      firstMouse := false;
      lastX := 0.0;
      lastY := 0.0;
      lastFrameTime := 0.0;
      deltaT := 0.0;
      simulationTime := 0.0;
      timeScale := 1.0;
      windowShouldClose := false;
    }

    /** `localInit`: take the planets read from the data file, place the camera,
        and build a sphere model per planet, the sun's (sized by the first
        planet's radius) and the skybox cube. */
    method LocalInit(loaded: seq<PlanetData>)
      requires Valid()
      requires |planets| + |loaded| > 0
      modifies this
      ensures Valid()
      ensures planets == old(planets) + loaded
      ensures planetModels == old(planetModels) + PlanetModels(planets)
      ensures sunModel == PlanetModel(planets[0].radius)
      ensures skyboxModel == SkyboxModel()
      ensures cameraPos == Coordinates(0.0, 50.0, 100.0)
      ensures cameraFront == Coordinates(0.0, 0.0, -1.0) && cameraUp == Coordinates(0.0, 1.0, 0.0)
      ensures cameraSpeed == 50.0 && mouseSensitivity == 0.1
      ensures Mouse() == MouseState(-90.0, 0.0, 640.0, 360.0, true)
      ensures lastFrameTime == 0.0 && deltaT == 0.0
      ensures simulationTime == old(simulationTime) && timeScale == old(timeScale)
      ensures windowShouldClose == old(windowShouldClose)
    {
      planets := planets + loaded;
      InitCamera();
      CreatePlanetModels();
      CreateSunModel();
      CreateSkyboxMesh();
    }

    /** The camera part of `localInit`. */
    method InitCamera()
      requires Valid()
      modifies `cameraPos, `cameraFront, `cameraUp, `cameraSpeed, `mouseSensitivity, `pitch, `yaw, `firstMouse,
               `lastX, `lastY, `lastFrameTime, `deltaT
      ensures Valid()
      ensures cameraPos == Coordinates(0.0, 50.0, 100.0)
      ensures cameraFront == Coordinates(0.0, 0.0, -1.0) && cameraUp == Coordinates(0.0, 1.0, 0.0)
      ensures cameraSpeed == 50.0 && mouseSensitivity == 0.1
      ensures Mouse() == MouseState(-90.0, 0.0, 640.0, 360.0, true)
      ensures lastFrameTime == 0.0 && deltaT == 0.0
    {
      cameraPos := Coordinates(0.0, 50.0, 100.0);
      cameraFront := Coordinates(0.0, 0.0, -1.0);
      cameraUp := Coordinates(0.0, 1.0, 0.0);
      cameraSpeed := 50.0;
      mouseSensitivity := 0.1;
      pitch := 0.0;
      yaw := -90.0;
      firstMouse := true;
      lastX := (WINDOW_WIDTH as real) / 2.0;
      lastY := (WINDOW_HEIGHT as real) / 2.0;
      lastFrameTime := 0.0;
      deltaT := 0.0;
    }

    /** The sun part of `localInit`: a sphere of the first planet's radius. */
    method CreateSunModel()
      requires planets != []
      modifies `sunModel
      ensures sunModel == PlanetModel(planets[0].radius)
    {
      var sunVertices := new Vector<VertexMesh>();
      var sunIndices := new Vector<nat>();
      CreatePlanetMesh(planets[0].radius, sunVertices, sunIndices);
      assert sunVertices.elems == PlanetVertices(planets[0].radius) && sunIndices.elems == PlanetIndices();
      sunModel := ModelData(sunVertices.elems, sunIndices.elems);
    }

    /** The planet loop of `localInit`. */
    method CreatePlanetModels()
      modifies `planetModels
      ensures planetModels == old(planetModels) + PlanetModels(planets)
    {
      for i := 0 to |planets|
        invariant planetModels == old(planetModels) + PlanetModels(planets[..i])
      {
        var vertices := new Vector<VertexMesh>();
        var indices := new Vector<nat>();
        CreatePlanetMesh(planets[i].radius, vertices, indices);
        assert vertices.elems == PlanetVertices(planets[i].radius) && indices.elems == PlanetIndices();
        assert PlanetModels(planets[..i + 1]) == PlanetModels(planets[..i]) + [PlanetModel(planets[i].radius)];
        planetModels := planetModels + [ModelData(vertices.elems, indices.elems)];
      }
      assert planets[..|planets|] == planets;
    }

    method CreateSkyboxMesh()
      modifies `skyboxModel
      ensures skyboxModel == SkyboxModel()
    {
      skyboxModel := ModelData(SkyboxVertices(), SkyboxIndices());
    }

    /** `populateCommandBuffer`: indexes `planetModels` for every planet, so the
        caller must have built them. */
    method PopulateCommandBuffer(cb: CommandBuffer, image: int)
      requires |planets| <= |planetModels|
      modifies cb
      ensures cb.commands == old(cb.commands)
              + SystemFrameCommands(MeshOfModel(skyboxModel), MeshOfModel(sunModel), ModelMeshes(|planets|), image)
    {
      ghost var before := cb.commands;
      ghost var ms := ModelMeshes(|planets|);
      RecordHead(cb, MeshOfModel(skyboxModel), MeshOfModel(sunModel), image);
      ghost var head := cb.commands;
      for i := 0 to |planets|
        invariant cb.commands == head + PlanetDraws(ms, i, image)
      {
        RecordBoundDraw(cb, Planet(i), PlanetPipeline, MeshOfModel(planetModels[i]), image);
      }
      Recorded(before, SystemHead(MeshOfModel(skyboxModel), MeshOfModel(sunModel), image),
               PlanetDraws(ms, |ms|, image), cb.commands);
    }

    /** The skybox and sun blocks of `populateCommandBuffer`. */
    method RecordHead(cb: CommandBuffer, skybox: Mesh, sun: Mesh, image: int)
      modifies cb
      ensures cb.commands == old(cb.commands) + SystemHead(skybox, sun, image)
    {
      ghost var before := cb.commands;
      cb.Record(BindPipeline(SkyboxPipeline));
      RecordBoundDraw(cb, Skybox, SkyboxPipeline, skybox, image);
      cb.Record(BindPipeline(SunPipeline));
      RecordBoundDraw(cb, Sun, SunPipeline, sun, image);
      cb.Record(BindPipeline(PlanetPipeline));
      assert cb.commands == before + ([BindPipeline(SkyboxPipeline)] + BoundDraw(Skybox, SkyboxPipeline, skybox, image)
        + [BindPipeline(SunPipeline)] + BoundDraw(Sun, SunPipeline, sun, image) + [BindPipeline(PlanetPipeline)]);
    }

    /** `updateDeltaT`: `now` is the reading of the high-resolution clock. */
    method UpdateDeltaT(now: real)
      modifies `deltaT, `lastFrameTime
      ensures deltaT == now - old(lastFrameTime) && lastFrameTime == now
    {
      deltaT := now - lastFrameTime;
      lastFrameTime := now;
    }

    /** `updateUniformBuffer`: advance the simulation clock by the frame time
        scaled by `timeScale`, then write the skybox, sun and planet sets. */
    method UpdateUniformBuffer(image: int, now: real, mem: UniformMemory)
      requires Valid()
      modifies `deltaT, `lastFrameTime, `simulationTime, mem
      ensures Valid()
      ensures deltaT == now - old(lastFrameTime) && lastFrameTime == now
      ensures simulationTime == Advance(old(simulationTime), deltaT, timeScale)
      ensures now >= old(lastFrameTime) ==> simulationTime >= old(simulationTime)
      ensures mem.writes == old(mem.writes) + SystemWrites(|planets|, image)
    {
      UpdateDeltaT(now);
      simulationTime := Advance(simulationTime, deltaT, timeScale);
      WriteUniforms(mem, image);
    }

    method WriteUniforms(mem: UniformMemory, image: int)
      modifies mem
      ensures mem.writes == old(mem.writes) + SystemWrites(|planets|, image)
    {
      ghost var before := mem.writes;
      mem.Map(Skybox, image);
      mem.Map(Sun, image);
      for i := 0 to |planets|
        invariant mem.writes == before + [UniformWrite(Skybox, image), UniformWrite(Sun, image)] + PlanetWrites(i, image)
      {
        mem.Map(Planet(i), image);
      }
    }

    /** The time-scale and escape part of `processInput`. */
    method ProcessInput(escape: bool, up: bool, down: bool)
      requires Valid()
      modifies `windowShouldClose, `timeScale
      ensures Valid()
      ensures windowShouldClose == (old(windowShouldClose) || escape)
      ensures timeScale == ScaleTime(old(timeScale), up, down)
    {
      if escape {
        windowShouldClose := true;
      }
      if up {
        timeScale := timeScale * TIME_FACTOR;
      }
      if down {
        timeScale := timeScale / TIME_FACTOR;
      }
    }

    /** `mouseCallback`: turn the camera by the cursor's motion since the last
        event, the first event after the latch only recording the position. */
    method MouseCallback(xpos: real, ypos: real)
      requires Valid()
      modifies `yaw, `pitch, `lastX, `lastY, `firstMouse, `cameraFront
      ensures Valid()
      ensures Mouse() == Look(old(Mouse()), mouseSensitivity, xpos, ypos)
      ensures cameraFront == Heading(yaw, pitch)
    {
      if firstMouse {
        lastX := xpos;
        lastY := ypos;
        firstMouse := false;
      }
      var xoffset := xpos - lastX;
      var yoffset := lastY - ypos;
      lastX := xpos;
      lastY := ypos;

      xoffset := Scaled(xoffset, mouseSensitivity);
      yoffset := Scaled(yoffset, mouseSensitivity);

      yaw := yaw + xoffset;
      pitch := pitch + yoffset;

      if pitch > PITCH_LIMIT {
        pitch := PITCH_LIMIT;
      }
      if pitch < -PITCH_LIMIT {
        pitch := -PITCH_LIMIT;
      }

      cameraFront := Heading(yaw, pitch);
    }
  }
}
