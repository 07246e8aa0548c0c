/** The graphics layer as the simulator sees it: meshes, the commands recorded
    into a Vulkan command buffer, the uniform writes made through a descriptor
    set, and glm matrices kept as symbolic terms. Vulkan and glm themselves are
    not modelled; only what is recorded, in which order, and with which
    arguments. */
module Graphics {

  datatype Option<T> = None | Some(value: T)

  /** Coordinate axes that glm::rotate is called with. */
  datatype Axis = XAxis | YAxis | ZAxis

  /** A glm::mat4 as the term that built it: the numeric entries (and all the
      trigonometry behind a rotation) are not modelled. */
  datatype Matrix =
    | Identity
    | Translation(x: real, y: real, z: real)
    | Rotation(angle: real, axis: Axis)
    | Product(left: Matrix, right: Matrix)

  /** What the draw code asks of a Model<Vertex>: its vertex and index counts. */
  datatype Mesh = Mesh(vertexCount: nat, indexCount: nat)

  /** `!m.vertices.empty() && !m.indices.empty()` */
  predicate Drawable(m: Mesh)
  {
    m.vertexCount > 0 && m.indexCount > 0
  }

  /** The drawable entities of the scene; each owns a mesh and a descriptor set. */
  datatype Entity = Skybox | Sun | Planet(index: nat) | Moon | SaturnRing

  /** The graphics pipelines: skybox, emissive sun, and the shared planet pipeline. */
  datatype Pipeline = SkyboxPipeline | SunPipeline | PlanetPipeline

  /** One recorded command. `BindDescriptorSet(e, p, i)` is `eDS.bind(cb, p, 0, i)`,
      `BindMesh(e)` is `e.bind(cb)`, `DrawIndexed(n)` is `vkCmdDrawIndexed(cb, n, 1, 0, 0, 0)`. */
  datatype Command =
    | BindPipeline(pipeline: Pipeline)
    | BindDescriptorSet(target: Entity, layout: Pipeline, image: int)
    | BindMesh(mesh: Entity)
    | DrawIndexed(indexCount: nat)

  /** One `DescriptorSet::map(currentImage, &ubo, size, 0)` call: the set written
      and the swap-chain slot it targets (the uniform contents are not modelled). */
  datatype UniformWrite = UniformWrite(target: Entity, image: int)

  const U32_MODULUS: nat := 0x1_0000_0000

  /** `static_cast<uint32_t>(n)` on a size_t. */
  function ToU32(n: nat): (r: nat)
    ensures r < U32_MODULUS
    ensures n < U32_MODULUS ==> r == n
    ensures n >= U32_MODULUS ==> r != n
  {
    n % U32_MODULUS
  }

  /** A VkCommandBuffer being recorded: the commands so far, in order. */
  class CommandBuffer {
    var commands: seq<Command>

    constructor ()
      ensures commands == []
    {
      commands := [];
    }

    method Record(c: Command)
      modifies this
      ensures commands == old(commands) + [c]
    {
      commands := commands + [c];
    }
  }

  /** The GPU-visible uniform buffers of every descriptor set, seen as the log
      of writes made to them. */
  class UniformMemory {
    var writes: seq<UniformWrite>

    constructor ()
      ensures writes == []
    {
      writes := [];
    }

    method Map(target: Entity, image: int)
      modifies this
      ensures writes == old(writes) + [UniformWrite(target, image)]
    {
      writes := writes + [UniformWrite(target, image)];
    }
  }

  /** A std::vector that is only ever appended to. */
  class Vector<T> {
    var elems: seq<T>

    constructor ()
      ensures elems == []
    {
      elems := [];
    }

    method PushBack(x: T)
      modifies this
      ensures elems == old(elems) + [x]
    {
      elems := elems + [x];
    }
  }

  // ---------------------------------------------------------------------------
  // Replaying a command list: which pipeline, descriptor set and mesh are bound
  // when each draw executes. This is what a recorded list means to the GPU, and
  // it is the reference the draw sequences are proved against.
  // ---------------------------------------------------------------------------

  datatype Binding = Binding(target: Entity, layout: Pipeline, image: int)

  datatype BoundState = BoundState(pipeline: Option<Pipeline>, descriptor: Option<Binding>, mesh: Option<Entity>)

  /** A draw as executed: the bindings in force and the index count. */
  datatype Draw = Draw(state: BoundState, indexCount: nat)

  const UNBOUND: BoundState := BoundState(None, None, None)

  function Apply(s: BoundState, c: Command): BoundState
  {
    match c
    case BindPipeline(p) => s.(pipeline := Some(p))
    case BindDescriptorSet(e, p, i) => s.(descriptor := Some(Binding(e, p, i)))
    case BindMesh(e) => s.(mesh := Some(e))
    case DrawIndexed(_) => s
  }

  /** The bindings in force after `log` has executed from `s`. */
  function After(log: seq<Command>, s: BoundState): BoundState
    decreases |log|
  {
    if log == [] then s else After(log[1..], Apply(s, log[0]))
  }

  /** The draws `log` performs when executed from `s`, in order. */
  function Draws(log: seq<Command>, s: BoundState): seq<Draw>
    decreases |log|
  {
    if log == [] then []
    else (if log[0].DrawIndexed? then [Draw(s, log[0].indexCount)] else []) + Draws(log[1..], Apply(s, log[0]))
  }

  /** Replaying two lists one after the other is replaying their concatenation. */
  lemma {:induction false} ReplayAppend(a: seq<Command>, b: seq<Command>, s: BoundState)
    ensures Draws(a + b, s) == Draws(a, s) + Draws(b, After(a, s))
    ensures After(a + b, s) == After(b, After(a, s))
    decreases |a|
  {
    if a == [] {
      assert a + b == b;
    } else {
      assert (a + b)[0] == a[0];
      assert (a + b)[1..] == a[1..] + b;
      ReplayAppend(a[1..], b, Apply(s, a[0]));
    }
  }

  /** The draw an entity should get: its own pipeline, its own descriptor set at
      slot `image`, its own mesh, and that mesh's full index count. */
  function DrawOf(e: Entity, p: Pipeline, m: Mesh, image: int): Draw
  {
    Draw(BoundState(Some(p), Some(Binding(e, p, image)), Some(e)), ToU32(m.indexCount))
  }

  /** `eDS.bind(cb, p, 0, image); e.bind(cb); vkCmdDrawIndexed(cb, |indices|, ...)`:
      the three-command block that draws one entity under an already bound pipeline. */
  function BoundDraw(e: Entity, p: Pipeline, m: Mesh, image: int): seq<Command>
  {
    [BindDescriptorSet(e, p, image), BindMesh(e), DrawIndexed(ToU32(m.indexCount))]
  }

  /** Executed under pipeline `p`, the block performs exactly the draw of `e`
      and leaves the pipeline bound. */
  lemma BoundDrawReplay(e: Entity, p: Pipeline, m: Mesh, image: int, s: BoundState)
    requires s.pipeline == Some(p)
    ensures Draws(BoundDraw(e, p, m, image), s) == [DrawOf(e, p, m, image)]
    ensures After(BoundDraw(e, p, m, image), s).pipeline == Some(p)
  {
    var log := BoundDraw(e, p, m, image);
    var s1 := Apply(s, log[0]);
    var s2 := Apply(s1, log[1]);
    assert log[1..][1..] == [log[2]];
    assert [log[2]][1..] == [];
    assert Draws([log[2]], s2) == [Draw(s2, ToU32(m.indexCount))];
    assert After([log[2]], s2) == s2;
  }

  /** Every descriptor-set bind in `log` targets swap-chain slot `image`. */
  predicate BindsAt(log: seq<Command>, image: int)
  {
    forall k :: 0 <= k < |log| && log[k].BindDescriptorSet? ==> log[k].image == image
  }

  /** Every uniform write in `ws` targets swap-chain slot `image`. */
  predicate WritesAt(ws: seq<UniformWrite>, image: int)
  {
    forall k :: 0 <= k < |ws| ==> ws[k].image == image
  }

  /** The descriptor sets written by `ws`, in order. */
  function Targets(ws: seq<UniformWrite>): (t: seq<Entity>)
    ensures |t| == |ws|
    ensures forall k :: 0 <= k < |ws| ==> t[k] == ws[k].target
  {
    seq(|ws|, k requires 0 <= k < |ws| => ws[k].target)
  }

  /** No entity occurs twice. */
  predicate Distinct(es: seq<Entity>)
  {
    forall i, j :: 0 <= i < j < |es| ==> es[i] != es[j]
  }
}
