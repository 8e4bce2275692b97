/**
 * The ray tracer's render-side core: the projection of scene lines onto the
 * GPU wire record, the per-frame rebuild of the line storage buffer, the
 * bind-group layout of the post-process pipeline, and the guard sequence of
 * the render node that issues the full-screen draw.
 */
module RayTracer {
  import opened Wrappers
  import opened Primitives

  // ---------------------------------------------------------------------------
  // Scene lines and their GPU projection
  // ---------------------------------------------------------------------------

  /** What a line does to a ray: block it, or reflect it with a tint. */
  datatype LineKind = Solid | Mirror(color: Color)

  /** A line segment of the scene, as authored on an entity. */
  datatype Line = Line(a: Vec2, b: Vec2, kind: LineKind)

  /** The record the shader reads from the storage buffer, one per line. */
  datatype ShaderLine = ShaderLine(a: Vec2, b: Vec2, color: Vec4, mirror: U32)

  /**
   * `Line::to_gpu`.  `toVec4` stands for the engine's colour conversion
   * `Color::rgba_to_vec4`, which this model does not interpret.
   */
  function ToGpu(line: Line, toVec4: Color -> Vec4): (g: ShaderLine)
    ensures g.a == line.a && g.b == line.b
    ensures g.mirror == 0 || g.mirror == 1
    ensures g.mirror == 1 <==> line.kind.Mirror?
    ensures line.kind.Solid? ==> g.color == VEC4_ZERO
    ensures line.kind.Mirror? ==> g.color == toVec4(line.kind.color)
  {
    match line.kind
    case Solid => ShaderLine(line.a, line.b, VEC4_ZERO, 0)
    case Mirror(col) => ShaderLine(line.a, line.b, toVec4(col), 1)
  }

  /** A projected record determines the line it came from when the colour conversion is one-to-one. */
  lemma ToGpuInjective(l1: Line, l2: Line, toVec4: Color -> Vec4)
    requires forall c1, c2 :: toVec4(c1) == toVec4(c2) ==> c1 == c2
    requires ToGpu(l1, toVec4) == ToGpu(l2, toVec4)
    ensures l1 == l2
  {
    match l1.kind
    case Solid =>
    case Mirror(c1) =>
      assert toVec4(c1) == toVec4(l2.kind.color);
  }

  /** The GPU records of a sequence of lines, in the same order. */
  function ProjectAll(lines: seq<Line>, toVec4: Color -> Vec4): (gpu: seq<ShaderLine>)
    ensures |gpu| == |lines|
  {
    if lines == [] then [] else [ToGpu(lines[0], toVec4)] + ProjectAll(lines[1..], toVec4)
  }

  /** Entry `k` of the projection is the projection of line `k`. */
  lemma {:induction false} ProjectAllAt(lines: seq<Line>, toVec4: Color -> Vec4, k: nat)
    requires k < |lines|
    ensures ProjectAll(lines, toVec4)[k] == ToGpu(lines[k], toVec4)
  {
    if k > 0 {
      ProjectAllAt(lines[1..], toVec4, k - 1);
    }
  }

  /**
   * Projection distributes over concatenation: lines added after the first
   * `|xs|` leave the first `|xs|` records as they were.
   */
  lemma {:induction false} ProjectAllAppend(xs: seq<Line>, ys: seq<Line>, toVec4: Color -> Vec4)
    ensures ProjectAll(xs + ys, toVec4) == ProjectAll(xs, toVec4) + ProjectAll(ys, toVec4)
  {
    if xs == [] {
      assert xs + ys == ys;
    } else {
      assert (xs + ys)[1..] == xs[1..] + ys;
      ProjectAllAppend(xs[1..], ys, toVec4);
    }
  }

  /** Every record of a projection carries a mirror flag of 0 or 1, and 1 exactly for mirrors. */
  lemma MirrorFlagsAreBinary(lines: seq<Line>, toVec4: Color -> Vec4, k: nat)
    requires k < |lines|
    ensures ProjectAll(lines, toVec4)[k].mirror == (if lines[k].kind.Mirror? then 1 else 0)
  {
    ProjectAllAt(lines, toVec4, k);
  }

  // ---------------------------------------------------------------------------
  // The line storage buffer
  // ---------------------------------------------------------------------------

  /**
   * The `LineBuffer` resource: a storage buffer holding a CPU-side vector of
   * records and the GPU allocation that `write_buffer` copies it into.
   */
  class LineBuffer {
    /** The CPU-side `Vec<ShaderLine>`. */
    var lines: seq<ShaderLine>
    /** The contents of the GPU allocation, as of the last upload. */
    var uploaded: seq<ShaderLine>
    /** How many uploads have been made. */
    var uploads: nat

    /** The GPU holds what the CPU side holds. */
    predicate Synced()
      reads this
    {
      uploaded == lines
    }

    /** `LineBuffer::from_world`: an empty vector, uploaded once. */
    constructor FromWorld()
      ensures lines == [] && Synced() && uploads == 1
    {
      lines := [];
      uploaded := [];
      uploads := 1;
    }

    /** `Vec::clear` on the CPU-side vector. */
    method Clear()
      modifies this`lines
      ensures lines == []
    {
      lines := [];
    }

    /** `Vec::push` on the CPU-side vector. */
    method Push(line: ShaderLine)
      modifies this`lines
      ensures lines == old(lines) + [line]
    {
      lines := lines + [line];
    }

    /** `StorageBuffer::write_buffer`: copy the CPU-side vector to the GPU. */
    method WriteBuffer()
      modifies this`uploaded, this`uploads
      ensures Synced() && uploads == old(uploads) + 1
    {
      uploaded := lines;
      uploads := uploads + 1;
    }
  }

  /**
   * `write_lines_buffer`, run once per frame in the extract schedule: the
   * vector is cleared, refilled with the projection of every queried line in
   * query order, and uploaded exactly once.  Nothing of the old contents
   * survives, so the result depends on `query` alone.
   */
  method WriteLinesBuffer(query: seq<Line>, buffer: LineBuffer, toVec4: Color -> Vec4)
    modifies buffer
    ensures buffer.lines == ProjectAll(query, toVec4)
    ensures |buffer.lines| == |query|
    ensures forall i :: 0 <= i < |query| ==> buffer.lines[i] == ToGpu(query[i], toVec4)
    ensures buffer.Synced() && buffer.uploads == old(buffer.uploads) + 1
  {
    buffer.Clear();
    var i := 0;
    while i < |query|
      invariant 0 <= i <= |query|
      invariant buffer.lines == ProjectAll(query[..i], toVec4)
      invariant buffer.uploads == old(buffer.uploads)
    {
      ProjectAllAppend(query[..i], [query[i]], toVec4);
      assert query[..i + 1] == query[..i] + [query[i]];
      buffer.Push(ToGpu(query[i], toVec4));
      i := i + 1;
    }
    assert query[..i] == query;
    buffer.WriteBuffer();
    forall k | 0 <= k < |query|
      ensures buffer.lines[k] == ToGpu(query[k], toVec4)
    {
      ProjectAllAt(query, toVec4, k);
    }
  }

  /**
   * Two extractions of an unchanged scene: `first` is the vector after the
   * first one, and the second leaves exactly the same records.  An empty
   * scene leaves none.
   */
  method ExtractTwice(query: seq<Line>, buffer: LineBuffer, toVec4: Color -> Vec4) returns (first: seq<ShaderLine>)
    modifies buffer
    ensures buffer.lines == first && buffer.Synced()
    ensures first == ProjectAll(query, toVec4)
    ensures query == [] ==> first == []
    ensures buffer.uploads == old(buffer.uploads) + 2
  {
    WriteLinesBuffer(query, buffer, toVec4);
    first := buffer.lines;
    WriteLinesBuffer(query, buffer, toVec4);
  }

  // ---------------------------------------------------------------------------
  // The post-process pipeline's binding layout
  // ---------------------------------------------------------------------------

  /** The kinds of binding the post-process bind-group layout declares. */
  datatype BindingType =
    | FilterableFloatTexture2d
    | FilteringSampler
    | UniformBuffer(hasDynamicOffset: bool)
    | ReadOnlyStorageBuffer(hasDynamicOffset: bool)

  /**
   * The layout built in `RayTracerPipeline::from_world`: four sequential
   * bindings, all visible to the fragment stage only.
   */
  const POST_PROCESS_LAYOUT: seq<BindingType> := [
    FilterableFloatTexture2d,
    FilteringSampler,
    UniformBuffer(false),
    ReadOnlyStorageBuffer(false)
  ]

  /** GPU handles, identified by number. */
  datatype TextureView = TextureView(id: nat)
  datatype Sampler = Sampler(id: nat)
  datatype BufferBinding = BufferBinding(buffer: nat)
  datatype RenderPipeline = RenderPipeline(id: nat)

  /** A resource placed in a bind group, tagged with what it is bound as. */
  datatype BindGroupEntry =
    | SourceTexture(view: TextureView)
    | LayoutSampler(sampler: Sampler)
    | PlayerUniform(uniform: BufferBinding)
    | LineStorage(storage: BufferBinding)

  /** The layout slot type a bind-group entry fills. */
  function SlotType(e: BindGroupEntry): (t: BindingType)
  {
    match e
    case SourceTexture(_) => FilterableFloatTexture2d
    case LayoutSampler(_) => FilteringSampler
    case PlayerUniform(_) => UniformBuffer(false)
    case LineStorage(_) => ReadOnlyStorageBuffer(false)
  }

  /** Entries fill a layout slot for slot. */
  predicate Conforms(entries: seq<BindGroupEntry>, layout: seq<BindingType>)
  {
    |entries| == |layout| && forall i :: 0 <= i < |entries| ==> SlotType(entries[i]) == layout[i]
  }

  /**
   * `BindGroupEntries::sequential` over (source texture, sampler, player
   * uniform, line storage): the entries fill the pipeline's layout in order.
   */
  function SequentialEntries(source: TextureView, sampler: Sampler, uniform: BufferBinding, lines: BufferBinding): (entries: seq<BindGroupEntry>)
    ensures Conforms(entries, POST_PROCESS_LAYOUT)
    ensures entries[0].SourceTexture? && entries[0].view == source
    ensures entries[1].LayoutSampler? && entries[1].sampler == sampler
    ensures entries[2].PlayerUniform? && entries[2].uniform == uniform
    ensures entries[3].LineStorage? && entries[3].storage == lines
  {
    [SourceTexture(source), LayoutSampler(sampler), PlayerUniform(uniform), LineStorage(lines)]
  }

  /** The `RayTracerPipeline` resource: its sampler and the id of its queued pipeline. */
  datatype RayTracerPipeline = RayTracerPipeline(sampler: Sampler, pipelineId: nat)

  // ---------------------------------------------------------------------------
  // The render node
  // ---------------------------------------------------------------------------

  /** The view's colour target: the current main texture and the spare one. */
  datatype ViewTarget = ViewTarget(main: TextureView, spare: TextureView)

  /** The read/write pair of a post-process step. */
  datatype PostProcessPair = PostProcessPair(source: TextureView, destination: TextureView)

  /** `ViewTarget::post_process_write`: read the current image, write the other texture. */
  function PostProcessWrite(view: ViewTarget): (pair: PostProcessPair)
  {
    PostProcessPair(view.main, view.spare)
  }

  /** The render world as the node reads it. */
  datatype RenderWorld = RenderWorld(
    pipeline: RayTracerPipeline,
    /** Compiled pipelines of the pipeline cache, by id. */
    pipelineCache: map<nat, RenderPipeline>,
    /** The binding of the `ShaderInputs` uniforms, once they exist. */
    inputUniforms: Option<BufferBinding>,
    /** The `LineBuffer` resource, if present, with the binding of its GPU allocation. */
    lineBuffer: Option<Option<BufferBinding>>
  )

  /** A bind group as created: its label, layout and entries. */
  datatype BindGroup = BindGroup(name: string, layout: seq<BindingType>, entries: seq<BindGroupEntry>)

  /** A half-open range `start..end`. */
  datatype Range = Range(start: nat, end: nat)

  /** What the node does observably, in order. */
  datatype Event =
    | TakePostProcessWrite(pair: PostProcessPair)
    | Diagnostic(message: string)
    | CreateBindGroup(group: BindGroup)
    | BeginRenderPass(name: string, target: TextureView)
    | SetRenderPipeline(pipeline: RenderPipeline)
    | SetBindGroup(index: nat, group: BindGroup)
    | Draw(vertices: Range, instances: Range)

  /** The outcome of one frame. */
  datatype Outcome = Drawn | Skipped

  /** The errors a render-graph node may report. */
  datatype NodeRunError = InputSlotError | OutputSlotError | DrawError

  const LINES_BINDING_NOT_FOUND: string := "Lines binding not found"

  /** No bind group is created and no pass is begun or drawn in. */
  predicate NoGpuWork(events: seq<Event>)
  {
    forall i :: 0 <= i < |events| ==>
      !events[i].CreateBindGroup? && !events[i].BeginRenderPass? && !events[i].Draw?
  }

  /** Everything the node needs is ready. */
  predicate Ready(world: RenderWorld)
  {
    world.pipeline.pipelineId in world.pipelineCache &&
    world.inputUniforms.Some? &&
    world.lineBuffer.Some? && world.lineBuffer.value.Some?
  }

  /**
   * `RayTracerNode::run`: a chain of early-return guards followed by the
   * full-screen draw.  `events` is what the call does, in order.
   */
  method Run(view: ViewTarget, world: RenderWorld) returns (r: Result<Outcome, NodeRunError>, events: seq<Event>)
    // every path returns Ok, and the frame is drawn exactly when everything is ready
    ensures r.Ok?
    ensures r.value == Drawn <==> Ready(world)
    // an uncompiled pipeline returns before the post-process pair is taken
    ensures world.pipeline.pipelineId !in world.pipelineCache ==> events == []
    // otherwise the pair is taken first, and exactly once
    ensures world.pipeline.pipelineId in world.pipelineCache ==>
      |events| > 0 && events[0] == TakePostProcessWrite(PostProcessWrite(view)) &&
      forall i :: 0 < i < |events| ==> !events[i].TakePostProcessWrite?
    // a missing uniform binding or line-buffer resource skips silently
    ensures (world.pipeline.pipelineId in world.pipelineCache &&
             (world.inputUniforms.None? || world.lineBuffer.None?)) ==>
      events == [TakePostProcessWrite(PostProcessWrite(view))]
    // a missing line binding is the one skip that reports, once
    ensures (world.pipeline.pipelineId in world.pipelineCache && world.inputUniforms.Some? &&
             world.lineBuffer.Some? && world.lineBuffer.value.None?) ==>
      events == [TakePostProcessWrite(PostProcessWrite(view)), Diagnostic(LINES_BINDING_NOT_FOUND)]
    // a skipped frame creates nothing on the GPU
    ensures r.value == Skipped ==> NoGpuWork(events)
    // a drawn frame binds (source, sampler, uniform, lines) in layout order and draws one triangle
    ensures r.value == Drawn ==>
      var pair := PostProcessWrite(view);
      var group := BindGroup("post_process_bind_group", POST_PROCESS_LAYOUT,
        [SourceTexture(pair.source), LayoutSampler(world.pipeline.sampler),
         PlayerUniform(world.inputUniforms.value), LineStorage(world.lineBuffer.value.value)]);
      Conforms(group.entries, group.layout) &&
      events == [
        TakePostProcessWrite(pair),
        CreateBindGroup(group),
        BeginRenderPass("post_process_pass", pair.destination),
        SetRenderPipeline(world.pipelineCache[world.pipeline.pipelineId]),
        SetBindGroup(0, group),
        Draw(Range(0, 3), Range(0, 1))
      ]
  {
    events := [];
    if world.pipeline.pipelineId !in world.pipelineCache {
      return Ok(Skipped), events;
    }
    var pipeline := world.pipelineCache[world.pipeline.pipelineId];

    var postProcess := PostProcessWrite(view);
    events := events + [TakePostProcessWrite(postProcess)];

    if world.inputUniforms.None? {
      return Ok(Skipped), events;
    }
    var inputBinding := world.inputUniforms.value;

    if world.lineBuffer.None? {
      return Ok(Skipped), events;
    }
    if world.lineBuffer.value.None? {
      events := events + [Diagnostic(LINES_BINDING_NOT_FOUND)];
      return Ok(Skipped), events;
    }
    var lines := world.lineBuffer.value.value;

    var bindGroup := BindGroup("post_process_bind_group", POST_PROCESS_LAYOUT,
      SequentialEntries(postProcess.source, world.pipeline.sampler, inputBinding, lines));
    events := events + [CreateBindGroup(bindGroup)];

    events := events + [BeginRenderPass("post_process_pass", postProcess.destination)];
    events := events + [SetRenderPipeline(pipeline)];
    events := events + [SetBindGroup(0, bindGroup)];
    events := events + [Draw(Range(0, 3), Range(0, 1))];

    return Ok(Drawn), events;
  }

  // ---------------------------------------------------------------------------
  // The player uniform's source component
  // ---------------------------------------------------------------------------

  /** The `ShaderInputs` component: the player's position, moved in place each frame. */
  class ShaderInputs {
    var player: Vec2

    constructor (player: Vec2)
      ensures this.player == player
    {
      this.player := player;
    }
  }
}
