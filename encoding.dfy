/** An independent reading of a recorded command stream: a subset of the
    checks wgpu applies while a command buffer is encoded. A stream is well
    formed when passes do not nest, every draw happens inside a pass with a
    pipeline set, every bind-group slot of that pipeline filled with a group
    of the layout the pipeline declares at that slot, every vertex buffer the
    pipeline reads bound, an index buffer bound for indexed draws, and the
    pass has a depth attachment exactly when the pipeline has depth-stencil
    state. Attachment formats, draw ranges against buffer sizes and resource
    usage conflicts are not checked. */
module Encoding {
  import opened Wrappers
  import opened GpuTypes

  /** What the encoder knows while recording. */
  datatype Recorder = Recorder(
    inPass: bool,
    hasDepth: bool,
    pipeline: Option<RenderPipeline>,
    groups: map<nat, BindGroup>,
    vertexSlots: set<nat>,
    indexBound: bool)

  const Idle := Recorder(false, false, None, map[], {}, false)

  /** The state lets the bound pipeline draw. */
  predicate ReadyToDraw(r: Recorder)
  {
    && r.inPass
    && r.pipeline.Some?
    && (forall s :: 0 <= s < |r.pipeline.value.layouts| ==>
          s in r.groups && r.groups[s].layout == r.pipeline.value.layouts[s])
    && (forall v :: 0 <= v < |r.pipeline.value.vertexBuffers| ==> v in r.vertexSlots)
  }

  /** One command; None when the command is invalid in the current state. */
  function Step(r: Recorder, c: Command): Option<Recorder>
  {
    match c
    case BeginRenderPass(p) =>
      if r.inPass then None else Some(Recorder(true, p.depth.Some?, None, map[], {}, false))
    case SetPipeline(p) =>
      if !r.inPass || p.depthStencil.Some? != r.hasDepth then None
      else Some(r.(pipeline := Some(p)))
    case SetBindGroup(slot, g) =>
      if !r.inPass then None else Some(r.(groups := r.groups[slot := g]))
    case SetVertexBuffer(slot, _) =>
      if !r.inPass then None else Some(r.(vertexSlots := r.vertexSlots + {slot}))
    case SetIndexBuffer(_, _) =>
      if !r.inPass then None else Some(r.(indexBound := true))
    case DrawIndexed(_, _, _) =>
      if ReadyToDraw(r) && r.indexBound then Some(r) else None
    case Draw(_, _) =>
      if ReadyToDraw(r) then Some(r) else None
    case EndRenderPass =>
      if r.inPass then Some(Idle) else None
  }

  /** Replays a command stream from `r`. */
  function Run(r: Recorder, cmds: seq<Command>): Option<Recorder>
    decreases |cmds|
  {
    if cmds == [] then Some(r)
    else match Step(r, cmds[0])
      case None => None
      case Some(r') => Run(r', cmds[1..])
  }

  /** A command stream that is well formed under the checks modelled here:
      it replays from idle back to idle. */
  predicate WellFormed(cmds: seq<Command>)
  {
    Run(Idle, cmds) == Some(Idle)
  }

  /** Replaying a concatenation replays the first part, then the second. */
  lemma {:induction false} RunAppend(r: Recorder, a: seq<Command>, b: seq<Command>)
    ensures Run(r, a + b) == (match Run(r, a) case None => None case Some(r') => Run(r', b))
    decreases |a|
  {
    if a == [] {
      assert a + b == b;
    } else {
      assert (a + b)[0] == a[0];
      assert (a + b)[1..] == a[1..] + b;
      match Step(r, a[0])
      case None =>
      case Some(r') => RunAppend(r', a[1..], b);
    }
  }

  /** Two well-formed command streams recorded one after the other form a
      well-formed stream. */
  lemma WellFormedAppend(a: seq<Command>, b: seq<Command>)
    requires WellFormed(a) && WellFormed(b)
    ensures WellFormed(a + b)
  {
    RunAppend(Idle, a, b);
  }

  /** Number of render passes a stream opens. */
  function PassCount(cmds: seq<Command>): nat
  {
    if cmds == [] then 0
    else (if cmds[0].BeginRenderPass? then 1 else 0) + PassCount(cmds[1..])
  }

  lemma {:induction false} PassCountAppend(a: seq<Command>, b: seq<Command>)
    ensures PassCount(a + b) == PassCount(a) + PassCount(b)
  {
    if a == [] {
      assert a + b == b;
    } else {
      assert (a + b)[0] == a[0];
      assert (a + b)[1..] == a[1..] + b;
      PassCountAppend(a[1..], b);
    }
  }
}
