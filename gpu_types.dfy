/** GPU objects as opaque tokens and descriptor records. Nothing here talks to
    a device: a handle is identified by what created it, and the device,
    queue and surface side effects are appended to one event log. */
module GpuTypes {
  import opened Wrappers

  /** The u32 of the source's sizes and counts. */
  type uint32 = x: int | 0 <= x < 0x1_0000_0000

  /** winit's PhysicalSize<u32>. */
  datatype Size = Size(width: uint32, height: uint32)

  /** The clear colour. position_to_color is floating-point trigonometry and
      is not modelled: a colour is identified by the cursor position it was
      computed from. */
  datatype Color = PositionColor(x: real, y: real)

  datatype TextureFormat = SurfaceFormat(id: nat) | DepthFormat
  datatype PresentMode = PresentMode(id: nat)

  /** The part of wgpu's SurfaceConfiguration the core reads or writes. */
  datatype SurfaceConfig = SurfaceConfig(
    format: TextureFormat, width: uint32, height: uint32, presentMode: PresentMode)

  /** Which texture a handle stands for: the decoded tree image, the n-th
      depth texture created by the device, or a frame of the surface. */
  datatype TextureId = TreeTexture | DepthTexture(generation: nat) | SurfaceFrame(frame: nat)

  datatype Texture = Texture(id: TextureId, width: uint32, height: uint32, format: TextureFormat)
  {
    function ViewOf(): TextureView { TextureView(id) }
    function SamplerOf(): Sampler { Sampler(id) }
  }

  datatype TextureView = TextureView(of: TextureId)
  datatype Sampler = Sampler(of: TextureId)

  datatype BufferId = VertexBuffer | IndexBuffer | CameraBuffer | RotatorBuffer | InstancesBuffer

  // ---------------------------------------------------------------------------
  // Bind groups and their layouts

  datatype ShaderStage = VertexStage | FragmentStage
  datatype SampleType = FloatSample(filterable: bool) | DepthSample
  datatype SamplerBindingType = Filtering | Comparison
  datatype BindingType =
    | TextureBinding(sampleType: SampleType)
    | SamplerBinding(kind: SamplerBindingType)
    | UniformBuffer
    | StorageBuffer(readOnly: bool)

  datatype LayoutEntry = LayoutEntry(binding: nat, visibility: ShaderStage, ty: BindingType)
  datatype BindGroupLayout = BindGroupLayout(name: string, entries: seq<LayoutEntry>)

  datatype BindingResource =
    | TextureViewResource(view: TextureView)
    | SamplerResource(sampler: Sampler)
    | WholeBuffer(buffer: BufferId)

  datatype BindGroupEntry = BindGroupEntry(binding: nat, resource: BindingResource)
  datatype BindGroup = BindGroup(name: string, layout: BindGroupLayout, entries: seq<BindGroupEntry>)

  /** A resource of this kind may be bound where the layout declares `ty`. */
  predicate Fits(res: BindingResource, ty: BindingType)
  {
    match res
    case TextureViewResource(_) => ty.TextureBinding?
    case SamplerResource(_) => ty.SamplerBinding?
    case WholeBuffer(_) => ty.UniformBuffer? || ty.StorageBuffer?
  }

  /** A positional form of wgpu's bind-group check: one entry per layout
      entry, the k-th entry with the k-th layout entry's binding number and a
      resource of its declared kind; the layout itself uses each binding
      number once. wgpu pairs entries by binding number, so this is
      stricter. */
  predicate Matches(g: BindGroup)
  {
    && |g.entries| == |g.layout.entries|
    && (forall k :: 0 <= k < |g.entries| ==>
          g.entries[k].binding == g.layout.entries[k].binding
          && Fits(g.entries[k].resource, g.layout.entries[k].ty))
    && (forall k, l :: 0 <= k < l < |g.layout.entries| ==>
          g.layout.entries[k].binding != g.layout.entries[l].binding)
  }

  /** The texture a resource is derived from, if any. */
  function ResourceTexture(res: BindingResource): Option<TextureId>
  {
    match res
    case TextureViewResource(v) => Some(v.of)
    case SamplerResource(s) => Some(s.of)
    case WholeBuffer(_) => None
  }

  /** Every resource of the bind group is derived from texture `t`. */
  predicate RefersOnlyTo(g: BindGroup, t: TextureId)
  {
    forall k :: 0 <= k < |g.entries| ==> ResourceTexture(g.entries[k].resource) == Some(t)
  }

  // ---------------------------------------------------------------------------
  // Vertex layouts and pipelines

  datatype VertexFormat = Float32x2 | Float32x3

  /** Size in bytes of one attribute of this format. */
  function FormatSize(f: VertexFormat): nat
  {
    match f
    case Float32x2 => 8
    case Float32x3 => 12
  }

  datatype VertexStepMode = PerVertex | PerInstance
  datatype VertexAttribute = VertexAttribute(offset: nat, shaderLocation: nat, format: VertexFormat)
  datatype VertexBufferLayout = VertexBufferLayout(
    arrayStride: nat, stepMode: VertexStepMode, attributes: seq<VertexAttribute>)

  datatype BlendState = Replace | AlphaBlending
  datatype CompareFunction = Less | LessEqual | Always
  datatype Face = FrontFace | BackFace
  datatype Winding = Ccw | Cw
  datatype DepthStencilState = DepthStencilState(
    format: TextureFormat, depthWriteEnabled: bool, depthCompare: CompareFunction)

  /** The fields of a render pipeline descriptor the core chooses. The shader
      module is identified by its entry point names. */
  datatype RenderPipeline = RenderPipeline(
    name: string,
    layouts: seq<BindGroupLayout>,
    vertexEntry: string,
    vertexBuffers: seq<VertexBufferLayout>,
    fragmentEntry: string,
    targetFormat: TextureFormat,
    blend: BlendState,
    frontFace: Winding,
    cullMode: Option<Face>,
    depthStencil: Option<DepthStencilState>)

  // ---------------------------------------------------------------------------
  // Command recording

  datatype LoadOp<+T> = Clear(value: T) | Load
  datatype ColorAttachment = ColorAttachment(view: TextureView, load: LoadOp<Color>, store: bool)
  datatype DepthAttachment = DepthAttachment(view: TextureView, depthLoad: LoadOp<real>, depthStore: bool)
  datatype PassDescriptor = PassDescriptor(
    name: string, color: ColorAttachment, depth: Option<DepthAttachment>)

  /** A half-open range start..end, as Rust's Range<u32>. */
  datatype Range = Range(start: nat, end: nat)

  datatype IndexFormat = Uint16 | Uint32

  /** What a render pass records into a command encoder. A pass ends when the
      RenderPass value is dropped; that is recorded as EndRenderPass. */
  datatype Command =
    | BeginRenderPass(pass: PassDescriptor)
    | SetPipeline(pipeline: RenderPipeline)
    | SetBindGroup(slot: nat, group: BindGroup)
    | SetVertexBuffer(slot: nat, buffer: BufferId)
    | SetIndexBuffer(buffer: BufferId, format: IndexFormat)
    | DrawIndexed(indices: Range, baseVertex: int, instances: Range)
    | Draw(vertices: Range, instances: Range)
    | EndRenderPass

  /** wgpu's CommandEncoder: commands are appended in recording order. */
  class CommandEncoder {
    var commands: seq<Command>

    constructor ()
      ensures commands == []
    {
      commands := [];
    }
  }

  /** The device, queue and surface effects the core causes, in order. */
  datatype GpuEvent =
    | SurfaceConfigured(config: SurfaceConfig)
    | BufferWritten(buffer: BufferId, offset: nat)
    | Submitted(commands: seq<Command>)
    | Presented(frame: TextureId)

  class GpuLog {
    var events: seq<GpuEvent>

    constructor ()
      ensures events == []
    {
      events := [];
    }

    /** queue.write_buffer(buffer, offset, _). */
    method WriteBuffer(buffer: BufferId, offset: nat)
      modifies this
      ensures events == old(events) + [BufferWritten(buffer, offset)]
    {
      events := events + [BufferWritten(buffer, offset)];
    }

    /** surface.configure(device, config). */
    method Configure(config: SurfaceConfig)
      modifies this
      ensures events == old(events) + [SurfaceConfigured(config)]
    {
      events := events + [SurfaceConfigured(config)];
    }

    /** queue.submit(once(encoder.finish())). */
    method Submit(commands: seq<Command>)
      modifies this
      ensures events == old(events) + [Submitted(commands)]
    {
      events := events + [Submitted(commands)];
    }

    /** output.present(). */
    method Present(frame: TextureId)
      modifies this
      ensures events == old(events) + [Presented(frame)]
    {
      events := events + [Presented(frame)];
    }
  }
}
