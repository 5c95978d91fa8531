/** The render state machine of src/state.rs: resize handling, input
    routing, the per-frame update, and the recording, submission and
    presentation of a frame. */
module RenderState {
  import opened Wrappers
  import opened GpuTypes
  import opened MatrixMonoid
  import Encoding
  import MeshData
  import InstanceGrid
  import DepthOverlay

  /** The largest surface dimension State::resize accepts. */
  const MAX_DIMENSION: uint32 := 8192

  /** The guard of State::resize. */
  predicate Acceptable(s: Size)
  {
    s.width > 0 && s.height > 0 && s.width <= MAX_DIMENSION && s.height <= MAX_DIMENSION
  }

  /** The winit events the core tells apart; every other event is opaque. */
  datatype WindowEvent = CursorMoved(x: real, y: real) | OtherEvent(id: nat)

  /** wgpu::SurfaceError, the failure of surface.get_current_texture(). */
  datatype SurfaceError = Lost | Outdated | Timeout | OutOfMemory

  /** Texture::create_depth_texture (not part of this model beyond this):
      the device's next depth texture, sized from the configuration. */
  function CreateDepthTexture(config: SurfaceConfig, generation: nat): Texture
  {
    Texture(DepthTexture(generation), config.width, config.height, DepthFormat)
  }

  /** The layout of the diffuse texture group: a filterable float texture at
      binding 0 and a filtering sampler at binding 1, fragment-visible. */
  function TextureLayout(): (l: BindGroupLayout)
    ensures |l.entries| == 2
    ensures l.entries[0].binding == 0 && l.entries[0].ty == TextureBinding(FloatSample(true))
    ensures l.entries[1].binding == 1 && l.entries[1].ty == SamplerBinding(Filtering)
    ensures forall k :: 0 <= k < |l.entries| ==> l.entries[k].visibility == FragmentStage
  {
    BindGroupLayout("texture_bind_group_layout", [
      LayoutEntry(0, FragmentStage, TextureBinding(FloatSample(true))),
      LayoutEntry(1, FragmentStage, SamplerBinding(Filtering))
    ])
  }

  /** The diffuse bind group: the tree texture's view and sampler. */
  function DiffuseBindGroup(layout: BindGroupLayout, tree: Texture): (g: BindGroup)
    ensures g.layout == layout
    ensures RefersOnlyTo(g, tree.id)
    ensures layout == TextureLayout() ==> Matches(g)
  {
    BindGroup("diffuse_bind_group", layout, [
      BindGroupEntry(0, TextureViewResource(tree.ViewOf())),
      BindGroupEntry(1, SamplerResource(tree.SamplerOf()))
    ])
  }

  /** State::create_render_scene_pipeline: the layouts in slot order, the
      mesh's vertex layout, a depth test with "less" and depth writes,
      replace blending, back-face culling of clockwise faces. */
  function CreateRenderScenePipeline(config: SurfaceConfig, layouts: seq<BindGroupLayout>): (p: RenderPipeline)
    ensures p.layouts == layouts
    ensures p.vertexBuffers == [MeshData.Desc()]
    ensures p.depthStencil == Some(DepthStencilState(DepthFormat, true, Less))
    ensures p.targetFormat == config.format && p.blend == Replace
  {
    RenderPipeline(
      "Render Pipeline", layouts,
      "vs_main", [MeshData.Desc()],
      "fs_main", config.format, Replace,
      Ccw, Some(BackFace),
      Some(DepthStencilState(DepthFormat, true, Less)))
  }

  /** What run_cubes_pipeline records: a pass clearing the colour target to
      the background and the depth target to 1.0, the scene pipeline, the
      four bind groups at slots 0..3 in order, the mesh's vertex and
      (Uint16) index buffers, and one indexed draw over 0..numIndices and
      0..instanceCount. */
  function ScenePass(
    view: TextureView, background: Color, depth: TextureView, pipeline: RenderPipeline,
    groups: seq<BindGroup>, numIndices: nat, instanceCount: nat): seq<Command>
    requires |groups| == 4
  {
    [ BeginRenderPass(PassDescriptor("Render Pass", ColorAttachment(view, Clear(background), true),
                                     Some(DepthAttachment(depth, Clear(1.0), true)))),
      SetPipeline(pipeline),
      SetBindGroup(0, groups[0]),
      SetBindGroup(1, groups[1]),
      SetBindGroup(2, groups[2]),
      SetBindGroup(3, groups[3]),
      SetVertexBuffer(0, VertexBuffer),
      SetIndexBuffer(IndexBuffer, Uint16),
      DrawIndexed(Range(0, numIndices), 0, Range(0, instanceCount)),
      EndRenderPass ]
  }

  /** The scene pass: colour cleared to the background and stored, depth
      cleared to 1.0 and stored, the pipeline, the groups at slots 0..3 in
      order, vertex buffer at slot 0, a Uint16 index buffer, one indexed
      draw, and the end of the pass. */
  lemma ScenePassShape(
    view: TextureView, background: Color, depth: TextureView, pipeline: RenderPipeline,
    groups: seq<BindGroup>, numIndices: nat, instanceCount: nat)
    requires |groups| == 4
    ensures var cmds := ScenePass(view, background, depth, pipeline, groups, numIndices, instanceCount);
      && |cmds| == 10 && cmds[0].BeginRenderPass? && cmds[9] == EndRenderPass
      && cmds[0].pass.color == ColorAttachment(view, Clear(background), true)
      && cmds[0].pass.depth == Some(DepthAttachment(depth, Clear(1.0), true))
      && cmds[1] == SetPipeline(pipeline)
      && cmds[2] == SetBindGroup(0, groups[0]) && cmds[3] == SetBindGroup(1, groups[1])
      && cmds[4] == SetBindGroup(2, groups[2]) && cmds[5] == SetBindGroup(3, groups[3])
      && cmds[6] == SetVertexBuffer(0, VertexBuffer) && cmds[7] == SetIndexBuffer(IndexBuffer, Uint16)
      && cmds[8] == DrawIndexed(Range(0, numIndices), 0, Range(0, instanceCount))
  {
  }

  /** The scene pass is one well-formed pass when the pipeline declares the
      four groups' layouts in slot order, reads one vertex buffer and has a
      depth-stencil state (the pass has a depth attachment). */
  lemma ScenePassWellFormed(
    view: TextureView, background: Color, depth: TextureView, pipeline: RenderPipeline,
    groups: seq<BindGroup>, numIndices: nat, instanceCount: nat)
    requires |groups| == 4
    requires pipeline.layouts == [groups[0].layout, groups[1].layout, groups[2].layout, groups[3].layout]
    requires |pipeline.vertexBuffers| == 1 && pipeline.depthStencil.Some?
    ensures Encoding.WellFormed(ScenePass(view, background, depth, pipeline, groups, numIndices, instanceCount))
    ensures Encoding.PassCount(ScenePass(view, background, depth, pipeline, groups, numIndices, instanceCount)) == 1
  {
    var cmds := ScenePass(view, background, depth, pipeline, groups, numIndices, instanceCount);
    var r1 := Encoding.Recorder(true, true, None, map[], {}, false);
    var r2 := r1.(pipeline := Some(pipeline));
    var r3 := r2.(groups := map[0 := groups[0]]);
    var r4 := r3.(groups := r3.groups[1 := groups[1]]);
    var r5 := r4.(groups := r4.groups[2 := groups[2]]);
    var r6 := r5.(groups := r5.groups[3 := groups[3]]);
    var r7 := r6.(vertexSlots := {0});
    var r8 := r7.(indexBound := true);
    assert Encoding.ReadyToDraw(r8);
    assert Encoding.Run(r8, cmds[8..]) == Some(Encoding.Idle) by {
      assert cmds[8..][1..] == [EndRenderPass];
      assert [EndRenderPass][1..] == [];
    }
    assert Encoding.Run(r7, cmds[7..]) == Some(Encoding.Idle) by { assert cmds[7..][1..] == cmds[8..]; }
    assert Encoding.Run(r6, cmds[6..]) == Some(Encoding.Idle) by {
      assert cmds[6..][1..] == cmds[7..];
      assert r6.vertexSlots + {0} == {0};
    }
    assert Encoding.Run(r5, cmds[5..]) == Some(Encoding.Idle) by { assert cmds[5..][1..] == cmds[6..]; }
    assert Encoding.Run(r4, cmds[4..]) == Some(Encoding.Idle) by { assert cmds[4..][1..] == cmds[5..]; }
    assert Encoding.Run(r3, cmds[3..]) == Some(Encoding.Idle) by { assert cmds[3..][1..] == cmds[4..]; }
    assert Encoding.Run(r2, cmds[2..]) == Some(Encoding.Idle) by { assert cmds[2..][1..] == cmds[3..]; }
    assert Encoding.Run(r1, cmds[1..]) == Some(Encoding.Idle) by { assert cmds[1..][1..] == cmds[2..]; }
    assert Encoding.PassCount(cmds[8..]) == 0 by {
      assert cmds[8..][1..][1..] == [];
    }
    assert Encoding.PassCount(cmds[6..]) == 0;
    assert Encoding.PassCount(cmds[4..]) == 0;
    assert Encoding.PassCount(cmds[2..]) == 0;
  }

  /** The render state. M is the matrix type of the rotation animator; C is
      the camera state, whose controller and update are foreign code given
      as functions. */
  class State<M(!new), C> {
    var config: SurfaceConfig
    var size: Size
    var backgroundColor: Color
    const renderPipeline: RenderPipeline
    const mesh: MeshData.Mesh
    const textureBindGroup: BindGroup
    var camera: C
    const cameraBindGroup: BindGroup
    /** controller.process_events: the camera's new state and whether the
        event was consumed. */
    const processEvents: (C, WindowEvent) -> (C, bool)
    /** camera_state.update. */
    const updateCamera: C -> C
    const rotator: InstanceGrid.Rotation<M>
    const instances: InstanceGrid.Instances
    var depthTexture: Texture
    /** How many depth textures the device has created before the current one. */
    var depthGeneration: nat
    const depthView: Option<DepthOverlay.DepthView>
    /** The device, queue and surface, seen through their effects. */
    const gpu: GpuLog

    ghost function DepthViews(): set<object>
    {
      if depthView.Some? then {depthView.value} else {}
    }

    /** The invariant: the configuration holds the last accepted size; the
        depth texture is the current generation and has the configured
        dimensions; the overlay's bind group was built from that texture;
        the scene pipeline declares the layouts of the groups bound at
        slots 0..3; the rotator keeps its own invariant. */
    ghost predicate Valid()
      reads this, rotator, DepthViews()
    {
      && rotator.Valid()
      && config.width == size.width && config.height == size.height
      && depthTexture == CreateDepthTexture(config, depthGeneration)
      && (depthView.Some? ==> depthView.value.Valid() && depthView.value.Samples(depthTexture))
      && mesh == MeshData.NewMesh()
      && textureBindGroup.layout == TextureLayout() && Matches(textureBindGroup)
      && rotator.bindGroup.layout == InstanceGrid.RotationLayout() && Matches(rotator.bindGroup)
      && instances.bindGroup.layout == InstanceGrid.InstancesLayout() && Matches(instances.bindGroup)
      && instances.Count() == 20
      && renderPipeline == CreateRenderScenePipeline(config, SlotLayouts())
    }

    /** The four groups of the scene in slot order: texture, camera,
        rotation, instances. */
    function SlotGroups(): (g: seq<BindGroup>)
      ensures |g| == 4
    {
      [textureBindGroup, cameraBindGroup, rotator.bindGroup, instances.bindGroup]
    }

    function SlotLayouts(): (l: seq<BindGroupLayout>)
      ensures |l| == 4 && forall s :: 0 <= s < 4 ==> l[s] == SlotGroups()[s].layout
    {
      [textureBindGroup.layout, cameraBindGroup.layout, rotator.bindGroup.layout, instances.bindGroup.layout]
    }

    /** State::new. The window size, the surface's chosen format and present
        mode, the decoded tree texture, the camera and the two step matrices
        come from code this model does not contain. */
    constructor (
      windowSize: Size, surfaceFormat: TextureFormat, presentMode: PresentMode, tree: Texture,
      cameraLayout: BindGroupLayout, initialCamera: C, cameraBindGroup: BindGroup,
      processEvents: (C, WindowEvent) -> (C, bool), updateCamera: C -> C,
      monoid: Monoid<M>, xStep: M, yStep: M, gpu: GpuLog)
      requires cameraBindGroup.layout == cameraLayout
      modifies gpu
      ensures Valid()
      ensures size == windowSize
      ensures config == SurfaceConfig(surfaceFormat, windowSize.width, windowSize.height, presentMode)
      ensures backgroundColor == PositionColor(0.0, 0.0)
      ensures depthGeneration == 0 && depthView.Some?
      ensures rotator.updates == 0 && rotator.rotation == monoid.one
      ensures camera == initialCamera && this.gpu == gpu
      ensures this.processEvents == processEvents && this.updateCamera == updateCamera
      ensures this.cameraBindGroup == cameraBindGroup
      ensures rotator.monoid == monoid && rotator.step == monoid.mul(xStep, yStep)
      ensures textureBindGroup == DiffuseBindGroup(TextureLayout(), tree)
      ensures instances.transformations
           == InstanceGrid.Grid(InstanceGrid.PER_ROW, InstanceGrid.PER_COL, InstanceGrid.DX, InstanceGrid.DY)
      ensures |instances.buffer| == |instances.transformations|
      ensures forall k :: 0 <= k < |instances.buffer| ==>
        instances.buffer[k] == InstanceGrid.PodMatrix(instances.transformations[k])
      ensures instances.layout == InstanceGrid.InstancesLayout()
      ensures instances.bindGroup == InstanceGrid.InstancesBindGroup(instances.layout)
      ensures rotator.bindGroup == InstanceGrid.RotationBindGroup(InstanceGrid.RotationLayout())
      ensures depthView.value.pipeline
           == DepthOverlay.CreateDepthRenderPipeline(surfaceFormat, [DepthOverlay.DepthLayout()])
      ensures gpu.events == old(gpu.events) + [SurfaceConfigured(config)]
      ensures fresh(rotator) && fresh(instances) && fresh(depthView.value)
    {
      var cfg := SurfaceConfig(surfaceFormat, windowSize.width, windowSize.height, presentMode);
      gpu.Configure(cfg);
      var depth := CreateDepthTexture(cfg, 0);
      var rot := new InstanceGrid.Rotation(monoid, xStep, yStep, InstanceGrid.RotationLayout());
      var inst := new InstanceGrid.Instances();
      var layouts := [TextureLayout(), cameraLayout, InstanceGrid.RotationLayout(), inst.layout];
      var dv := new DepthOverlay.DepthView(cfg.format, depth);
      this.config := cfg;
      this.size := windowSize;
      this.backgroundColor := PositionColor(0.0, 0.0);
      this.renderPipeline := CreateRenderScenePipeline(cfg, layouts);
      this.mesh := MeshData.NewMesh();
      this.textureBindGroup := DiffuseBindGroup(TextureLayout(), tree);
      this.camera := initialCamera;
      this.cameraBindGroup := cameraBindGroup;
      this.processEvents := processEvents;
      this.updateCamera := updateCamera;
      this.rotator := rot;
      this.instances := inst;
      this.depthTexture := depth;
      this.depthGeneration := 0;
      this.depthView := Some(dv);
      this.gpu := gpu;
    }

    /** State::resize. A size with both dimensions in (0, 8192] becomes the
        size and the configured size, the surface is reconfigured, a new
        depth texture of that size replaces the old one and a present
        overlay rebuilds its bind group from it. Any other size changes
        nothing. */
    method Resize(newSize: Size)
      requires Valid()
      modifies this`size, this`config, this`depthTexture, this`depthGeneration, gpu, DepthViews()
      ensures Valid()
      ensures Acceptable(newSize) ==>
        && size == newSize
        && config == old(config).(width := newSize.width, height := newSize.height)
        && gpu.events == old(gpu.events) + [SurfaceConfigured(config)]
        && depthGeneration == old(depthGeneration) + 1
        && depthTexture.id == DepthTexture(depthGeneration)
        && depthTexture.width == newSize.width && depthTexture.height == newSize.height
        && (depthView.Some? ==> depthView.value.Samples(depthTexture))
      ensures !Acceptable(newSize) ==>
        && size == old(size) && config == old(config)
        && depthTexture == old(depthTexture) && depthGeneration == old(depthGeneration)
        && gpu.events == old(gpu.events)
        && unchanged(DepthViews())
    {
      if Acceptable(newSize) {
        size := newSize;
        config := config.(width := newSize.width);
        config := config.(height := newSize.height);
        gpu.Configure(config);
        depthGeneration := depthGeneration + 1;
        depthTexture := CreateDepthTexture(config, depthGeneration);
        match depthView {
          case Some(dv) => dv.SetDepthTexture(depthTexture);
          case None =>
        }
      }
    }

    /** State::input. A cursor move sets the background colour from the
        position and is consumed; any other event goes to the camera
        controller, whose answer is returned. */
    method Input(event: WindowEvent) returns (consumed: bool)
      requires Valid()
      modifies this`backgroundColor, this`camera
      ensures Valid()
      ensures event.CursorMoved? ==>
        consumed && backgroundColor == PositionColor(event.x, event.y) && camera == old(camera)
      ensures !event.CursorMoved? ==>
        (camera, consumed) == processEvents(old(camera), event) && backgroundColor == old(backgroundColor)
    {
      match event {
        case CursorMoved(x, y) =>
          backgroundColor := PositionColor(x, y);
          consumed := true;
        case OtherEvent(_) =>
          var answer := processEvents(camera, event);
          camera, consumed := answer.0, answer.1;
      }
    }

    /** State::update: the camera, then the rotator. */
    method Update()
      requires Valid()
      modifies this`camera, rotator, gpu
      ensures Valid()
      ensures camera == updateCamera(old(camera))
      ensures rotator.rotation == rotator.monoid.mul(old(rotator.rotation), rotator.step)
      ensures rotator.updates == old(rotator.updates) + 1
      ensures gpu.events == old(gpu.events) + [BufferWritten(RotatorBuffer, 0)]
    {
      camera := updateCamera(camera);
      rotator.Update(gpu);
    }

    /** The main pass of this state, drawn into `view`. */
    function MainPass(view: TextureView): seq<Command>
      reads this
    {
      ScenePass(view, backgroundColor, depthTexture.ViewOf(), renderPipeline, SlotGroups(),
                mesh.numIndices, instances.Count())
    }

    /** Everything render records for one frame: the main pass, then the
        overlay pass if there is an overlay. */
    function FrameCommands(view: TextureView): seq<Command>
      reads this, DepthViews()
    {
      MainPass(view) +
        match depthView
        case Some(dv) => DepthOverlay.OverlayPass(view, dv.pipeline, dv.depthTextureBindGroup)
        case None => []
    }

    /** State::run_cubes_pipeline: appends the main pass to the encoder. */
    method RunCubesPipeline(view: TextureView, encoder: CommandEncoder)
      modifies encoder
      ensures encoder.commands == old(encoder.commands) + MainPass(view)
    {
      encoder.commands := encoder.commands + MainPass(view);
    }

    /** State::render. If the surface texture cannot be acquired the error is
        returned and nothing is recorded, submitted or presented. Otherwise
        one command buffer holding the main pass and then the overlay pass is
        submitted, and then the frame is presented. Nothing of the state
        changes. */
    method Render(acquired: Result<nat, SurfaceError>) returns (r: Result<(), SurfaceError>)
      requires Valid()
      modifies gpu
      ensures Valid()
      ensures acquired.Failure? ==> r == Failure(acquired.error) && gpu.events == old(gpu.events)
      ensures acquired.Success? ==>
        && r == Success(())
        && gpu.events == old(gpu.events) + [
             Submitted(FrameCommands(TextureView(SurfaceFrame(acquired.value)))),
             Presented(SurfaceFrame(acquired.value))]
    {
      if acquired.Failure? {
        return Failure(acquired.error);
      }
      var output := SurfaceFrame(acquired.value);
      var view := TextureView(output);
      var encoder := new CommandEncoder();
      RunCubesPipeline(view, encoder);
      assert encoder.commands == MainPass(view);
      match depthView {
        case Some(dv) => dv.Render(view, encoder);
        case None =>
      }
      assert encoder.commands == FrameCommands(view);
      gpu.Submit(encoder.commands);
      gpu.Present(output);
      r := Success(());
    }
  }

  /** Every frame a valid state records is a well-formed command buffer with
      one pass, or two when the overlay is present. */
  lemma FrameWellFormed<M(!new), C>(s: State<M, C>, view: TextureView)
    requires s.Valid()
    ensures Encoding.WellFormed(s.FrameCommands(view))
    ensures Encoding.PassCount(s.FrameCommands(view)) == if s.depthView.Some? then 2 else 1
  {
    var main := s.MainPass(view);
    ScenePassWellFormed(view, s.backgroundColor, s.depthTexture.ViewOf(), s.renderPipeline, s.SlotGroups(),
                        s.mesh.numIndices, s.instances.Count());
    match s.depthView {
      case Some(dv) =>
        var overlay := DepthOverlay.OverlayPass(view, dv.pipeline, dv.depthTextureBindGroup);
        DepthOverlay.OverlayPassWellFormed(view, dv.pipeline, dv.depthTextureBindGroup);
        Encoding.WellFormedAppend(main, overlay);
        Encoding.PassCountAppend(main, overlay);
      case None =>
        assert s.FrameCommands(view) == main;
    }
  }

  /** In a frame with the overlay, the overlay pass comes after the main
      pass and samples exactly the depth texture the main pass clears and
      writes: the current one, never a stale generation. */
  lemma OverlayReadsMainDepth<M(!new), C>(s: State<M, C>, view: TextureView)
    requires s.Valid() && s.depthView.Some?
    ensures |s.MainPass(view)| == 10 && |s.FrameCommands(view)| == 15
    ensures s.FrameCommands(view)[0].BeginRenderPass?
    ensures s.FrameCommands(view)[0].pass.depth
         == Some(DepthAttachment(TextureView(DepthTexture(s.depthGeneration)), Clear(1.0), true))
    ensures s.FrameCommands(view)[10].BeginRenderPass?
    ensures s.FrameCommands(view)[10].pass.depth.None?
    ensures s.FrameCommands(view)[10].pass.color.load.Load?
    ensures s.FrameCommands(view)[12].SetBindGroup? && s.FrameCommands(view)[12].slot == 0
    ensures RefersOnlyTo(s.FrameCommands(view)[12].group, DepthTexture(s.depthGeneration))
  {
  }

  /** The main pass clears depth to 1.0, binds the texture, camera, rotation
      and instance groups at slots 0, 1, 2 and 3 in that order, and draws
      the 36 indices of the cube (12 triangles) over all 20 instances. */
  lemma MainPassShape<M(!new), C>(s: State<M, C>, view: TextureView)
    requires s.Valid()
    ensures |s.MainPass(view)| == 10
    ensures s.MainPass(view)[0].pass.depth.Some? && s.MainPass(view)[0].pass.depth.value.depthLoad == Clear(1.0)
    ensures s.MainPass(view)[0].pass.color.load == Clear(s.backgroundColor)
    ensures s.MainPass(view)[2] == SetBindGroup(0, s.textureBindGroup)
    ensures s.MainPass(view)[3] == SetBindGroup(1, s.cameraBindGroup)
    ensures s.MainPass(view)[4] == SetBindGroup(2, s.rotator.bindGroup)
    ensures s.MainPass(view)[5] == SetBindGroup(3, s.instances.bindGroup)
    ensures s.MainPass(view)[8] == DrawIndexed(Range(0, 36), 0, Range(0, 20))
  {
  }
}
