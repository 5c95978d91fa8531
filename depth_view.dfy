/** The depth-buffer overlay of src/depth_view.rs: a second pipeline that
    draws one full-screen triangle sampling the depth texture over the
    already-drawn colour target. */
module DepthOverlay {
  import opened Wrappers
  import opened GpuTypes
  import Encoding

  /** The layout built in DepthView::new: binding 0 a depth-sample texture,
      binding 1 a comparison sampler, both visible to the fragment stage. */
  function DepthLayout(): (l: BindGroupLayout)
    ensures |l.entries| == 2
    ensures l.entries[0].binding == 0 && l.entries[0].ty == TextureBinding(DepthSample)
    ensures l.entries[1].binding == 1 && l.entries[1].ty == SamplerBinding(Comparison)
    ensures forall k :: 0 <= k < |l.entries| ==> l.entries[k].visibility == FragmentStage
  {
    BindGroupLayout("depth_texture_bind_group_layout", [
      LayoutEntry(0, FragmentStage, TextureBinding(DepthSample)),
      LayoutEntry(1, FragmentStage, SamplerBinding(Comparison))
    ])
  }

  /** DepthView::create_bind_group: binding 0 is the texture's view, binding
      1 its sampler. The group only refers to that texture, and it fits the
      depth layout. */
  function CreateBindGroup(layout: BindGroupLayout, depthTexture: Texture): (g: BindGroup)
    ensures g.layout == layout
    ensures |g.entries| == 2
    ensures g.entries[0] == BindGroupEntry(0, TextureViewResource(depthTexture.ViewOf()))
    ensures g.entries[1] == BindGroupEntry(1, SamplerResource(depthTexture.SamplerOf()))
    ensures RefersOnlyTo(g, depthTexture.id)
    ensures layout == DepthLayout() ==> Matches(g)
  {
    BindGroup("depth_texture_bind_group", layout, [
      BindGroupEntry(0, TextureViewResource(depthTexture.ViewOf())),
      BindGroupEntry(1, SamplerResource(depthTexture.SamplerOf()))
    ])
  }

  /** DepthView::create_depth_render_pipeline: no vertex buffers, no
      depth-stencil state, alpha blending onto the target format. */
  function CreateDepthRenderPipeline(targetFormat: TextureFormat, layouts: seq<BindGroupLayout>): (p: RenderPipeline)
    ensures p.layouts == layouts
    ensures p.vertexBuffers == [] && p.depthStencil == None
    ensures p.blend == AlphaBlending && p.targetFormat == targetFormat
  {
    RenderPipeline(
      "Depth View Pipeline", layouts,
      "depth_view_vs", [],
      "depth_view_fs", targetFormat, AlphaBlending,
      Ccw, Some(BackFace), None)
  }

  /** What DepthView::render records: a pass that loads (does not clear) the
      colour attachment and has no depth attachment, the overlay pipeline,
      the depth bind group at slot 0, and a draw of vertices 0..3 and
      instance 0..1. */
  function OverlayPass(view: TextureView, pipeline: RenderPipeline, group: BindGroup): seq<Command>
  {
    [ BeginRenderPass(PassDescriptor("Depth View Render Pass", ColorAttachment(view, Load, true), None)),
      SetPipeline(pipeline),
      SetBindGroup(0, group),
      Draw(Range(0, 3), Range(0, 1)),
      EndRenderPass ]
  }

  /** The overlay pass loads (does not clear) the colour target, has no
      depth attachment, binds the group at slot 0 and draws vertices 0..3 of
      instance 0..1. */
  lemma OverlayPassShape(view: TextureView, pipeline: RenderPipeline, group: BindGroup)
    ensures var cmds := OverlayPass(view, pipeline, group);
      && |cmds| == 5 && cmds[0].BeginRenderPass? && cmds[4] == EndRenderPass
      && cmds[0].pass.color == ColorAttachment(view, Load, true) && cmds[0].pass.depth.None?
      && cmds[1] == SetPipeline(pipeline) && cmds[2] == SetBindGroup(0, group)
      && cmds[3] == Draw(Range(0, 3), Range(0, 1))
  {
  }

  /** The overlay pass is one well-formed pass whenever the pipeline's only
      layout is the group's and the pipeline has no vertex buffers and no
      depth-stencil state. */
  lemma OverlayPassWellFormed(view: TextureView, pipeline: RenderPipeline, group: BindGroup)
    requires pipeline.layouts == [group.layout]
    requires pipeline.vertexBuffers == [] && pipeline.depthStencil.None?
    ensures Encoding.WellFormed(OverlayPass(view, pipeline, group))
    ensures Encoding.PassCount(OverlayPass(view, pipeline, group)) == 1
  {
    var cmds := OverlayPass(view, pipeline, group);
    var r1 := Encoding.Recorder(true, false, None, map[], {}, false);
    var r2 := r1.(pipeline := Some(pipeline));
    var r3 := r2.(groups := map[0 := group]);
    assert Encoding.Step(r3, cmds[3]) == Some(r3);
    assert Encoding.Run(r3, cmds[3..]) == Some(Encoding.Idle) by {
      assert cmds[3..][1..] == [EndRenderPass];
      assert [EndRenderPass][1..] == [];
    }
    assert cmds[2..][1..] == cmds[3..];
    assert cmds[1..][1..] == cmds[2..];
    assert Encoding.Run(r1, cmds[1..]) == Some(Encoding.Idle);
    assert cmds[1..][1..][1..][1..][1..] == [];
    assert cmds[3..][1..][1..] == [];
    assert Encoding.PassCount(cmds[3..]) == 0;
    assert Encoding.PassCount(cmds[1..]) == 0;
  }

  class DepthView {
    const pipeline: RenderPipeline
    const depthTextureBindGroupLayout: BindGroupLayout
    var depthTextureBindGroup: BindGroup

    /** The pipeline reads one group of the depth layout, and the current
        group has that layout and fits it. */
    ghost predicate Valid()
      reads this
    {
      && depthTextureBindGroupLayout == DepthLayout()
      && pipeline.layouts == [depthTextureBindGroupLayout]
      && pipeline.vertexBuffers == [] && pipeline.depthStencil.None?
      && depthTextureBindGroup.layout == depthTextureBindGroupLayout
      && Matches(depthTextureBindGroup)
    }

    /** The overlay's bind group was built from texture t. */
    ghost predicate Samples(t: Texture)
      reads this
    {
      depthTextureBindGroup == CreateBindGroup(depthTextureBindGroupLayout, t)
    }

    /** DepthView::new: the layout, the pipeline over it, and a bind group
        built from the depth texture it is given. */
    constructor (targetFormat: TextureFormat, depthTexture: Texture)
      ensures Valid() && Samples(depthTexture)
      ensures depthTextureBindGroupLayout == DepthLayout()
      ensures pipeline == CreateDepthRenderPipeline(targetFormat, [DepthLayout()])
    {
      depthTextureBindGroupLayout := DepthLayout();
      pipeline := CreateDepthRenderPipeline(targetFormat, [DepthLayout()]);
      depthTextureBindGroup := CreateBindGroup(DepthLayout(), depthTexture);
    }

    /** DepthView::set_depth_texture: only the bind group is replaced, by one
        built from the new texture with the same layout. */
    method SetDepthTexture(depthTexture: Texture)
      requires Valid()
      modifies this
      ensures Valid() && Samples(depthTexture)
    {
      depthTextureBindGroup := CreateBindGroup(depthTextureBindGroupLayout, depthTexture);
    }

    /** DepthView::render: appends the overlay pass to the encoder. */
    method Render(view: TextureView, encoder: CommandEncoder)
      requires Valid()
      modifies encoder
      ensures encoder.commands == old(encoder.commands) + OverlayPass(view, pipeline, depthTextureBindGroup)
      ensures Encoding.WellFormed(OverlayPass(view, pipeline, depthTextureBindGroup))
    {
      OverlayPassWellFormed(view, pipeline, depthTextureBindGroup);
      encoder.commands := encoder.commands + OverlayPass(view, pipeline, depthTextureBindGroup);
    }
  }
}
