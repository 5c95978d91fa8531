# A verified model of the wgpu cube demo's render core

The demo draws a textured cube 20 times: once per cell of a translation grid.
A rotation uniform is advanced every frame. An optional overlay pass draws the
depth buffer over the finished frame. This project models the discrete logic
under that GPU plumbing, with every GPU handle treated as an opaque token:

- **`RenderState`** (src/state.rs) covers the `State` object:
  - construction;
  - `resize`, a guarded update that recreates the depth texture and rebuilds the overlay's bind group;
  - `input`, which routes events;
  - `update`, which advances the camera and then the rotation;
  - `render`, which records the scene pass and then the overlay pass into one encoder, submits once and presents.
- **`DepthOverlay`** (src/depth_view.rs) covers `DepthView`: its layout, bind group and pipeline, and the pass it records.
- **`InstanceGrid`** (src/instances.rs) covers:
  - the `Rotation` accumulator;
  - the nested loop of `Instances::new`, which builds (4+1)×4 = 20 translation matrices in row-major order;
  - `Instances::count`.
- **`RotatorAnim`** (src/rotator.rs) covers `Rotator`, a duplicate of `Rotation`.
- **`MeshData`** (src/mesh.rs) covers the vertex and index constants, `Mesh::new` and the vertex layout of `Vertex::desc`.

Supporting modules:
- **`GpuTypes`** holds the descriptors as values, the command encoder and `GpuLog`. `GpuLog` is one ordered log of what the device, queue and surface are asked to do: surface configurations, buffer writes, submissions and presents.
- **`Encoding`** replays a recorded command stream and applies a subset of the checks wgpu makes while a command buffer is encoded:
  - passes do not nest;
  - each draw has a pipeline, groups of the pipeline's layouts at every slot and its vertex buffers bound;
  - an indexed draw also has an index buffer;
  - a pass has a depth attachment exactly when the pipeline has depth-stencil state.

  The recorded frames are proved well formed against this replay, and "well formed" means only these checks (see "## Left out").
- **`MatrixMonoid`** models the rotation matrices as an abstract monoid, an associative product with an identity. Under that abstraction, `k` updates give `rotation == step^k`.
- **`Wrappers`** holds `Option` and `Result`.

How things are modelled:
- Depth textures carry a generation number: the device's count of depth textures created before them. This makes "the overlay samples the current depth texture" a checkable equation.
- The camera state and its controller are foreign code. They are given to `State` as a value and two functions: the controller's event handling and the camera update.
- Acquiring the surface texture is given to `render` as its outcome, either a frame number or a `SurfaceError`.

## Model

| member | source | states |
|---|---|---|
| `RenderState.State.constructor` | src/state.rs:36-182 | The configuration holds the window size and the chosen format and present mode. The surface is configured once. The background comes from position (0, 0). The depth texture is generation 0 at the configured size. The overlay is present and samples that texture. The diffuse group is built from the tree texture. The controller functions and the camera group are the ones passed in. The rotator's step is x_step * y_step, its rotation is the identity, and its group binds the rotator buffer over the rotation layout. The instances are the 5×4 grid, their storage buffer holds those matrices in the same order, and their group binds that buffer over the instances layout. The overlay pipeline is the alpha-blended depth-view pipeline for the surface format. These fields are constants, so the facts hold for the state's whole life. The invariant holds. |
| `RenderState.State.Resize` | src/state.rs:252-266 | Takes effect iff both dimensions are in (0, 8192]. When it does: size and config dimensions equal the request; the surface is reconfigured once; a new depth-texture generation of exactly that size replaces the old one; a present overlay's bind group is rebuilt from it, and an absent one stays absent. Otherwise size, config, depth texture, generation, overlay and the GPU log are unchanged. The invariant holds either way. |
| `RenderState.State.Input` | src/state.rs:268-278 | A cursor move sets the background from the position, returns true and leaves the camera alone. Any other event leaves the background alone; the camera and the returned flag are the controller's answer. Nothing else changes. |
| `RenderState.State.Update` | src/state.rs:280-283 | The camera becomes its update. The rotation is multiplied on the right by its step, and the rotator buffer is written at offset 0. Nothing else changes. |
| `RenderState.State.RunCubesPipeline` | src/state.rs:285-316 | Appends exactly the main pass to the encoder. |
| `RenderState.State.Render` | src/state.rs:318-337 | An acquisition failure is returned unchanged, and nothing is submitted or presented. On success, one submission holding the main pass followed by the overlay pass (when present) is logged, and then the frame's present. The state and the animators are unchanged. |
| `RenderState.TextureLayout` | src/state.rs:103-126 | Binding 0 is a filterable float texture and binding 1 a filtering sampler, both visible to the fragment stage. |
| `RenderState.ScenePassShape` | src/state.rs:286-314 | The scene pass clears colour to the background and depth to 1.0, storing both. It sets the pipeline, binds the four groups at slots 0..3 in order, binds the vertex buffer at slot 0 and a Uint16 index buffer, draws indices 0..numIndices over instances 0..instanceCount, and ends the pass. |
| `RenderState.ScenePassWellFormed` | src/state.rs:285-316 | The scene pass is one well-formed pass when the pipeline declares the four bound groups' layouts in slot order, reads one vertex buffer and has depth-stencil state. |
| `RenderState.FrameWellFormed` | src/state.rs:328-333 | Every frame a valid state records is a well-formed command buffer. It holds two passes with the overlay and one without. |
| `RenderState.OverlayReadsMainDepth` | src/state.rs:296-303 | With the overlay, the main pass (first) clears and stores the current depth-texture generation. The overlay pass (after it) loads the colour target, has no depth attachment, and binds at slot 0 a group that refers only to that same generation. |
| `RenderState.MainPassShape` | src/state.rs:286-314 | The main pass clears colour to the background and depth to 1.0. It binds texture, camera, rotation and instance groups at slots 0 to 3 in order, and draws indices 0..36 over instances 0..20. |
| `RenderState.DiffuseBindGroup` | src/state.rs:128-143 | The diffuse group refers only to the tree texture and fits the texture layout. |
| `RenderState.CreateRenderScenePipeline` | src/state.rs:184-246 | The scene pipeline has the given layouts, the mesh's vertex layout, a depth test with "less" and depth writes, replace blending and the surface format. |
| `DepthOverlay.DepthLayout` | src/depth_view.rs:15-35 | Binding 0 is a depth-sample texture and binding 1 a comparison sampler, both visible to the fragment stage. |
| `DepthOverlay.OverlayPassShape` | src/depth_view.rs:115-132 | The overlay pass loads the colour target (no clear), has no depth attachment, sets the overlay pipeline, binds the group at slot 0, draws vertices 0..3 of instance 0..1, and ends the pass. |
| `DepthOverlay.CreateBindGroup` | src/depth_view.rs:41-60 | Binding 0 is the texture's view and binding 1 its sampler. The group refers only to that texture and fits the depth layout. |
| `DepthOverlay.CreateDepthRenderPipeline` | src/depth_view.rs:66-112 | The overlay pipeline has no vertex buffers, no depth-stencil state, alpha blending and the target format. |
| `DepthOverlay.OverlayPassWellFormed` | src/depth_view.rs:114-133 | The overlay pass is one well-formed pass for a pipeline whose only layout is the group's. |
| `DepthOverlay.DepthView.constructor` | src/depth_view.rs:12-39 | The layout is the depth layout. The pipeline is built over it, and the bind group is built from the given texture. |
| `DepthOverlay.DepthView.SetDepthTexture` | src/depth_view.rs:62-64 | Only the bind group changes: it is rebuilt from the new texture with the same layout. The pipeline and layout are constants. |
| `DepthOverlay.DepthView.Render` | src/depth_view.rs:114-133 | Appends exactly the overlay pass: Load on colour, no depth attachment, the depth group at slot 0, a draw of vertices 0..3 and instances 0..1. That pass is well formed. |
| `InstanceGrid.Rotation.constructor` | src/instances.rs:15-48 | The step is x_step * y_step. The rotation and its uniform start at the identity. The group binds the rotator buffer. No updates have been made yet. |
| `InstanceGrid.Rotation.Update` | src/instances.rs:66-71 | rotation := rotation * step, with the step unchanged. The uniform mirrors the new rotation and is written to the buffer at offset 0. |
| `InstanceGrid.Rotation.RotationIsPower` | src/instances.rs:66-71 | After k updates the rotation, and the matrix in the buffer, is step^k. |
| `InstanceGrid.RotationBindGroup` | src/instances.rs:30-39 | The group keeps its layout, fits the rotation layout, and binds the whole rotator buffer. |
| `InstanceGrid.RotationLayout` | src/instances.rs:50-64 | One uniform buffer, visible to the vertex stage. |
| `InstanceGrid.InstancesLayout` | src/instances.rs:97-111 | One read-only storage buffer, visible to the vertex stage. |
| `InstanceGrid.InstancesBindGroup` | src/instances.rs:150-159 | The group keeps its layout, fits the instances layout, and binds the whole instances buffer. |
| `InstanceGrid.BuildGrid` | src/instances.rs:130-138 | The nested loop yields the row-major grid. It has (per_row+1)*per_col matrices, all translations. |
| `InstanceGrid.Instances.constructor` | src/instances.rs:124-169 | There are 20 matrices despite the reserved capacity of 16, all translations in grid order. The storage buffer holds them in the same order, and the count is 20. |
| `InstanceGrid.Instances.Count` | src/instances.rs:120-122 | The count is the number of transformations whenever that fits in u32. |
| `InstanceGrid.GridAt` | src/instances.rs:131-136 | The grid has (per_row+1)*per_col entries. Entry i*per_col + j is the translation by ((j - per_row/2)*dx, (i - per_col/2)*dy, 0). |
| `InstanceGrid.GridCellsDistinct` | src/instances.rs:131-136 | Two different cells are at different indices and have different translations, for non-zero dx and dy. |
| `InstanceGrid.Grid` | src/instances.rs:130-138 | The grid over rows 0..=per_row and columns 0..per_col has (per_row+1)*per_col matrices, all translations. |
| `InstanceGrid.RowsAt` | src/instances.rs:131-136 | Within the first n rows, cell (i, j) sits at index i*per_col + j and is the translation by that cell's offset. |
| `InstanceGrid.RowsLength` | src/instances.rs:131-132 | The first n rows hold n*per_col matrices. |
| `InstanceGrid.RowsAreTranslations` | src/instances.rs:135 | Every matrix pushed is translation-only. |
| `InstanceGrid.FromTranslation` | src/instances.rs:135 | from_translation gives a translation-only matrix whose translation is the vector. |
| `InstanceGrid.TranslationRoundTrip` | src/instances.rs:135 | A translation-only matrix is rebuilt exactly from its translation. |
| `RotatorAnim.Rotator.constructor` | src/rotator.rs:14-47 | The step is x_step * y_step. The rotation and the uniform start at the identity. The group binds the rotator buffer. |
| `RotatorAnim.Rotator.Update` | src/rotator.rs:65-72 | rotation := rotation * step, with the step unchanged. A new uniform holds it and is written at offset 0. |
| `RotatorAnim.Rotator.RotationIsPower` | src/rotator.rs:65-72 | After k updates the rotation, and the uniform in the buffer, is step^k. |
| `RotatorAnim.SameAsRotation` | src/rotator.rs:13-73 | With the same steps and the same number of updates, a Rotator and a Rotation hold and upload the same matrix. |
| `MatrixMonoid.PowSuccRight` | src/instances.rs:67 | Multiplying step^k on the right by step gives step^(k+1). |
| `MatrixMonoid.AccumulateIsPow` | src/instances.rs:19-67 | Starting from s, k right-multiplications by step give s * step^k; from the identity, step^k. |
| `MeshData.Desc` | src/mesh.rs:12-29 | One per-vertex buffer. The stride is the size of Vertex (20 bytes). The position is at offset 0, location 0, and the texture coordinates at offset 12, location 1. Attributes do not overlap and fit in the stride. |
| `MeshData.PackedLayoutFits` | src/mesh.rs:12-29 | A layout describing packed fields in order has non-overlapping attributes inside its stride. |
| `MeshData.NewMesh` | src/mesh.rs:40-60 | There are 8 vertices and 36 indices (12 triangles). Each index names a real vertex and fits Uint16, and every vertex has 3 position and 2 texture components. |
| `MeshData.TexCoordsAreCorners` | src/mesh.rs:63-73 | Every texture coordinate is 0.0 or 1.0. |
| `MeshData.NoDegenerateTriangle` | src/mesh.rs:75-93 | No triangle repeats a vertex. |
| `MeshData.EveryVertexUsed` | src/mesh.rs:63-93 | Every vertex is used by some index. |
| `Encoding.RunAppend` | src/state.rs:328-331 | Replaying two streams one after the other is replaying the first, then the second from where it left off. |
| `Encoding.WellFormedAppend` | src/state.rs:328-331 | Two well-formed streams recorded into one encoder form a well-formed stream. |
| `Encoding.PassCountAppend` | src/state.rs:328-331 | Pass counts add under concatenation. |
| `GpuTypes.CommandEncoder.constructor` | src/state.rs:323-327 | A new encoder has recorded nothing. |
| `GpuTypes.GpuLog.Configure` | src/state.rs:257 | surface.configure appends one configuration event. |
| `GpuTypes.GpuLog.WriteBuffer` | src/instances.rs:70 | queue.write_buffer appends one buffer-write event. |
| `GpuTypes.GpuLog.Submit` | src/state.rs:333 | queue.submit appends one submission holding the recorded commands. |
| `GpuTypes.GpuLog.Present` | src/state.rs:334 | output.present appends one present event. |

## Left out

- Adapter, device and surface acquisition and the surface's format and present-mode choice (src/state.rs:37-97) are async foreign calls. The chosen format and present mode are constructor parameters.
- `position_to_color` is floating-point trigonometry. The background is modelled as the colour of a position, `PositionColor(x, y)`.
- Floating-point matrices: `from_angle_x`/`from_angle_y` and the matrix product are an abstract monoid. The proof of `rotation == step^k` assumes the monoid laws, which f32 products satisfy only up to rounding. The grid matrices are exact reals: their entries are small multiples of 2.0.
- Texture decoding (`Texture::from_bytes`) and `Texture::create_depth_texture` are not shown. The tree texture is a parameter, and a depth texture is a token of the configured size with its generation number.
- `CameraState` and its controller are not shown. They appear as an opaque camera value, the controller's event function and the camera update. The camera's own uniform write is not logged. The constructor requires that the camera's bind group is built over the camera layout it was given, as `CameraState::new` does.
- Shader compilation and the fixed-function pipeline fields that no property reads (topology, polygon mode, multisampling, write masks) are left out.
- Queue and submission asynchrony and winit event delivery are out of scope. The model is sequential, and buffer writes and submissions are log entries in call order.
- `Instances::step` is never read.
- The handling of `SurfaceError::Lost`/`Outdated` (reconfigure, then retry) belongs to the caller of `render` in src/main.rs. src/main.rs is not part of this model. `render` returns the error exactly as the code does.
- `Encoding` checks only a subset of wgpu's encoding rules, so a well-formed frame is not a frame wgpu must accept. It does not check:
  - that a colour attachment's format equals the pipeline's target format;
  - that an indexed draw's range fits the bound index buffer;
  - that a vertex or instance range fits the bound vertex or storage buffer;
  - resource-usage conflicts inside a pass.
