# wgpu tutorial: rendering state, geometry layouts and the event loop

This project models the rendering-state layer of a wgpu tutorial in Dafny and proves properties of it:

- **Lesson 2.** A `State` with two pipelines. Pressing Space flips `use_color`, and `render` binds the colour pipeline exactly when that flag is set. Every frame draws vertices 0..3 once.
- **Lesson 3.** A `State` that draws an indexed pentagon. Each press of Space swaps it for a cube (with its positions halved) and back. `num_indices` follows the bound index buffer.
- **Lesson 6.** `Instance` and the vertex-buffer layout of its raw 4×4 model matrix.
- **Lesson 5.** The closure passed to `event_loop.run`. It renders, resizes, requests redraws, logs surface errors and sets the control flow to `Exit`.

The types the tutorial uses from wgpu and winit are modelled as data (`wgpu.dfy`, `winit.dfy`). A GPU buffer is the sequence uploaded into it. A pipeline is an opaque token. The surface is `configureLog`, the list of every configuration passed to `surface.configure`. A render pass is a `RenderPass` value that records the pipeline, the bound buffers and the draw call. Acquiring the next surface texture is outside the model, so each `render` takes its outcome as the parameter `next`.

The two vertex layouts are checked with one predicate, `Wgpu.Tiles`: the attributes lie back to back, in order, from byte 0 to the stride. `Wgpu.TilingIsExact` proves by induction that such a tiling is exact: the attributes are pairwise disjoint, lie inside the stride and leave no gap. The index constants are also described by their shape. `INDICES` is a triangle fan around vertex E. `CUBE_INDICES` is six quads, each split along a diagonal. Each shape is defined by a generator. Induction proves that every fan and every quad mesh, of any size, yields whole triangles that reference only existing vertices.

## Model

| member | source | states |
|---|---|---|
| Wgpu.TilingIsExact | lesson6/src/instance.rs:36-60 | attributes that tile [from, to) lie inside it, are pairwise disjoint and in order, and their sizes add up to to - from (no gap) |
| Lesson3.Description | lesson3/src/state.rs:17-34 | Vertex layout: stride 24 = size of Vertex, per-vertex step, two Float32x3 (12-byte) attributes at offsets 0 and 12, locations exactly {0, 1}, well formed (tiles the stride, distinct locations) |
| Lesson3.DescriptionIsExact | lesson3/src/state.rs:19-31 | the position and colour attributes do not overlap, and together they fill the 24-byte stride exactly |
| Lesson3.FanIsTriangleList | lesson3/src/state.rs:45-49 | a fan of n triangles around an apex has 3n indices, and each one is at most the apex |
| Lesson3.PentagonIsFan | lesson3/src/state.rs:45-49 | INDICES is the fan of three triangles around vertex E (index 4) |
| Lesson3.QuadsAreTriangleList | lesson3/src/state.rs:89-96 | n quads give 6n indices, all below 4n |
| Lesson3.CubeIsQuads | lesson3/src/state.rs:89-96 | CUBE_INDICES is six quads, one per face, each split along its 0-2 diagonal |
| Lesson3.IndexConstantsWellFormed | lesson3/src/state.rs:37-96 | VERTICES has 5 entries and INDICES 9, all < 5; CUBE_VERTICES has 24 and CUBE_INDICES 36, all < 24; both index lengths are multiples of 3 (TriangleList) |
| Lesson3.HalvedCube | lesson3/src/state.rs:259-265 | the cube rebuild keeps the vertex count and every vertex's colour; only the positions change, each halved |
| Lesson3.BoundGeometryWellFormed | lesson3/src/state.rs:250-276 | in either mode the bound indices reference only bound vertices: 36 indices over 24 vertices for the cube, 9 over 5 for the pentagon |
| Lesson3.State.constructor | lesson3/src/state.rs:139-164 | the initial state is the pentagon: render_cube false, INDICES and VERTICES bound, num_indices = 9; config and surface take the window size |
| Lesson3.State.Resize | lesson3/src/state.rs:226-233 | a zero width or height leaves size, config and surface unchanged; otherwise size, config.width and config.height take the new size and the surface is reconfigured with it; the geometry is untouched |
| Lesson3.State.Input | lesson3/src/state.rs:235-288 | a pressed Space flips render_cube; the bound index buffer is CUBE_INDICES iff render_cube; num_indices is its length; every other event changes nothing; returns false |
| Lesson3.State.Render | lesson3/src/state.rs:294-330 | an acquisition error is returned unchanged; otherwise the pass binds the current buffers and draws indices 0..num_indices with one instance, and every index drawn names an existing vertex |
| Lesson3.PressSpaceTwice | lesson3/src/state.rs:249-283 | two Space presses restore render_cube, both buffers and num_indices |
| Lesson2.PipelineFor | lesson2/src/state.rs:208-212 | the pipeline bound is color_pipeline iff use_color, else render_pipeline |
| Lesson2.State.constructor | lesson2/src/state.rs:45-52 | use_color starts false; config and surface take the window size |
| Lesson2.State.Resize | lesson2/src/state.rs:148-155 | a zero dimension leaves size, config and surface unchanged; otherwise they take the new size; use_color is untouched |
| Lesson2.State.Input | lesson2/src/state.rs:157-176 | a pressed Space flips use_color; releases, other keys and cursor moves leave it; the size and surface never change; returns false |
| Lesson2.State.Render | lesson2/src/state.rs:182-222 | an acquisition error is returned unchanged; otherwise the pass binds the colour pipeline iff use_color and draws vertices 0..3, instances 0..1 |
| Lesson2.PressSpaceTwice | lesson2/src/state.rs:163-172 | two Space presses restore use_color |
| Lesson6.New | lesson6/src/instance.rs:9-13 | Instance::new stores position and rotation unchanged |
| Lesson6.Description | lesson6/src/instance.rs:29-62 | instance layout: stride 64 = size of a 4x4 f32 matrix, per-instance step, the i-th attribute at offset 16i with location 5+i and format Float32x4, locations exactly {5, 6, 7, 8}, well formed |
| Lesson6.DescriptionIsExact | lesson6/src/instance.rs:32-60 | the four rows are disjoint and fill the 64-byte stride with no gap; locations 5-8 are disjoint from the vertex layout's 0 and 1 |
| Lesson5.OnRender | lesson5/src/main.rs:23-29 | Ok continues; Lost, and only Lost, resizes to the state's current size; OutOfMemory, and only it, exits; any other error is logged |
| Lesson5.OnWindowEvent | lesson5/src/main.rs:39-59 | Moved requests a redraw; Resized(s) and ScaleFactorChanged{new_inner_size: s} resize to s; CloseRequested or a pressed Escape, and nothing else, exit |
| Lesson5.Dispatch | lesson5/src/main.rs:19-62 | events for other windows and window events that input consumed do nothing; MainEventsCleared requests a redraw; only a redraw of this window logs; Exit exactly on OutOfMemory or an unconsumed close/Escape |
| Lesson5.ResizeEventsAgree | lesson5/src/main.rs:43-48 | Resized(s) and ScaleFactorChanged with new size s get the same reaction, a resize to s |
| Lesson5.App.constructor | lesson5/src/main.rs:17-19 | the closure starts with the new state, control flow Poll, no redraws requested and nothing logged |
| Lesson5.App.Perform | lesson5/src/main.rs:24-57 | each reaction has its effect and no other: exit sets Exit, a log appends the error, a redraw is counted, and a resize obeys State::resize |
| Lesson5.App.HandleEvent | lesson5/src/main.rs:19-62 | one event updates control flow, redraws, log and state as Dispatch decides; Space for this window flips render_cube; Exit is never undone; on Lost the size and config are unchanged and, for a drawable size, the surface is reconfigured with the same config |

## Left out

- Device, adapter, surface and queue creation, shader modules, pipeline layouts and descriptors, buffer creation, command encoding, `submit` and `present` are foreign wgpu calls. Pipelines are tokens, buffers are the sequences uploaded, and a render pass is the `RenderPass` record of its commands. The `unwrap` panics of startup are not modelled.
- The mouse position and the clear colour use f64 arithmetic (normalising by the window size, clamping, and the defaults 0.1/0.2/0.3). In the model a `CursorMoved` event changes nothing, and `RenderPass` records no clear colour.
- f32 values are modelled as reals. Halving the cube's ±1.0 coordinates is exact in f32, so `HalvedCube` matches the source's values.
- `State::update` is `todo!()` in lessons 2 and 3. lesson5/src/state.rs is not part of this model, so `Lesson5.App` drives lesson 3's `State` and treats `update` as leaving every modelled field alone. Its `input` always returns false, so consumption is exercised only through `Lesson5.Dispatch`'s `consumed` parameter.
- Lesson6.DescriptionIsExact: lesson 6's own vertex layout is not part of this model, so locations 5-8 are compared with lesson 3's `Vertex::description` (locations 0 and 1).
- `Instance::to_raw` is cgmath quaternion and matrix float arithmetic.
- lesson4/src/texture.rs (image crate and texture/sampler calls) is not modelled.
- The winit event loop itself is not modelled: `request_redraw` is a counter, `eprintln!` is an append to `errorLog`, and `env_logger` and the tokio runtime are left out.
- `State::new` configures the surface with the window size even when a dimension is zero. The model does the same and does not check the size.
- `num_indices` is `INDICES.len() as u32`. The lengths 9 and 36 fit, so the cast never truncates.
- Each lesson hard-wires what Space toggles. The code has no pipeline registry, geometry store or texture validation, so the model has none either.
