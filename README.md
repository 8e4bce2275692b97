# 2D ray tracer: scene extraction and post-process render node

This project models the core of a small 2D ray-marching renderer built on a
game engine's render graph. The scene is made of line segments: solid walls
and tinted mirrors. A player position moves with the W, A, S and D keys.

Each frame has two parts:

- The extract step rebuilds a GPU storage buffer of line records from the
  scene's `Line` components.
- The render node binds the upstream colour texture, a sampler, the player
  uniform and that storage buffer, then issues one full-screen draw.

The model has four modules:

- `Primitives` holds the engine's value types. A 32-bit float is kept as its
  IEEE 754 bit pattern, because the ray-tracer side only copies floats.
  The float arithmetic of `move_player` is not interpreted: it becomes the
  parameters `step` and `add`.
- `RayTracer` covers `src/ray_tracer.rs`:
  - the projection `Line::to_gpu` and its lift to a whole query (`ProjectAll`);
  - the `LineBuffer` resource, as a class holding the CPU-side vector, the
    last uploaded contents and an upload count;
  - `write_lines_buffer`, as a loop that clears, pushes and uploads;
  - the post-process bind-group layout, as a constant;
  - `RayTracerNode::run`, as a method that returns the frame's outcome and
    the ordered list of what it did: taking the post-process pair, the
    diagnostic, creating the bind group, beginning the pass, setting the
    pipeline and bind group, and drawing.
- `Game` covers `src/main.rs`:
  - the start-up scene, as a constant;
  - the key-to-direction mapping;
  - `move_player`, as a method that updates the `ShaderInputs` component in
    place.
- `Wrappers` holds `Option` and `Result`.

Several things the code calls into are not interpreted. The colour
conversion `Color::rgba_to_vec4` is the function parameter `toVec4`. The
movement step `delta * normalize(dir) * 200.0` is the parameter `step`, and
float vector addition is the parameter `add`.

Two behaviours of the code are worth stating outright:

- A frame can be skipped after the post-process read/write pair has been
  taken: the code takes the pair (`src/ray_tracer.rs:171`) before it checks
  the uniform binding and the line buffer. `Run` states this.
- `move_player` calls `single_mut` (`src/main.rs:41`), which panics unless
  exactly one `ShaderInputs` exists. `MovePlayer` models the panic as an
  `Err` result under which no component changes.

## Model

| member | source | states |
|---|---|---|
| `RayTracer.ToGpu` | src/ray_tracer.rs:130-146 | The endpoints are copied unchanged. A solid line gets zero colour and flag 0. A mirror gets the converted colour and flag 1. The flag is always 0 or 1, and it is 1 exactly for mirrors. |
| `RayTracer.ToGpuInjective` | src/ray_tracer.rs:131-146 | If the colour conversion is one-to-one, equal GPU records come from equal lines, so the projection loses nothing. |
| `RayTracer.ProjectAll` | src/ray_tracer.rs:298-300 | Rebuilding from a query gives exactly one record per line. |
| `RayTracer.ProjectAllAt` | src/ray_tracer.rs:298-300 | Record `k` of the rebuild is `to_gpu` of the `k`-th queried line, so query order is kept. |
| `RayTracer.ProjectAllAppend` | src/ray_tracer.rs:295-300 | Rebuilding `xs + ys` gives the records of `xs` followed by those of `ys`. Lines added after the first N leave the first N records unchanged. |
| `RayTracer.MirrorFlagsAreBinary` | src/ray_tracer.rs:133-144 | Every record in a rebuilt buffer has flag 1 if its line is a mirror and 0 otherwise. |
| `RayTracer.LineBuffer.FromWorld` | src/ray_tracer.rs:93-105 | A new line buffer starts with an empty vector that has already been uploaded once. |
| `RayTracer.LineBuffer.Clear` | src/ray_tracer.rs:296 | Clearing empties the CPU-side vector and nothing else. |
| `RayTracer.LineBuffer.Push` | src/ray_tracer.rs:299 | Pushing appends one record to the CPU-side vector and nothing else. |
| `RayTracer.LineBuffer.WriteBuffer` | src/ray_tracer.rs:302 | An upload makes the GPU contents equal the CPU-side vector and counts one upload. The vector itself is unchanged. |
| `RayTracer.WriteLinesBuffer` | src/ray_tracer.rs:289-303 | Afterwards the vector is the projection of the queried lines, one per line in query order, with nothing from before. Exactly one upload happened after the rebuild, and the GPU holds the rebuilt vector. |
| `RayTracer.ExtractTwice` | src/ray_tracer.rs:289-303 | The vector after a second extraction of an unchanged scene equals the vector after the first, which is idempotence. An empty scene leaves an empty buffer. |
| `RayTracer.SequentialEntries` | src/ray_tracer.rs:188-198 | The bind-group entries (source texture, sampler, player uniform, line storage) fill the layout's four slots in order: filterable 2D texture, filtering sampler, uniform buffer, read-only storage buffer. |
| `RayTracer.Run` | src/ray_tracer.rs:155-220 | Every path returns `Ok`. The frame is drawn exactly when the pipeline is compiled and all three bindings are present. An uncompiled pipeline returns before the post-process pair is taken. Otherwise the pair is taken first and only once. A missing uniform binding or line-buffer resource skips silently after the pair. A missing line binding emits exactly one diagnostic and skips. A skip creates no bind group, begins no pass and draws nothing. A drawn frame creates the bind group in layout order, begins one pass on the destination, sets the pipeline and bind group 0, and draws vertices 0..3 with instances 0..1. |
| `Game.Setup` | src/main.rs:18-34 | The initial scene has exactly one player, at (0, 0), and two lines: first a solid one, then a red mirror. |
| `Game.SetupProjection` | src/main.rs:24-33 | Extracting the two initial lines in spawn order gives a solid record with zero colour and flag 0, then a mirror record with red's conversion and flag 1. |
| `Game.Direction` | src/main.rs:43-48 | Each direction component is -1, 0 or 1. x is positive exactly when D is held without A, and negative exactly when A is held without D. The same holds for y with S and W. The direction is zero exactly when opposite keys agree. |
| `Game.Moved` | src/main.rs:48-54 | When opposite keys agree (no direction), the position is unchanged. Otherwise it is the old position plus one step in the keys' direction. |
| `Game.NoKeysNoMove` | src/main.rs:48-51 | With no key held, the position is unchanged. |
| `Game.OppositeKeysCancel` | src/main.rs:48-51 | W with S alone, A with D alone, or all four keys leave the position unchanged. |
| `Game.MoveIsOneStep` | src/main.rs:48-54 | If the keys give a nonzero direction, the new position is the old one plus one step in that direction. |
| `Game.MovePlayer` | src/main.rs:36-55 | With no `ShaderInputs`, or more than one, the result is the panic of `single_mut` and no position changes. With exactly one, that component's position becomes its one-frame update, and nothing else changes. |

## Left out

- Plugin wiring, render-graph node and edge registration, and resource initialisation (`src/ray_tracer.rs:45-81`) are host-engine scheduling, not logic.
- Pipeline construction (`src/ray_tracer.rs:230-287`) is not modelled: the layout creation, sampler creation, shader loading and queuing in the pipeline cache are calls into the engine. Only the binding order is kept, as `POST_PROCESS_LAYOUT`. The sampler and the pipeline id are inputs. Fragment-only visibility is a comment, not a modelled value.
- The GPU upload `write_buffer` is recorded as a snapshot of the uploaded contents. GPU buffer allocation, growth, and the point at which the storage buffer first has a binding are not modelled. The line binding's presence is an input of `Run`.
- The byte layout of `ShaderLine` on the GPU (field order, alignment padding) comes from a derive in the engine and is not modelled.
- `Color::rgba_to_vec4` is not interpreted; it is the parameter `toVec4`. `Color` has only its RGBA form, the only one this program builds.
- `Game.MovePlayer`: the float arithmetic of the step (`length`, `normalize`, `delta_seconds() * ... * 200.0`) and the vector `+=` are not interpreted; they are the parameters `step` and `add`. So the promise that every nonzero direction moves by the same distance (speed × delta) is not stated.
- `Game.Direction`: the code guards with `dir.length() == 0.0` on a float vector. The model compares the integer direction with (0, 0). These agree because each component is -1, 0 or 1.
- `ViewTarget::post_process_write` also swaps the view's main texture inside the engine. The model records only that the pair was taken.
- The panics of `world.resource` for `RayTracerPipeline`, `PipelineCache` and `ComponentUniforms` are not modelled; these resources are always initialised by the plugin, and `Run` receives them as values.
- The render pass's remaining descriptor fields (default load/store operations, no depth-stencil, no timestamp writes) are not modelled. The pass is recorded with its label and target only.
- `println!` is modelled as a `Diagnostic` event.
- `Game.SetupProjection` takes the lines in spawn order; the order in which the engine's query returns entities is not modelled.
- The extraction and uniform upload of `ShaderInputs` (the engine's component plugins) are not modelled. The uniform binding is an input of `Run`.
- Not part of this model: the WGSL shader, the egui inspector, `close_on_esc`, the camera spawn and the application loop (`src/main.rs:7-16`).
