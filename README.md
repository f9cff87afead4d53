# Heightmap viewer core, in Dafny

This project models the sequential logic of a small Rust terrain viewer and
proves properties of it. The viewer builds a triangle mesh from a heightmap
image, flies a first-person camera over it, and keeps per-frame window,
camera and input state. The model has three parts.

- **Mesh generation** (`meshgen.dfy`, module `MeshGen`) models
  `Descriptor::from_height_map`.
  - The first pair of loops lays a `columns x rows` grid over the image. For each grid point it pushes a vertex, a normal and a texture coordinate, column by column.
  - The second pair of loops pushes two triangles, six indices, per interior cell, using the index `y + x * rows`.
  - The model keeps both loop pairs as methods with loop invariants:
    - `SampleGrid` fills the three vertex arrays;
    - `Triangulate` fills the index list;
    - `FromHeightMap` runs the two in sequence.
  - The contracts give:
    - every array's length;
    - every pushed value;
    - every index in bounds;
    - agreement between the emission order and the index formula.
  - The image is its red channel, `red[py][px]`, of a `width x height` image.
  - `get_pixel` panics outside the image. That happens exactly when the grid is non-empty and the image has a zero side, and it is modelled as `Failure(PixelOutOfBounds(..))`.
- **Camera** (`camera.dfy`, module `Camera`) has three classes.
  - `Camera` holds the pose: position, yaw, pitch.
  - `Projection` holds the aspect ratio, field of view and clip planes. `width as f32 / height as f32` is modelled with IEEE division by zero as `Quotient = Finite | Infinity | NaN`.
  - `Controller` turns key, mouse and scroll input into six movement intents and per-frame deltas. `UpdateCamera` integrates them into the pose.
  - The effect of each controller operation is a two-state predicate: `KeyApplied`, `MouseApplied`, `ScrollApplied` and `Integrated`. The state layer reuses these predicates.
- **Frame state** (`state.dfy`, module `State`) models the class `State` and the class `CameraUniform`.
  - `State` holds the window size, the surface size, the camera, projection and controller, the frame counter, the frame time and the mouse-button flag.
  - `CameraUniform` holds only its eye position.
  - `Input` routes window and device events to `Poll`/`Exit` and to the owned objects.
  - `Resize` ignores a size with a zero side.
  - `Update` moves the camera, refreshes the eye position and counts the frame.
  - The class invariant `State.Valid` (the surface matches the size, the aspect ratio matches the size, the eye position matches the camera position, and every intent is 0 or 1) is preserved by every operation.

`geometry.dfy` (module `Geometry`) holds the vector types over `real`.
`wrappers.dfy` holds `Option` and `Result`.

Single-precision floats are modelled as exact reals. The program gets these values from library code; the model takes them as parameters and ties them to the program's computation by preconditions:

- the sine and cosine of the yaw (`yawSin * yawSin + yawCos * yawCos == 1`);
- the length of the displacement vector (`length * length == |heading|^2`);
- the frame time `dt`, read from the wall clock.

## Model

| member | source | states |
|---|---|---|
| MeshGen.FromHeightMap | src/meshgen.rs:7-64 | fails exactly when the grid is non-empty and the image has a zero side (get_pixel out of bounds); otherwise vertices, normals and uvs each have columns*rows entries, the triangle list has 6*(columns-1)*(rows-1) entries (none when either count is at most 1), its length is a multiple of 3, every index is below the vertex count, the vertex, normal (0,1,0) and uv of grid point (x,y) sit at index y + x*rows, and cell (x,y)'s six indices sit at slot 6*(y + x*(rows-1)) |
| MeshGen.SampleGrid | src/meshgen.rs:24-41 | the sample loops push one vertex, normal and uv per grid point, so the three arrays have equal length columns*rows; grid point (x,y) lands at y + x*rows with vertex (xpos*scale, red*scale, ypos*scale), normal (0,1,0) and uv (xpos/width, ypos/height); the out-of-image pixel read is the only failure |
| MeshGen.Triangulate | src/meshgen.rs:43-55 | the triangle loops push 6*(columns-1)*(rows-1) indices, none unless columns, rows >= 2; every index is below columns*rows; cell (x,y)'s six indices follow the cells before it in column-major order |
| MeshGen.Index | src/meshgen.rs:45-53 | the index y + x*rows of a grid point is below columns*rows |
| MeshGen.IndexInjective | src/meshgen.rs:27-28 | two grid points share an index exactly when they are the same point, so the column-major emission order and the index formula agree one-to-one |
| MeshGen.LastIndex | src/meshgen.rs:43-53 | the largest index, (rows-1) + (columns-1)*rows, is columns*rows - 1 |
| MeshGen.CellTriangles | src/meshgen.rs:45-53 | a cell gives two triangles of three distinct, in-bounds vertices each, which share the edge from (x,y+1) to (x+1,y) |
| MeshGen.SampleInRange | src/meshgen.rs:24-32 | a grid line's sample coordinate is non-negative and inside the image, and its `as u32` pixel coordinate is in range exactly when the image is not empty in that direction |
| MeshGen.UvInUnitSquare | src/meshgen.rs:39 | both texture coordinates of every grid point lie in [0, 1) when the image is not empty |
| MeshGen.ElevationBounded | src/meshgen.rs:32-34 | a vertex's height is its red value times the scale, within [0, 255*scale] for a non-negative scale |
| Geometry.NormalisedIsUnit | src/camera.rs:161-163 | a non-zero vector divided by its length has length 1 |
| Camera.Camera.constructor | src/camera.rs:20-31 | the camera takes the given position, yaw and pitch |
| Camera.AspectRatio | src/camera.rs:54 | width/height is a finite non-negative ratio r with r*height = width exactly when height > 0, infinity when only the height is 0, NaN when both are 0 |
| Camera.Projection.constructor | src/camera.rs:52-59 | the aspect ratio is width/height; fovy, znear and zfar are stored as given |
| Camera.Projection.Resize | src/camera.rs:61-63 | the aspect ratio becomes width/height, with no zero guard; fovy, znear and zfar are unchanged |
| Camera.PressAmount | src/camera.rs:103-107 | an intent is 1.0 exactly when its key is pressed, and 0.0 otherwise |
| Camera.ClampPitch | src/camera.rs:174-179 | the pitch ends within ±(π/2 - 0.0001); a pitch already in range is kept exactly; one beyond a limit becomes that limit |
| Camera.Normalised | src/camera.rs:161-163 | a zero heading stays zero; any other becomes a unit vector; a level heading stays level |
| Camera.Step | src/camera.rs:157-166 | the displacement of one frame is zero for a zero heading, level for a level heading, and of squared length (dt*speed)^2 otherwise |
| Camera.StepLength | src/camera.rs:166 | scaling a unit direction by dt and then speed gives squared length (dt*speed)^2; a level or zero direction stays level or zero |
| Camera.DirectionsAreUnit | src/camera.rs:153-155 | forward (cos, 0, sin) and right (-sin, 0, cos) are level, orthogonal unit vectors, so `normalize` leaves them unchanged |
| Camera.Controller.constructor | src/camera.rs:86-100 | every intent, both rotation deltas and the scroll are 0; speed and sensitivity are stored as given |
| Camera.Controller.ProcessKeyboard | src/camera.rs:102-135 | returns true exactly for W/Up, A/Left, S/Down, D/Right, Space and LShift; such a key sets only its own intent, to 1.0 if pressed and 0.0 if released; any other key changes nothing; intents stay 0 or 1 |
| Camera.Controller.ProcessMouse | src/camera.rs:137-140 | the rotation deltas become dx and dy whatever they were; nothing else changes |
| Camera.Controller.ProcessScroll | src/camera.rs:142-149 | the scroll becomes -(10*lines) or -pixel_y, and the speed grows by 10*lines or pixel_y; nothing else changes |
| Camera.Controller.Heading | src/camera.rs:157-159 | the raw displacement is zero when each opposite pair of intents is balanced, and level when up and down are balanced |
| Camera.StillOnlyIfBalanced | src/camera.rs:153-159 | for the sine and cosine of one angle, forward*a + right*b + up*u is zero only when a, b and u are all zero |
| Camera.Controller.StillIffBalanced | src/camera.rs:157-159 | the raw displacement is zero exactly when forward/backward, right/left and up/down are each balanced |
| Camera.Controller.MoveDistance | src/camera.rs:153-166 | with some pair of opposite intents unbalanced, the camera moves by exactly dt*speed (in exact arithmetic), whatever the direction |
| Camera.Controller.UpdateCamera | src/camera.rs:151-191 | the position moves by the normalised heading times dt*speed; the yaw grows by rotate_horizontal*sensitivity*dt; the pitch is pitch - rotate_vertical*sensitivity*dt, then clamped to ±(π/2 - 0.0001); the rotation deltas and the scroll are reset to 0; intents, speed and sensitivity are unchanged; balanced intents leave the position alone; balanced up/down leaves the height alone |
| State.CameraUniform.constructor | src/state.rs:351-357 | the eye position starts at (0, 0, 0, 0) |
| State.CameraUniform.UpdateViewProj | src/state.rs:359-362 | the eye position becomes the camera position with w = 1 |
| State.State.constructor | src/state.rs:57-247 | the surface takes the window size; the camera starts at (0, 5, 10) with yaw -90° and pitch -20°; the projection has fovy 90°, znear 0.1 and zfar 10000, and the window's aspect ratio; the controller has speed 10 and sensitivity 0.3 with all intents, rotation deltas and the scroll at 0; frame count 0, frame time 13 ms, mouse not pressed; the eye position is refreshed; the invariant holds |
| State.State.Resize | src/state.rs:249-262 | a size with a zero side changes nothing; any other becomes the window size and the surface size, and sets the aspect ratio to width/height; the invariant is kept |
| State.State.KeyboardInput | src/state.rs:308-316 | the key is always applied to the controller; the result is Exit exactly for Escape, otherwise Poll |
| State.State.Input | src/state.rs:264-306 | Exit exactly for CloseRequested or an Escape key event, otherwise Poll; Resized and ScaleFactorChanged resize; a key event with a key code goes to the controller; the wheel goes to process_scroll; button 1 sets the mouse flag to whether it is pressed; mouse motion goes to process_mouse; every other event changes nothing; the frame counter, camera and eye position are untouched; the invariant is kept |
| State.State.Update | src/state.rs:318-336 | the frame time is recorded; the camera is integrated as UpdateCamera states; the eye position is the new camera position with w = 1; the frame count grows by exactly 1; the invariant is kept |

## Left out

- Texture creation in `from_height_map` (src/meshgen.rs:21-22) and its `unwrap` are left out: they are GPU and image-library calls.
- The `if let [r, g, b, a]` test (src/meshgen.rs:33) is taken as always matching, because the image is read as RGBA.
- Integer widths are not modelled:
  - `x * rows` in `i32`, and the `as u32` index casts, would overflow for grids of more than 2^31 samples;
  - `frame_count` is a `u64` that would overflow after 2^64 frames;
  - the model uses unbounded integers for all three.
- `f32` rounding is not modelled. All float arithmetic, the `u32`/`i32` to `f32` conversions, the saturating `as u32` cast of a non-negative sample position (modelled as its floor) and the `f64` to `f32` narrowing of mouse deltas are taken as exact.
- Camera.Controller.UpdateCamera: `sin_cos` and `normalize` are not computed.
  - The yaw's sine and cosine are parameters, with the caller promising `sin^2 + cos^2 = 1`.
  - The displacement's length is a parameter whose square is the squared norm.
  - So the model does not check that the sine and cosine are those of the camera's current yaw.
- State.State.Update: the frame time `dt` is a parameter standing for `Instant::elapsed`.
  - Like `UpdateCamera`, it receives the sine and cosine of some angle; the model does not check that they belong to the camera's current yaw.
  - It is stored after the controller step rather than before. The controller is handed `dt` itself, so the order is not observable.
  - `last_frame_time`, `start_time` and `queue.write_buffer` are left out.
- `Camera::view_mat`, `Projection::proj_mat` and the `view_proj` matrix of the uniform are left out: they are cgmath float numerics (`look_to_rh`, `perspective`). Only the uniform's `view_pos` is modelled.
- `State::new`'s GPU setup is left out: instance, adapter, device, surface configuration, shader, pipeline, buffers, bind groups, the Perlin-noise mesh and the depth texture. So are `surface.configure` and the depth-texture re-creation in `resize`, and `State::render`. These are foreign wgpu and image-library calls.
- src/mesh.rs is not part of this model: `Mesh::draw` only records a render pass. Its `MeshDescriptor` fields appear as the `Descriptor` datatype.
- src/main.rs is not part of this model: it is a separate GPU compute demo.
- The unused constant quad `VERTICES_A` to `INDICES_A` (src/state.rs:10-31) is left out.
- Yaw is never wrapped to a range, and `Projection` has no zero-size guard of its own. The model follows the code on both points: only `State::resize` guards against a zero side. There are no surface-lost or recovery states in the code, so the model has none.
- Key codes other than the eleven the controller and the state look at are collapsed into `OtherKey(code)`. A device key event without a virtual key code changes nothing.
