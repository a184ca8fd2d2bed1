# Cube demo: input controller and cube mesh

This project models the two parts of the WebGL demo `main.js` that hold logic
of their own. The first is the per-frame input controller `updateMovement`.
The second is the static cube mesh that every frame draws. Each part is
proved against a specification.

**Controller** (`controller.dfy`, module `Controller`). The program keeps
these globals:

- a key-held map `keysPressed`, whose entries are set to true on key-down and
  to false on key-up;
- the two cube angles `cubeRotationX` and `cubeRotationY`;
- the two light-mode flags `useDirectionalLight` and `usePositionalLight`;
- a `light` record, whose `position` array is updated in place.

Each animation frame, `updateMovement` applies these rules:

- Each held arrow key turns the cube by 0.1.
- `w`, `s`, `a` and `d` move the light by 0.1 along Y or X.
- Keys `1` to `4` set the two flags.
- When no arrow key was held, both angles take an idle step of 0.006.

The model is a class `Scene`, with a class `Light` that owns the position
array. `Scene.UpdateMovement` performs the frame's tests in the program's
order and is proved to agree with a declarative one-frame function
`Next`. `Run` folds `Next` over a sequence of frames. Lemmas state what one
frame and many frames do: exact idle growth, cancelling arrows, toggles
that set rather than flip, ignored keys, a light Z that never moves, and a
bound on the rate of change.

**Mesh** (`geometry.dfy`, module `CubeGeometry`):

- The vertex buffer interleaves position and normal, six numbers per vertex, with normals at offset 3.
- It holds 24 vertices in six face blocks of four.
- The 16-bit index buffer draws each block as two triangles.

The constants are written as one row per vertex and one index row per face.
Flattened, they are exactly the program's two arrays.
`ValidMesh` is a validator, proved to accept exactly the buffers that have:

- whole vertices;
- whole triangles;
- every index in range and below 2^16;
- every triangle made of three distinct vertices of one face block that share one axis-aligned unit normal.

A general theorem (`QuadMeshValid`) says that any mesh built from well-formed
face blocks with the standard quad index rows passes the validator. The cube
is shown to be such a mesh (`CubeIsQuadMesh`) and therefore valid
(`CubeMeshValid`).

The model also computes each triangle's winding about its normal:

- The side faces (triangles 0 to 7) run counter-clockwise seen from outside.
- The top and bottom faces (triangles 8 to 11) run clockwise.

The program never enables back-face culling, so winding does not change which triangles are drawn (`CubeWinding`).

## Model

| member | source | states |
|---|---|---|
| `Controller.Scene.UpdateMovement` | main.js:174-226 | one frame updates the angles, the light position in place and the flags exactly as the declarative frame `Next` says, and keeps the light array three long |
| `Controller.Scene.RotateByArrows` | main.js:175-192 | each held arrow adds or subtracts 0.1 on its axis, so opposing arrows cancel; the returned movement flag is true exactly when some arrow key is held |
| `Controller.Scene.MoveLight` | main.js:193-204 | w/s change the light's Y and a/d its X by 0.1 each, summed; Z is untouched; only the position array is written |
| `Controller.Scene.SetLightModes` | main.js:205-216 | keys 1/2 and 3/4 set their flag on and off, checked in order so the off key wins when both are held; other state is untouched |
| `Controller.Scene.constructor` | main.js:116-126 | the program's initial scene: angles 0, light at (2, 2, 2) with direction (1, -1, -1), colour (1, 1, 1) and ambient colour (0.1, 0.1, 0.1), both light modes on |
| `Controller.Light.constructor` | main.js:116-121 | the light record with its four attribute triples; the position is a fresh three-element array |
| `Controller.IdleFrame` | main.js:219-222 | with no arrow key held, one frame adds exactly 0.006 to both angles |
| `Controller.IdleFrames` | main.js:175-222 | over any number n of frames without an arrow key, each angle grows by exactly 0.006 * n |
| `Controller.ArrowRightOnly` | main.js:181-184 | ArrowRight alone adds 0.1 to the Y angle and leaves the X angle unchanged: the idle step is suppressed |
| `Controller.HorizontalArrowsCancel` | main.js:177-184 | ArrowLeft with ArrowRight leaves the Y angle unchanged, and without vertical arrows leaves X unchanged too (no idle step) |
| `Controller.VerticalArrowsCancel` | main.js:185-192 | ArrowUp with ArrowDown leaves the X angle unchanged, and without horizontal arrows leaves Y unchanged too (no idle step) |
| `Controller.LightUpLeft` | main.js:193-204 | with w and a held (and not s or d) the light moves by (-0.1, +0.1, 0) |
| `Controller.TogglesSet` | main.js:205-216 | 2 forces the positional flag off whatever it was and whether or not 1 is held; 1 alone forces it on; neither keeps it; likewise 4, 3 for the directional flag |
| `Controller.NonArrowKeysKeepIdle` | main.js:175-222 | pressing or releasing any key other than the four arrows (light, number or unrecognised keys) does not change either angle after the frame, so it never blocks the idle step |
| `Controller.NoArrowIdles` | main.js:175-222 | with none of the four arrow keys held, whatever else is held, both angles grow by exactly the idle step |
| `Controller.OtherKeysIgnored` | main.js:164-216 | setting any key other than the twelve control keys to held or released does not change what a frame does |
| `Controller.RunAppend` | main.js:174-226 | a property of `Run`, the model's chaining of successive frames: running frames a then b is running the concatenation a + b |
| `Controller.LightHeightKept` | main.js:193-204 | no sequence of frames ever changes the light's Z coordinate |
| `Controller.BoundedRate` | main.js:177-222 | over n frames each angle and each light coordinate moves by at most 0.1 * n |
| `Controller.PositionalFlagKept` | main.js:205-210 | frames that hold neither 1 nor 2 never change the positional-light flag |
| `Controller.DirectionalFlagKept` | main.js:211-216 | frames that hold neither 3 nor 4 never change the directional-light flag |
| `CubeGeometry.ValidMesh` | main.js:23-63 | the validator accepts exactly the buffers with whole vertices and triangles, every index in range and 16-bit, and every triangle flat-shaded within one face block |
| `CubeGeometry.CheckTrianglesCorrect` | main.js:56-63 | checking triangles one by one from t accepts exactly when every remaining triangle is flat-shaded |
| `CubeGeometry.FlatTrianglesInRange` | main.js:56-63 | in a whole number of triangles, flat-shaded triangles keep every index in range and below 2^16 |
| `CubeGeometry.CubeMeshValid` | main.js:23-63 | the cube has 24 vertices of stride 6 and 36 indices, and passes the validator |
| `CubeGeometry.CubeIsQuadMesh` | main.js:23-63 | each of the six face blocks holds four vertices with its outward axis normal, each on the face plane, and each index row draws its own block as (a, b, c), (a, c, d) |
| `CubeGeometry.QuadMeshValid` | main.js:56-63 | any mesh of well-formed face blocks drawn by their own quad index rows passes the validator |
| `CubeGeometry.QuadTriangleFlat` | main.js:56-63 | triangle t of such a mesh is flat-shaded |
| `CubeGeometry.QuadTriangleIndices` | main.js:56-63 | triangle t of such a mesh draws vertices 0, h + 1, h + 2 of face block t / 2, where h = t % 2 |
| `CubeGeometry.QuadFaceNormals` | main.js:25-53 | every vertex of face block f reads back the block's normal, an axis-aligned unit vector, from the flat buffer |
| `CubeGeometry.AttributeOfRow` | main.js:100-101 | reading an attribute at stride 6 and offset 0 or 3 from the flat buffer gives that vertex row's triple |
| `CubeGeometry.QuadMeshRows` | main.js:23-54 | the face blocks of such a mesh have four rows of six numbers, so the flat buffer holds 4 * faces whole vertices |
| `CubeGeometry.FlattenAt` | main.js:23-54 | element j of block k of equal-width blocks sits at k * w + j of the flattened buffer |
| `CubeGeometry.FlattenLength` | main.js:23-54 | blocks of equal width w flatten to w times their count |
| `CubeGeometry.CubeWinding` | main.js:23-63 | triangles 0 to 7 wind counter-clockwise about their normal (orientation 4) and triangles 8 to 11 (top and bottom) clockwise (orientation -4) |
| `CubeGeometry.QuadWinding` | main.js:56-63 | the winding of a triangle read from the flat buffers is that of its triangle within its face block |
| `CubeGeometry.CubeFaceWinding` | main.js:25-53 | both triangles of the four side faces have orientation 4 and both of the top and bottom faces -4 |

## Left out

- WebGL setup and drawing are not modelled (main.js:1-22, 64-115, 127-157). This covers shader compilation, buffer uploads, attribute and uniform lookups and `drawScene`. These are calls into the GPU API with no logic of their own. The mesh model keeps the attribute layout they declare: stride 6, offsets 0 and 3, 16-bit indices, drawn as a triangle list.
- The `mat4` transforms (main.js:136-143) are not modelled. They belong to an external matrix library whose source is not part of this model, and they use floating-point trigonometry.
- The key listeners (main.js:166-172) are not modelled. The key-held map is a parameter of each frame, with the listeners' shape: entries set to true or false.
- The `requestAnimationFrame` loops (main.js:225, 228-243) are not modelled. They are host scheduling. `Run` takes frames as an explicit sequence of key maps.
- Shader source text (main.js:18-20) is not modelled; it is opaque text.
- Floating point: the controller's arithmetic is exact `real` arithmetic, not IEEE-754 doubles. The program's accumulated rounding (for example x - 0.1 + 0.1 not returning exactly x) is not modelled. The vertex data are integers −1, 0 and 1, which 32-bit floats hold exactly.
- Block methods: the program runs its thirteen tests in one function body. `Scene.UpdateMovement` runs the arrow, light and number-key tests as three block methods, in the same order, before the idle step. It updates the same state one test at a time.
