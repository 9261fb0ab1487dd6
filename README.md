# Transform, Camera and OBJ loading of the IGME-540 DirectX demo, in Dafny

This project models the three parts of the demo whose behaviour can be stated
without a GPU:

- **Transform** (`transform.dfy`, module `Transforms`): an
  object's position, pitch/yaw/roll and scale. It caches a world matrix and
  its inverse-transpose behind one `dirty` flag. Every mutator overwrites,
  adds to or multiplies one vector and sets the flag. Reading a matrix
  rebuilds the cache only when the flag is set, and then clears it. The class
  invariant `Valid()` says that a clear flag means the cache matches the
  vectors. The world matrix is scale, then rotation, then translation.
- **Camera** (`camera.dfy`, module `Cameras`): view and projection matrices
  derived from an owned Transform and from optics that the setters keep
  valid (0 < fov < pi, 0 < near < far < 1000, speeds >= 0). Out-of-range
  values are ignored silently. `Update` is one frame:
  - W/S/A/D/E move along world axes and Q moves along the camera's own up axis.
  - While the left button is down, the mouse turns the camera.
  - A pitch past 90 degrees is rewritten to just under 90 degrees, with yaw
    and roll reset.
  - Finally the view is rebuilt.

  Each frame's effect is stated by the functions `KeyboardMove` and
  `MouseLook`, and the lemmas prove what they mean.
- **OBJ loading** (`obj_loader.dfy`, module `ObjLoader`): `Mesh(objFile)`.
  - It reads `v`, `vt`, `vn` and `f` lines into lists.
  - It triangulates three- and four-corner faces with the winding reversed.
  - It converts to left-handed space: z and normal z are negated, and v
    becomes 1 - v.
  - It re-reads faces that have no UVs with the p//n pattern.
  - It de-duplicates vertices through a string-keyed hash table into a
    vertex list and an index list.

  The reading loop is proved equal to a left-to-right fold `Parse` over the
  lines. The hash-table pass is proved equal to `FirstOccurrences`, the
  first vertex of every key in first-seen order. The lemmas state what those
  two specifications guarantee.

`dx_math.dfy` (module `DxMath`) holds the vectors and the DirectXMath
operations these parts use. Matrices are a free term algebra: every builder
(translation, roll-pitch-yaw rotation, scaling, multiply, transpose, inverse,
look-to, perspective) is an uninterpreted constructor. So the proofs fix the
order of composition, and nothing is assumed about matrix arithmetic.
Rotating a vector by a pitch/yaw/roll triple is also left uninterpreted. It
is a function-valued parameter, `VectorRotation`, given to each Transform
when it is built.

Numbers are reals. A line of an OBJ file reaches the model as an `ObjLine`:
its text (only the first two characters decide its kind) and what each
`sscanf_s` pattern read from it (the floats of a `v`/`vt`/`vn` line, and the
integers of the two face patterns).

Some details of the source that the model keeps:

- The inverse-transpose keeps the source's call order,
  `Inverse(Transpose(world))` (Transform.cpp:155). As uninterpreted terms it
  is not `Transpose(Inverse(world))`, though for an invertible world the two
  are equal as matrices.
- A face without UVs, in a file without UVs, reads the supplied (0,0) UV,
  which the flip turns into (0,1) (Mesh.cpp:138, 172-174).
- De-duplication compares the `std::to_string` text of the eight floats
  (Mesh.cpp:224-232), not their bits. The key is therefore a parameter
  `key: Vertex -> string`, and every property is stated up to equal keys.
- Transform.cpp keeps one `dirty` flag, where Transform.h declares two; the
  model keeps one.

## Model

| member | source | states |
|---|---|---|
| `Transforms.Transform.constructor` | Transform.cpp:5-13 | A new transform is at the origin, unrotated, scale (1,1,1), dirty, with identity matrices. |
| `Transforms.Transform.SetPosition` | Transform.cpp:20-25 | Overwrites the position only, sets the flag, and keeps the cache invariant. |
| `Transforms.Transform.SetPositionXYZ` | Transform.cpp:15-18 | The component form of SetPosition; with no arguments it moves to the origin. |
| `Transforms.Transform.SetRotation` | Transform.cpp:32-37 | Overwrites pitch/yaw/roll only and sets the flag. |
| `Transforms.Transform.SetRotationPYR` | Transform.cpp:27-30 | The component form; omitted angles are 0. |
| `Transforms.Transform.SetScale` | Transform.cpp:44-49 | Overwrites the scale only and sets the flag. |
| `Transforms.Transform.SetScaleXYZ` | Transform.cpp:39-42 | The component form; with no arguments scale is (1,1,1). |
| `Transforms.Transform.GetPosition` | Transform.cpp:51-54 | Returns the stored position and changes nothing. |
| `Transforms.Transform.GetPitchYawRoll` | Transform.cpp:56-59 | Returns the stored rotation and changes nothing. |
| `Transforms.Transform.GetScale` | Transform.cpp:61-64 | Returns the stored scale and changes nothing. |
| `Transforms.Transform.GetWorldMatrix` | Transform.cpp:66-70 | Returns S·R·T of the current vectors and leaves the flag clear. A clean cache is returned untouched. |
| `Transforms.Transform.GetWorldInverseTransposeMatrix` | Transform.cpp:72-76 | Returns Inverse(Transpose(world)) of the current world, on the same cache discipline. |
| `Transforms.Transform.MoveAbsolute` | Transform.cpp:83-97 | Position becomes old position + offset, component-wise; rotation and scale are unchanged. |
| `Transforms.Transform.MoveAbsoluteXYZ` | Transform.cpp:78-81 | The component form of MoveAbsolute. |
| `Transforms.Transform.Forward` | Transform.h:38 | The local forward axis (0,0,1) turned by the current pitch/yaw/roll. It reads only the orientation, so keyboard movement never changes it (stated by `Cameras.Camera.MoveWithKeys`). |
| `Transforms.Transform.MoveRelative` | Transform.h:49 | Position becomes old position + the offset rotated by the current pitch/yaw/roll. |
| `Transforms.Transform.MoveRelativeXYZ` | Transform.h:48 | The component form of MoveRelative. |
| `Transforms.Transform.Rotate` | Transform.cpp:104-118 | Pitch/yaw/roll become old + delta, with no wrapping. |
| `Transforms.Transform.RotatePYR` | Transform.cpp:99-102 | The component form of Rotate. |
| `Transforms.Transform.Scale` | Transform.cpp:125-139 | Scale becomes old scale times factors, component-wise. |
| `Transforms.Transform.ScaleXYZ` | Transform.cpp:120-123 | The component form of Scale. |
| `Transforms.Transform.CalculateWorldMatrix` | Transform.cpp:141-159 | world = Multiply(Multiply(Scaling, Rotation), Translation) of the current vectors, with its inverse-transpose; clears the flag. |
| `Transforms.ResetWithDefaults` | Transform.h:26-31 | The argument-less setters give position (0,0,0), rotation (0,0,0) and scale (1,1,1). |
| `Transforms.SetPitchOnly` | Transform.h:28 | Setting the pitch alone zeroes yaw and roll, which the camera clamp relies on. |
| `Transforms.NeutralDefaults` | Transform.h:46-53 | The argument-less MoveAbsolute, Rotate and Scale leave all three vectors unchanged. |
| `Transforms.RotateByPiTwice` | Transform.cpp:104-118 | Two rotations by pi add 2·pi of pitch. |
| `Transforms.ScaleTwice` | Transform.cpp:125-139 | Scaling by a, then by b, equals scaling by a*b. |
| `Transforms.ReadWorldTwice` | Transform.cpp:66-70 | Two reads with no mutation between them return the same matrix, S·R·T of the vectors. |
| `Cameras.KeyboardMove` | Camera.cpp:170-177 | With no key held the position is unchanged; without Q, a non-negative step never raises the camera. |
| `Cameras.PressAdds` | Camera.cpp:170-177 | A held key adds its whole offset and a released key adds nothing. |
| `Cameras.KeyboardMoveOffsets` | Camera.cpp:170-177 | One frame of keys: x += D - A, z += W - S, y -= E (all absolute), plus Q's step along the rotated up axis. |
| `Cameras.OpposingKeysCancel` | Camera.cpp:170-174 | Holding W and S, or A and D, together moves as holding neither. |
| `Cameras.Turned` | Camera.cpp:183-187 | The mouse turn never changes roll; with no vertical movement the pitch is kept, with no horizontal movement the yaw. |
| `Cameras.MouseLook` | Camera.cpp:180-196 | Button up: rotation unchanged. Button down: the turned rotation if its pitch is within pi/2; otherwise (±(pi/2 - 0.001), 0, 0) on the same side. |
| `Cameras.Camera.constructor` | Camera.cpp:8-34 | Stores every argument, builds a transform at pos/rot, and leaves a consistent view and projection. |
| `Cameras.Camera.GetView` | Camera.cpp:36-39 | Returns the stored view. |
| `Cameras.Camera.GetProjection` | Camera.cpp:41-44 | Returns the stored projection. |
| `Cameras.Camera.GetTransform` | Camera.cpp:46-49 | Returns the owned transform itself (shared, not copied). |
| `Cameras.Camera.GetFov` | Camera.cpp:51-54 | Returns the stored field of view. |
| `Cameras.Camera.GetNearPlane` | Camera.cpp:56-59 | Returns the stored near plane. |
| `Cameras.Camera.GetFarPlane` | Camera.cpp:61-64 | Returns the stored far plane. |
| `Cameras.Camera.GetMovementSpeed` | Camera.cpp:66-69 | Returns the stored movement speed. |
| `Cameras.Camera.GetLookSpeed` | Camera.cpp:71-74 | Returns the stored look speed. |
| `Cameras.Camera.SetFov` | Camera.cpp:76-86 | fov <= 0 or >= pi changes nothing. Otherwise fov is stored and, in perspective mode, the projection is rebuilt. The optics stay valid. |
| `Cameras.Camera.SetNearPlane` | Camera.cpp:88-98 | near <= 0 or >= far changes nothing. Otherwise near is stored and 0 < near < far < 1000 still holds. |
| `Cameras.Camera.SetFarPlane` | Camera.cpp:100-110 | far >= 1000 or <= near changes nothing. Otherwise far is stored and 0 < near < far < 1000 still holds. |
| `Cameras.Camera.SetMovementSpeed` | Camera.cpp:112-118 | A negative speed is ignored; 0 is accepted; nothing else changes. |
| `Cameras.Camera.SetLookSpeed` | Camera.cpp:120-126 | A negative speed is ignored; 0 is accepted; nothing else changes. |
| `Cameras.Camera.UpdateViewMatrix` | Camera.cpp:128-143 | view = LookTo(position, forward, (0,1,0)) of the transform. |
| `Cameras.Camera.UpdateProjectionMatrix` | Camera.cpp:145-165 | In perspective mode, stores the aspect ratio and rebuilds the projection; otherwise changes nothing. |
| `Cameras.Camera.Update` | Camera.cpp:167-199 | Position becomes KeyboardMove of the old state, rotation becomes MouseLook of the old rotation, scale is kept, and the view is rebuilt. |
| `Cameras.Camera.MoveWithKeys` | Camera.cpp:169-177 | The six key tests, in source order, move the transform to KeyboardMove of its position; the forward axis is unchanged. |
| `Cameras.Camera.HeldMovesAbsolute` | Camera.cpp:170 | One key test: a held key moves the transform by its offset, a released key leaves it where it was. |
| `Cameras.Camera.LookWithMouse` | Camera.cpp:179-196 | The mouse turn and the pitch clamp leave the rotation at MouseLook of the old rotation. |
| `Cameras.DefaultsAreValid` | Camera.h:28-34 | The default optics and speeds satisfy the setters' own rules; the default rotation is zero and the mode perspective. |
| `Cameras.DefaultCamera` | Camera.h:25-35 | A camera built from a position alone is valid and perspective, stores the aspect ratio, and has projection PerspectiveFov(pi/2, aspect, 0.1, 100). |
| `Cameras.FovBoundaries` | Camera.cpp:80-81 | Setting 0 and then pi leaves the field of view as it was each time; pi/2 is then taken. |
| `ObjLoader.Kind` | Mesh.cpp:62-98 | A line is a normal line exactly when it starts with `vn`, a UV line exactly when it starts with `vt`, a position line exactly when it starts with `v` followed by neither `n` nor `t`, a face line exactly when it starts with `f`, and is skipped exactly when it starts with neither `v` nor `f`. |
| `ObjLoader.ReadFloat3` | Mesh.cpp:65-69 | A normal (and, the same way at Mesh.cpp:89-93, a position) holds the numbers read, in order; a missing number reads as 0. |
| `ObjLoader.ReadFloat2` | Mesh.cpp:77-81 | A UV holds the numbers read, in order; a missing number reads as 0. |
| `ObjLoader.FirstScan` | Mesh.cpp:103-110 | The index array after the first face pattern has its 12 slots, zero past what was read. |
| `ObjLoader.Rescan` | Mesh.cpp:120-126 | The p//n pattern writes its k-th number into the k-th position or normal slot (0, 2, 3, 5, ...), keeps a slot it did not reach, and leaves the four UV slots untouched. |
| `ObjLoader.FaceIndices` | Mesh.cpp:103-133 | A face's 12 indices: on the p/t/n path exactly the first scan (the numbers read, then zeros); on the UV-less path the rescan with every UV index set to 1. |
| `ObjLoader.FaceUvs` | Mesh.cpp:135-138 | A non-empty UV list, or any face with UVs, leaves the list alone; a UV-less face on an empty list gets exactly [(0,0)]. |
| `ObjLoader.Corner` | Mesh.cpp:145-184 | Mirrored back, a corner's position and normal are the file's entries; its u is the file's u, and its v plus the file's v is 1. |
| `ObjLoader.FaceVertices` | Mesh.cpp:187-210 | Three vertices, or six for a quad, whose second triangle repeats v1 and v3 of the first. |
| `ObjLoader.LookupIndex` | Mesh.cpp:146-158 | The intended lookup: a 1-based index n >= 1 reads entry n - 1, and anything smaller reads entry 0. |
| `ObjLoader.AsWrittenLookupIndex` | Mesh.cpp:146 | The lookup as written on unsigned 32-bit values: one less than n, modulo 2^32. |
| `ObjLoader.LookupsAgreeOnPositiveIndices` | Mesh.cpp:146-158 | For every index from 1 to 2^32 the written and the intended lookups agree. |
| `ObjLoader.AsWrittenZeroIndexOverruns` | Mesh.cpp:146-148 | An index of 0 reads entry 4294967295 as written, past the end of any shorter list; the intended lookup reads entry 0. |
| `ObjLoader.PartialFaceLeavesIndexZero` | Mesh.cpp:103-117 | "f 1/1 2/2 3/3" takes the p/t/n path with its first normal index left at 0. |
| `ObjLoader.Step` | Mesh.cpp:62-211 | One line only appends: every list keeps its entries, and the vertex list grows by 0, 3 or 6. |
| `ObjLoader.Parse` | Mesh.cpp:55-213 | After any number of lines, the vertex list is whole triangles. |
| `ObjLoader.ParseSnoc` | Mesh.cpp:56-98 | Reading one more line that fits is one more Step of the fold. |
| `ObjLoader.LoadablePrefix` | Mesh.cpp:55-59 | Every prefix of a readable file is readable. |
| `ObjLoader.ScanFace` | Mesh.cpp:100-139 | The two scans give FaceIndices, the count the quad test uses, and the UV list with (0,0) supplied only to a UV-less face when there are no UVs. |
| `ObjLoader.MakeCorner` | Mesh.cpp:145-184 | A corner is the looked-up position, UV and normal, converted to left-handed. |
| `ObjLoader.ReadFace` | Mesh.cpp:141-211 | An f line emits v1,v3,v2, and v1,v4,v3 as well when 12 or 8 numbers were read. |
| `ObjLoader.ReadObjLines` | Mesh.cpp:55-213 | The reading loop's vertex list is the fold Parse of the lines: lines classified by vn, vt, v, f in that order. |
| `ObjLoader.MirroredReversedTriangleKeepsFacing` | Mesh.cpp:160-189 | Mirroring z and reversing the winding turn a triangle's normal into the mirror of the original normal. |
| `ObjLoader.FaceTrianglesKeepFacing` | Mesh.cpp:186-210 | Each emitted triangle faces as its source triangle, seen through the mirror. |
| `ObjLoader.FallbackFaceSharesOneUv` | Mesh.cpp:128-139 | A UV-less face gives all its vertices the first UV, flipped; with no UVs in the file that is (0,1). |
| `ObjLoader.ParseSizes` | Mesh.cpp:62-211 | One position per v line, one normal per vn line, one UV per vt line plus at most one supplied, and three vertices per face plus three per quad. |
| `ObjLoader.CountFacesPositive` | Mesh.cpp:98 | The count of face lines is positive exactly when the file has a face line. |
| `ObjLoader.VerticesAreTriangles` | Mesh.cpp:187-210 | The vertex list is whole triangles, and it is empty exactly when the file has no face. |
| `ObjLoader.FirstOccurrences` | Mesh.cpp:215-255 | The kept list is never longer than the list read. |
| `ObjLoader.FirstOccurrencesKeys` | Mesh.cpp:236-251 | The kept list has exactly the keys of the list read. |
| `ObjLoader.FirstOccurrencesDistinct` | Mesh.cpp:236-251 | No two kept vertices share a key, and every kept vertex was read. |
| `ObjLoader.FirstOccurrencesGrowsByAppending` | Mesh.cpp:242-243 | Reading on only appends to the kept list, so an index once handed out keeps its vertex. |
| `ObjLoader.DistinctKeysAreKept` | Mesh.cpp:236-251 | A list whose keys are already distinct is kept whole. |
| `ObjLoader.FirstOccurrencesStep` | Mesh.cpp:236-251 | One more vertex is appended when its key is new and dropped otherwise. |
| `ObjLoader.FirstOfKeyIsKept` | Mesh.cpp:240-244 | The first vertex of a key is kept, at the number of distinct keys before it. |
| `ObjLoader.FirstOccurrencesIdempotent` | Mesh.cpp:215-255 | De-duplicating twice gives what de-duplicating once gave. |
| `ObjLoader.InsertKeepsMap` | Mesh.cpp:242-244 | Inserting a new key at the next position keeps the table and the kept list in step. |
| `ObjLoader.FindOrInsert` | Mesh.cpp:236-251 | A seen key gets back the index stored for it in the map and nothing changes; a new key gets index = current size and its vertex appended; the map keeps mapping every key to a vertex with that key. |
| `ObjLoader.Deduplicate` | Mesh.cpp:215-255 | The kept vertices are FirstOccurrences of the list read; one index per vertex read, each in range and naming a vertex of the same key. |
| `ObjLoader.SameKeySameIndex` | Mesh.cpp:236-254 | Two vertices get the same index exactly when their keys are equal. |
| `ObjLoader.IndicesRebuildVertices` | Mesh.cpp:224-254 | When the key separates distinct vertices, kept vertices and indices rebuild the list read exactly. |
| `ObjLoader.Mesh.FromObj` | Mesh.cpp:31-267 | The mesh holds the de-duplicated vertices and one index per vertex read; counts match, 0 < vertexCount <= indexCount, indexCount is a multiple of 3, every index is in range. |
| `ObjLoader.Mesh.GetIndexCount` | Mesh.cpp:283-286 | Returns the stored index count. |
| `ObjLoader.Mesh.GetVertexCount` | Mesh.cpp:288-291 | Returns the stored vertex count. |
| `ObjLoader.Mesh.GetName` | Mesh.cpp:293-296 | Returns the display name. |
| `ObjLoader.LoadMesh` | Mesh.cpp:31-44 | A file that cannot be opened gives invalid_argument with the source's message and no mesh; an open file gives a valid mesh whose vertices are the first occurrences of the vertices read, with one index per vertex read, each naming a vertex with the same key. |
| `ObjLoader.LoadNamedMesh` | Mesh.cpp:26-29 | The same load, with the same vertices and key-matching indices, and only the display name overridden. |

## Left out

- Float rounding: all numbers are reals. A key built by `std::to_string` can
  merge vertices that differ beyond six decimals; the model states every
  de-duplication property up to equal keys.
- Character-level input is left out: `ifstream`, `getline` and its 100-character
  line limit, and `sscanf_s` text parsing. Lines arrive tokenised, with what
  each pattern read.
- DirectXMath internals are left out: matrix arithmetic, the quaternion that
  rotates a vector, look-to and perspective matrices. They are
  uninterpreted, as described above.
- `Mesh::CreateBuffers`, `Mesh::Draw`, `GetVertexBuffer` and `GetIndexBuffer`
  are left out, because they are Direct3D device calls. The array constructor
  (Mesh.cpp:13-24) only forwards to them.
- The orthographic projection is left out: its branch is commented out in
  Camera.cpp:163-164.
- `GetForward`, `GetRight`, `GetUp`, `MoveRelative`, `CalculateVectors` and
  the second dirty flag are declared in Transform.h but not defined in
  Transform.cpp; their definitions are not part of this model. Forward and
  relative movement rotate through the `VectorRotation` parameter, with no
  cache; right and up are not modelled.
- Input polling (`Input::KeyDown`, `MouseLeftDown`, the mouse deltas) becomes
  the `FrameInput` parameter of `Update`. The frame time is a parameter too.
- `Cameras.Camera.constructor` requires valid optics and non-negative
  speeds, which the source never checks. Its declaration (Camera.h:25-35)
  and definition (Camera.cpp:8-17) order the parameters differently; the
  model takes the definition's order and attaches the header's defaults by
  name. The one call that passes a fourth argument, `Camera(aspect, pos,
  rot, XM_PI)` at Game.cpp:80-84, means a movement speed of pi by the
  header's order; in the definition's order it is a field of view of pi,
  which this constructor's requires refuses.
- `ObjLoader.Mesh.FromObj` requires every face index, looked up with the
  corrected `LookupIndex`, to name an existing entry. It also requires the
  file to have a face, because the source takes `&finalVertices[0]` of an
  empty list otherwise. The same holds for `ObjLoader.LoadMesh`,
  `ObjLoader.LoadNamedMesh` and `ObjLoader.ReadObjLines`.
- `ObjLoader.Parse`, `ObjLoader.Mesh.FromObj`: a face index that a pattern left
  at 0, or a non-positive one, reads entry 0 through the corrected lookup.
  The source as written reads entry 4294967295 (or another wrapped index)
  instead, out of range of any real list (see Findings). So the model loads
  faces the source cannot: `f 1/1 2/2 3/3`, and positions-only faces such as
  `f 1 2 3`. The latter does not load as the triangle 1, 2, 3: each pattern
  stops after the first number, so the second and third position slots stay
  0 and all three corners sit at position 1, a degenerate triangle. On files whose indices are all positive, the two lookups
  agree (`ObjLoader.LookupsAgreeOnPositiveIndices`). This matches the
  assumption stated at Mesh.cpp:101-102 that faces carry positions, UVs and
  normals.
- `ObjLoader.Mesh.GetIndexCount` returns a natural number; the unsigned
  counts and their cast to `int` are not modelled.
- `Cameras.Camera.GetTransform` returns the shared transform; shared-pointer
  reference counting is not modelled.

## Findings

| source | as written | input that shows it | evidently intended | confidence | as-written member | corrected member |
|---|---|---|---|---|---|---|
| Mesh.cpp:146-158, 198-200 | `max(i[k] - 1, 0)` on `unsigned int` indices: for an index of 0 the subtraction wraps to 4294967295, which is larger than 0, so the clamp never fires | `f 1/1 2/2 3/3`: the first pattern reads two numbers and leaves the normal index at 0, so the lookup reads `normals[4294967295]` | an index of 0 (or below) reads entry 0 | high, not executed | `ObjLoader.AsWrittenZeroIndexOverruns` | `ObjLoader.LookupIndex` |
