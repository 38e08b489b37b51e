# Projection-Mapper, modelled in Dafny

Projection-Mapper is an Electron application for projection mapping. The
user places quads ("geometries") over surfaces seen by a projector and hangs
content layers on them: images, videos, solid colours, shaders and patterns.
The output window then warps each layer onto its quad with a homography.

This project models the deterministic core of that application and proves
properties about it:

- **The project store** (`ProjectStore`). It holds the project (geometries,
  layers, global settings), the selection, the file path, the dirty flag and
  the displays. Each action is a pure step function on a `StoreState` value.
  The `Store` class has one method per action, and each method's contract
  ties the new state to that step function.
- **The command front ends that drive the store**:
  - drag-reordering, the remote-control message dispatch and the
    calibration reset (`App`);
  - the keyboard shortcut chain (`Keyboard`);
  - the layer-groups panel (`LayerGroups`);
  - the toolbar's transport buttons and its add-geometry button
    (`ToolbarActions`);
  - `Sweep`, the fold shared by the handlers that call `updateLayer` for
    every layer of a list.
- **The projection engine's bookkeeping** (`Engine`):
  - the texture and video caches;
  - which layers produce a draw call, in what order and with which
    parameters;
  - the per-frame video refresh;
  - the power-of-two test that decides mipmapping;
  - the blend-mode encoding.
- **The homography helpers** (`Homography`). Over exact reals they cover the
  coefficient matrix of the direct linear transform (DLT), transpose and
  product, normalisation, column-major packing, the 3x3 inverse, the point
  transform and bilinear interpolation. The inverse takes and returns a
  `Mat3` record of nine entries, row-major, for the nine-entry array the
  source uses.
- **The calibration overlay** (`Calibration`): the conversion between screen
  pixels and normalised device coordinates, and the corner-drag state.
- **The test patterns** (`TestPatterns`): the hex colour parser, and the
  lines, cells and circles each pattern draws. Drawing is recorded as a log
  of canvas operations.
- **The main process's display list and output window** (`Displays`).

Shared modules: `Types` (the data model), `Seqs` (filtering and
subsequences) and `Text` (decimal printing and parsing of naturals).

Numbers are Dafny `real`s, so there is no floating-point rounding. Ids
(`uuidv4`), timestamps and everything the browser or operating system
reports are parameters:

- image and video load outcomes;
- video `readyState`;
- the screen list;
- the canvas's bounding rectangle;
- the result of reading a project file.

Event handlers in the React components read the store through the closure
they were created with. For the listeners that `App` installs once at mount
(the menu's reset and the WebSocket messages), that closure is the
mount-time project, and the model passes the list they read as an explicit
`seen` parameter. The other handlers read the store's current state at the
moment of the event; "## Left out" names each of them.

## Model

All source paths are under `src/`.

| member | source | states |
|---|---|---|
| ProjectStore.Store.constructor | src/renderer/stores/useProjectStore.ts:66-89 | the store starts with an empty default project (no geometries, layers or groups), nothing selected, no path, clean |
| ProjectStore.NewProjectStep | src/renderer/stores/useProjectStore.ts:66-100 | the new project is exactly `createDefaultProject()`: the given id, name "Untitled Project", version "0.1.0", created and modified both `now`, no geometries, layers or groups, intensity 1, a white tint without alpha and no output display id; both selections and the path are cleared; the store is clean; displays and the output display are kept |
| ProjectStore.Store.NewProject | src/renderer/stores/useProjectStore.ts:92-100 | the store after `newProject` is NewProjectStep of the old one |
| ProjectStore.LoadProjectStep | src/renderer/stores/useProjectStore.ts:102-109 | the loaded project is installed; both selections are cleared and the store is clean; the path and displays are kept |
| ProjectStore.Store.LoadProject | src/renderer/stores/useProjectStore.ts:102-109 | the store after `loadProject` is LoadProjectStep of the old one |
| ProjectStore.Store.SetProjectPath | src/renderer/stores/useProjectStore.ts:111-113 | only the path changes |
| ProjectStore.Store.MarkDirty | src/renderer/stores/useProjectStore.ts:115-117 | only the dirty flag changes, to true |
| ProjectStore.Store.MarkClean | src/renderer/stores/useProjectStore.ts:119-121 | only the dirty flag changes, to false |
| ProjectStore.Store.SetDisplays | src/renderer/stores/useProjectStore.ts:124-126 | only the display list changes |
| ProjectStore.SelectOutputDisplayStep | src/renderer/stores/useProjectStore.ts:128-140 | `outputDisplayId` becomes the display's id; intensity, tint and the rest of the project are unchanged, including the modification time; the output display is recorded and the store is dirty; nothing else changes |
| ProjectStore.Store.SelectOutputDisplay | src/renderer/stores/useProjectStore.ts:128-140 | the store after `selectOutputDisplay` is SelectOutputDisplayStep of the old one |
| ProjectStore.AddGeometryStep | src/renderer/stores/useProjectStore.ts:143-164 | exactly one geometry is appended and the old ones are a prefix; it has the given id and is visible with the default transform; its name is the given one, or "Geometry n+1" when none or empty is given; its 4 points carry the given ids at (-0.5,-0.5), (0.5,-0.5), (0.5,0.5), (-0.5,0.5) in order; it becomes selected; the store is dirty; the rest of the project is unchanged |
| ProjectStore.DefaultGeometryNameNumber | src/renderer/stores/useProjectStore.ts:147 | a default geometry name is "Geometry " followed by digits that parse back to the count plus one |
| ProjectStore.Store.AddGeometry | src/renderer/stores/useProjectStore.ts:143-164 | returns the new id; the store after `addGeometry` is AddGeometryStep of the old one |
| ProjectStore.UpdateGeometryStep | src/renderer/stores/useProjectStore.ts:166-177 | the list length is kept; each geometry with the given id becomes the old one with the patch's supplied fields overwriting its own, every other geometry is unchanged; an unknown id leaves the list equal to the old one; the rest of the project is unchanged and its modification time is `now`; the store is dirty |
| ProjectStore.UpdateGeometries | src/renderer/stores/useProjectStore.ts:170-172 | the `.map` keeps the length and merges the patch into exactly the geometries with the given id |
| ProjectStore.Store.UpdateGeometry | src/renderer/stores/useProjectStore.ts:166-177 | the store after `updateGeometry` is UpdateGeometryStep of the old one |
| ProjectStore.DeleteGeometryStep | src/renderer/stores/useProjectStore.ts:179-190 | a geometry survives iff it was there and has another id; a layer survives iff it was there and is not on that geometry (the cascade); both lists keep their relative order (they are subsequences of the old lists); every record keeps its multiplicity: each copy of a kept geometry or layer survives and no copy of a removed one does; the geometry selection is cleared iff it named the deleted id; the modification time is `now`; the store is dirty |
| Seqs.FilterCounts | src/renderer/stores/useProjectStore.ts:183-184 | `filter` keeps every copy of an element the predicate accepts and no copy of one it rejects (multiplicities, not just membership) |
| ProjectStore.Store.DeleteGeometry | src/renderer/stores/useProjectStore.ts:179-190 | the store after `deleteGeometry` is DeleteGeometryStep of the old one |
| ProjectStore.Store.SelectGeometry | src/renderer/stores/useProjectStore.ts:192-194 | only the geometry selection changes |
| ProjectStore.SetPointPosition | src/renderer/stores/useProjectStore.ts:201-204 | the point count and every point id are kept; only the point at the index takes the new position |
| ProjectStore.UpdateGeometryPointStep | src/renderer/stores/useProjectStore.ts:196-210 | geometries with another id are unchanged; the matching one keeps every field but its points, keeps its point count and every point id, and only the indexed point takes the new position; the rest of the project is unchanged and its modification time is `now`; the store is dirty |
| ProjectStore.Store.UpdateGeometryPoint | src/renderer/stores/useProjectStore.ts:196-210 | the store after `updateGeometryPoint` is UpdateGeometryPointStep of the old one |
| ProjectStore.PatchContent | src/renderer/stores/useProjectStore.ts:293-304 | merging a partial layer never changes the layer's type, and an empty patch changes no content |
| ProjectStore.ApplyLayerPatchTwice | src/renderer/stores/useProjectStore.ts:293-304 | `{ ...l, ...updates }` is idempotent: merging the same partial layer twice gives the same layer as merging it once |
| ProjectStore.AddLayerStep | src/renderer/stores/useProjectStore.ts:213-291 | exactly one layer is appended and the old ones are a prefix; it has the given id and geometry; its order is the old layer count and its name is "Layer order+1"; it is visible with opacity 1, blend mode normal, the default transform, no group and no lock flag; its content is DefaultContent of the requested type; it becomes selected; the modification time is `now`; the store is dirty |
| ProjectStore.DefaultContent | src/renderer/stores/useProjectStore.ts:226-289 | the content has the requested type, with that type's defaults: an image with an empty source; a looping, paused video with empty source, volume 1 and time and duration 0; opaque white; an empty fragment shader without a vertex shader; the "solid" pattern in #00ff88 with fill opacity 1, border width 0 and no other config, not animated and playing |
| ProjectStore.AddLayerKeepsOrders | src/renderer/stores/useProjectStore.ts:213-225 | when every layer's order is its index, that still holds after adding a layer |
| ProjectStore.Store.AddLayer | src/renderer/stores/useProjectStore.ts:213-291 | returns the new id; the store after `addLayer` is AddLayerStep of the old one |
| ProjectStore.UpdateLayerStep | src/renderer/stores/useProjectStore.ts:293-304 | the list length is kept; position k is the old layer merged with the patch when its id matches, otherwise the old layer; an unknown id leaves the list equal to the old one; the rest of the project is unchanged and its modification time is `now`; the store is dirty |
| ProjectStore.Store.UpdateLayer | src/renderer/stores/useProjectStore.ts:293-304 | the store after `updateLayer` is UpdateLayerStep of the old one |
| ProjectStore.DeleteLayerStep | src/renderer/stores/useProjectStore.ts:306-316 | a layer survives iff it was there and has another id, in its old relative order; each copy of a layer with another id survives and none with the id does; the layer selection is cleared iff it named the id; the modification time is `now`; the store is dirty |
| ProjectStore.Store.DeleteLayer | src/renderer/stores/useProjectStore.ts:306-316 | the store after `deleteLayer` is DeleteLayerStep of the old one |
| ProjectStore.Store.SelectLayer | src/renderer/stores/useProjectStore.ts:318-320 | only the layer selection changes |
| ProjectStore.LayerIndex | src/renderer/stores/useProjectStore.ts:324 | the id index holds every layer under its own id, holds only layers of the list, and every layer's id is a key |
| ProjectStore.LayerIndexLastWins | src/renderer/stores/useProjectStore.ts:324 | later entries overwrite earlier ones in `new Map(...)`: for a repeated id the index holds the last layer of the list with that id |
| ProjectStore.LayerIndexOfUnique | src/renderer/stores/useProjectStore.ts:324 | with unique ids, looking up a layer's id finds that layer |
| ProjectStore.Reordered | src/renderer/stores/useProjectStore.ts:325-331 | the result is no longer than the id list |
| ProjectStore.ReorderedPlaced | src/renderer/stores/useProjectStore.ts:325-331 | every kept layer is the indexed layer of the id at position `order`, with only its order changed |
| ProjectStore.ReorderedKeepsKnown | src/renderer/stores/useProjectStore.ts:324-331 | `filter(Boolean)` drops only ids the index lacks: each known id's layer is kept with its position as order |
| ProjectStore.ReorderedIncreasing | src/renderer/stores/useProjectStore.ts:325-331 | the kept layers' orders strictly increase |
| ProjectStore.ReorderLayers | src/renderer/stores/useProjectStore.ts:324-331 | the result is no longer than the id list; each result layer is an old layer with only its order changed, that order being the index of its id in the list; the orders increase; every listed id of an existing layer yields a layer with that id and its index as order; for a repeated id the layer kept is the list's last copy with that id |
| ProjectStore.ReorderLayersStep | src/renderer/stores/useProjectStore.ts:322-341 | the result has at most as many layers as ids; each result layer is an old layer with only its order changed; that order is the index in the id list of its id; the orders increase along the result; every listed id that names an existing layer yields a result layer with that id whose order is its index; for a repeated id that layer is the last copy in the old list; the rest of the project is unchanged and its modification time is `now`; the store is dirty |
| ProjectStore.ReorderByPermutation | src/renderer/stores/useProjectStore.ts:322-341 | given a permutation of the layer ids, the result has the same length, its ids are exactly the given list, and every order equals its position |
| ProjectStore.ReorderLosesNoLayer | src/renderer/stores/useProjectStore.ts:322-341 | given unique ids and a permutation of them, every old layer appears in the result, changed only in its order |
| ProjectStore.Store.ReorderLayers | src/renderer/stores/useProjectStore.ts:322-341 | the store after `reorderLayers` is ReorderLayersStep of the old one |
| ProjectStore.UpdateGlobalSettingsStep | src/renderer/stores/useProjectStore.ts:344-353 | each supplied global field takes its new value and each absent one keeps its old value; the rest of the project is unchanged and its modification time is `now`; the store is dirty |
| ProjectStore.Store.UpdateGlobalSettings | src/renderer/stores/useProjectStore.ts:344-353 | the store after `updateGlobalSettings` is UpdateGlobalSettingsStep of the old one |
| Homography.Transposed | src/renderer/utils/homography.ts:58-71 | the transpose of an r x c matrix is c x r with `At[j][i] == A[i][j]` |
| Homography.TransposeTwice | src/renderer/utils/homography.ts:58-71 | transposing twice gives the matrix back |
| Homography.Transpose | src/renderer/utils/homography.ts:58-71 | the nested loops build exactly the transpose |
| Homography.Product | src/renderer/utils/homography.ts:73-90 | an r x k matrix times a k x c matrix is r x c; entry (i, j) is the sum over k of `A[i][k] * B[k][j]` |
| Homography.Multiply | src/renderer/utils/homography.ts:73-90 | the triple loop with its accumulator computes exactly that product |
| Homography.NormalMatrixSymmetric | src/renderer/utils/homography.ts:46-47 | the normal matrix AᵀA is square and symmetric |
| Homography.Pairs | src/renderer/utils/homography.ts:15-25 | the first n pairs give 2n rows of 9 entries |
| Homography.DLTMatrix | src/renderer/utils/homography.ts:13-25 | four pairs give an 8 x 9 matrix |
| Homography.PairsRows | src/renderer/utils/homography.ts:15-25 | row 2i is [-x,-y,-1,0,0,0,xX,yX,X] and row 2i+1 is [0,0,0,-x,-y,-1,xY,yY,Y] for pair i |
| Homography.BuildCoefficients | src/renderer/utils/homography.ts:13-25 | the push loop builds exactly that matrix |
| Homography.RowXValue | src/renderer/utils/homography.ts:22 | the x row applied to h is X times the homogeneous weight minus the homogeneous x |
| Homography.RowYValue | src/renderer/utils/homography.ts:24 | the y row applied to h is Y times the homogeneous weight minus the homogeneous y |
| Homography.PairRows | src/renderer/utils/homography.ts:21-24 | a pair's two rows vanish on h iff h maps the source point to the destination point |
| Homography.PairsNullSpace | src/renderer/utils/homography.ts:15-25 | the rows of the first n pairs vanish on h iff h maps each of those pairs |
| Homography.DLTNullSpace | src/renderer/utils/homography.ts:13-25 | h is in the null space of the coefficient matrix iff it maps all four correspondences |
| Homography.Normalize | src/renderer/utils/homography.ts:54-55 | normalising keeps nine entries |
| Homography.NormalizeProperties | src/renderer/utils/homography.ts:54-55 | the divisor is never 0; each normalised entry times the divisor is the original entry; the last entry becomes 1 unless it was 0; a vector ending in 0 is left unchanged |
| Homography.NormalizeKeepsNullSpace | src/renderer/utils/homography.ts:54-55 | normalising keeps a vector in (or out of) the null space of any row |
| Homography.ScaledApply | src/renderer/utils/homography.ts:55 | a non-zero rescaling keeps a vector in (or out of) the null space of any row |
| Homography.SolveSVD | src/renderer/utils/homography.ts:42-56 | the result is the normalised vector the solver returns for AᵀA |
| Homography.ColumnMajor | src/renderer/utils/homography.ts:31-35 | packing keeps nine entries |
| Homography.ColumnMajorLayout | src/renderer/utils/homography.ts:31-35 | entry (r, c) of the row-major matrix lands at index 3c + r, and packing twice gives the coefficients back |
| Homography.HomographyOf | src/renderer/utils/homography.ts:7-36 | it fails iff either list does not have exactly 4 points; on success it has nine entries |
| Homography.HomographyLastEntry | src/renderer/utils/homography.ts:31-35 | the packed result's last entry is 1 whenever the solver's vector does not end in 0 |
| Homography.HomographyMapsPairs | src/renderer/utils/homography.ts:7-36 | when the solver's vector is an exact null vector, the result read back from column-major order maps every source point to its destination |
| Homography.CalculateHomography | src/renderer/utils/homography.ts:7-36 | the method's result is HomographyOf of its inputs |
| Homography.CreatePerspectiveTransform | src/renderer/utils/homography.ts:177-190 | it fails iff there are not exactly 4 corners; otherwise it is the homography from the rectangle (0,0), (w,0), (w,h), (0,h) onto the corners |
| Homography.TransformPoint | src/renderer/utils/homography.ts:130-140 | the result is undefined (a division by zero in the source) iff the homogeneous weight is 0 |
| Homography.TransformByIdentity | src/renderer/utils/homography.ts:130-140 | the identity leaves every point where it is |
| Homography.TransformPointMaps | src/renderer/utils/homography.ts:130-140 | with a non-zero weight, the transform lands on q iff h maps p to q |
| Homography.PackedTransformMapsPairs | src/renderer/utils/homography.ts:134-137 | when the point transform reads the packed result column-major, each source point goes to its destination, for an exact null vector and non-zero weights |
| Homography.TransformPointMisreadsPacked | src/renderer/utils/homography.ts:134-137 | concrete case: the square shifted one unit right, with an exact solver; the packed result is the translation, yet `transformPoint` on it sends (1,-1) to (0.5,-0.5); read column-major it gives (2,-1) |
| Homography.ShiftSolvesSquare | src/renderer/utils/homography.ts:13-25 | the translation is an exact null vector of the shifted square's coefficient matrix |
| Homography.ShiftReadBothWays | src/renderer/utils/homography.ts:130-140 | the packed translation read row-major sends (1,-1) to (0.5,-0.5); read column-major it sends (1,-1) to (2,-1) |
| Homography.InvertHomography | src/renderer/utils/homography.ts:145-171 | the identity when the determinant is below 1e-10 in absolute value |
| Homography.AdjugateProduct | src/renderer/utils/homography.ts:147-168 | h times its adjugate, and its adjugate times h, are det(h) times the identity |
| Homography.AdjugateEntries | src/renderer/utils/homography.ts:147-168 | the same identity for a matrix given entry by entry |
| Homography.FirstRowCofactors | src/renderer/utils/homography.ts:147-168 | the first row of h times column j of the adjugate is det(h) when j = 0 and 0 otherwise |
| Homography.SecondRowCofactors | src/renderer/utils/homography.ts:147-168 | the second row of h times column j of the adjugate is det(h) when j = 1 and 0 otherwise |
| Homography.ThirdRowCofactors | src/renderer/utils/homography.ts:147-168 | the third row of h times column j of the adjugate is det(h) when j = 2 and 0 otherwise |
| Homography.FirstColumnCofactors | src/renderer/utils/homography.ts:147-168 | the first row of the adjugate times column j of h is det(h) when j = 0 and 0 otherwise |
| Homography.SecondColumnCofactors | src/renderer/utils/homography.ts:147-168 | the second row of the adjugate times column j of h is det(h) when j = 1 and 0 otherwise |
| Homography.ThirdColumnCofactors | src/renderer/utils/homography.ts:147-168 | the third row of the adjugate times column j of h is det(h) when j = 2 and 0 otherwise |
| Homography.InverseIsRightInverse | src/renderer/utils/homography.ts:145-171 | when h is not singular, h times its computed inverse is the identity |
| Homography.InverseIsLeftInverse | src/renderer/utils/homography.ts:145-171 | when h is not singular, its computed inverse times h is the identity |
| Homography.BilinearCorners | src/renderer/utils/homography.ts:195-218 | the unit square's corners (0,0), (1,0), (1,1), (0,1) give corners 0, 1, 2, 3 |
| Homography.BilinearInterpolate | src/renderer/utils/homography.ts:195-218 | undefined (the read of a missing corner throws) iff there are fewer than four corners |
| Homography.BilinearWeights | src/renderer/utils/homography.ts:206-216 | inside the unit square the four weights are non-negative and add up to 1 |
| Homography.BilinearWithinBounds | src/renderer/utils/homography.ts:195-218 | inside the unit square the interpolated point lies within the corners' bounding box |
| Engine.Bits32 | src/renderer/engine/ProjectionEngine.ts:244-246 | the 32-bit pattern is below 2^32 |
| Engine.BitAndPredecessor | src/renderer/engine/ProjectionEngine.ts:244-246 | for v at least 1, `v & (v-1)` is 0 iff v is a power of two |
| Engine.IsPowerOf2Correct | src/renderer/engine/ProjectionEngine.ts:244-246 | on 32-bit values the test accepts exactly 0 and the powers of two |
| Engine.BlendCode | src/renderer/engine/ProjectionEngine.ts:357-358 | every blend code is below 4 |
| Engine.BlendCodeBijective | src/renderer/engine/ProjectionEngine.ts:357-358 | normal, add, multiply, screen are encoded as a bijection onto 0..3 |
| Engine.RenderAbortsOnBadQuad | src/renderer/engine/ProjectionEngine.ts:303-335 | a frame aborts iff some layer that passes the visibility, geometry and texture checks sits on a geometry without exactly four points |
| Engine.RenderDrawsExactly | src/renderer/engine/ProjectionEngine.ts:303-315 | a completed frame draws exactly the layers that pass all checks, in the order of the layer list |
| Engine.RenderDrawParameters | src/renderer/engine/ProjectionEngine.ts:326-358 | each draw call carries its layer's texture, the homography from the fixed quad to its geometry's positions, its opacity, the r, g, b of the global tint (its alpha is not passed), the global intensity, and its blend code |
| Engine.RenderUploadsOnlyEligibleVideos | src/renderer/engine/ProjectionEngine.ts:304-312 | video frames are uploaded only for video layers that passed the visibility and geometry checks and can be refreshed |
| Engine.OnlyMediaDrawn | src/renderer/engine/ProjectionEngine.ts:314-315 | when textures exist only for image and video layers, colour, shader and pattern layers are never drawn |
| Engine.DrawsFromLayers | src/renderer/engine/ProjectionEngine.ts:303 | every draw call is for a layer of the list |
| Engine.ProjectionEngine.constructor | src/renderer/engine/ProjectionEngine.ts:68-82 | both caches start empty |
| Engine.ProjectionEngine.LoadImage | src/renderer/engine/ProjectionEngine.ts:169-200 | on failure it rejects with "Failed to load image: src" and leaves the textures alone; on load it sets (or replaces) the texture for the id, mipmapped iff both dimensions pass the power-of-two test; the videos are untouched |
| Engine.ProjectionEngine.LoadVideo | src/renderer/engine/ProjectionEngine.ts:202-231 | on failure it rejects and leaves both caches alone; on load it stores a looping, muted video and a clamped texture under the id |
| Engine.ProjectionEngine.UpdateVideoTexture | src/renderer/engine/ProjectionEngine.ts:233-242 | a frame is uploaded iff both a video and a texture exist for the id and `readyState` is at least 2 |
| Engine.ProjectionEngine.Render | src/renderer/engine/ProjectionEngine.ts:248-371 | with no program nothing happens; otherwise the frame is RenderLayers of the inputs and its uploads are logged |
| Engine.ProjectionEngine.LayerStep | src/renderer/engine/ProjectionEngine.ts:303-358 | one pass of the layer loop keeps "frame so far, then the loop from this layer on, is the whole frame", or ends the frame with the homography error |
| Engine.ProjectionEngine.Destroy | src/renderer/engine/ProjectionEngine.ts:394-414 | both caches are empty afterwards |
| App.FindIndex | src/renderer/App.tsx:179-180 | the first index holding the id, or -1 iff no layer has it |
| App.SpliceStart | src/renderer/App.tsx:183-184 | the start is clamped into the array, and a negative start counts from the end |
| App.Splice | src/renderer/App.tsx:183-184 | the array afterwards and the removed items together hold the old items plus the inserted ones, as multisets |
| App.SpliceOut | src/renderer/App.tsx:183 | removing one item at a valid index leaves the rest in order and returns that item |
| App.SpliceIn | src/renderer/App.tsx:184 | inserting one item at a valid index puts it there, between the two old halves |
| App.Moved | src/renderer/App.tsx:182-184 | the move is undefined iff there are no layers |
| App.MovedIsPermutation | src/renderer/App.tsx:182-186 | the moved list, and its id list, are permutations of the old ones: a drag loses no layer |
| App.MovedPlacesDragged | src/renderer/App.tsx:179-184 | when both ids are found, the dragged layer ends at the target's old index and the others keep their relative order |
| App.MovedFound | src/renderer/App.tsx:179-184 | when both ids are found, the move splices the dragged layer out and back in at the target's index |
| App.Renumbered | src/renderer/App.tsx:186 | every layer's order becomes its position and nothing else changes |
| App.DropStep | src/renderer/App.tsx:176-188 | with no target, a drop on the dragged layer itself, or no layers, nothing changes |
| App.DropKeepsEveryLayer | src/renderer/App.tsx:176-188 | with unique ids, a drop on another layer yields exactly the moved list, renumbered |
| App.ReorderByOwnIds | src/renderer/App.tsx:186 | reordering uniquely named layers by the ids of a permutation of them gives that permutation, renumbered |
| App.HandleLayerReorder | src/renderer/App.tsx:176-188 | the store after a drop is DropStep of the old one |
| App.LoadFileStep | src/renderer/App.tsx:90-101 | a failed read changes nothing; a successful one installs the project with its path, clean, with both selections cleared |
| App.LoadProjectFile | src/renderer/App.tsx:90-101 | the store afterwards is LoadFileStep of the old one |
| App.WSStep | src/renderer/App.tsx:151-174 | message types without a case change nothing |
| App.SeekSetsCurrentTime | src/renderer/App.tsx:164-172 | reading the current, uniquely named layers, a seek sets `currentTime` on the named layer iff it is a video; every other layer is unchanged |
| App.SeekNeedsSeenVideo | src/renderer/App.tsx:164-172 | a seek for a layer that is missing from the layers the handler reads, or is not a video there, changes nothing |
| App.HandleWSMessage | src/renderer/App.tsx:151-174 | the store afterwards is WSStep of the old one and the layers the handler reads |
| App.HandleWSMessageAsInstalled | src/renderer/App.tsx:84-86 | the listener installed at mount reads the mount-time (empty) layer list |
| App.InstalledSeekIgnored | src/renderer/App.tsx:164-172 | as installed, a seek never changes the store |
| App.HandleWSMessageCurrent | src/renderer/App.tsx:151-174 | the handler that reads the current layers: WSStep with the store's own layers |
| App.ResetPointsEffect | src/renderer/App.tsx:143-147 | resetting n corners of one geometry changes only the geometries with that id, and only their first n points |
| App.NextCornerReset | src/renderer/App.tsx:143-147 | moving corner n-1 of a geometry whose first n-1 corners are reset resets its first n, and changes nothing else |
| App.ResetStepEffect | src/renderer/App.tsx:133-149 | after a reset, exactly the geometries whose id appears in the list the handler reads have all four corners at the defaults; the others are unchanged |
| App.ResetTwice | src/renderer/App.tsx:135-148 | resetting a geometry that is already reset changes nothing |
| App.ResetCurrentResetsAll | src/renderer/App.tsx:133-149 | reading the current geometries, a reset puts every quad's corners at the defaults and keeps point ids and all other fields |
| App.ResetCalibration | src/renderer/App.tsx:133-149 | the loop over geometries and corner indices yields ResetStep |
| App.ResetCalibrationAsInstalled | src/renderer/App.tsx:77-78 | the menu's reset, bound at mount to the empty initial project, leaves the store unchanged |
| App.ResetCalibrationCurrent | src/renderer/App.tsx:133-149 | the reset that reads the current geometries yields ResetStep over them |
| Sweep.PatchPrefix | src/renderer/components/LayerGroups.tsx:275-279 | walking the first n layers of the store's own list (unique ids, the patch keeps ids) patches exactly the picked ones among them |
| Sweep.PatchEachEffect | src/renderer/components/Toolbar.tsx:37-41 | walking the store's own list with unique ids gives that list with exactly the picked layers patched; the store is dirty iff some layer was picked |
| Sweep.PatchEachLayer | src/renderer/components/Toolbar.tsx:37-41 | the for-each loop yields PatchEach |
| Keyboard.ToLower | src/renderer/hooks/useKeyboardShortcuts.ts:46 | the length is kept and every character is lower-cased |
| Keyboard.DigitRangeShape | src/renderer/hooks/useKeyboardShortcuts.ts:110 | a key in the range "0".."9" starts with a digit; a one-character key is in that range iff it is a digit |
| Keyboard.LeadingDigits | src/renderer/hooks/useKeyboardShortcuts.ts:111 | the longest prefix of digits, as `parseInt` reads it |
| Keyboard.DigitOpacityValues | src/renderer/hooks/useKeyboardShortcuts.ts:110-111 | key '0' sets opacity 1, and key 'd' for d from 1 to 9 sets d/10 |
| Keyboard.ArrowDelta | src/renderer/hooks/useKeyboardShortcuts.ts:118-138 | keys other than the four arrows give no movement |
| Keyboard.Classify | src/renderer/hooks/useKeyboardShortcuts.ts:31-167 | a key from a text field has no effect; the reset handler is never notified |
| Keyboard.ClassifyChangesOnce | src/renderer/hooks/useKeyboardShortcuts.ts:31-167 | no key press yields two effects that change the store |
| Keyboard.ExclusiveBlocks | src/renderer/hooks/useKeyboardShortcuts.ts:45-167 | the file blocks never change the store, each other block changes it at most once, and a key that makes one block change the store leaves every later block quiet |
| Keyboard.Nudged | src/renderer/hooks/useKeyboardShortcuts.ts:202-211 | the position moves by (dx, dy); z, rotation and scale are kept |
| Keyboard.DigitKeySetsOpacity | src/renderer/hooks/useKeyboardShortcuts.ts:108-114 | an unmodified digit key sets the selected layer's opacity (1 for '0', d/10 otherwise), does nothing with no layer selected, and notifies no one |
| Keyboard.ArrowKeyNudges | src/renderer/hooks/useKeyboardShortcuts.ts:117-143 | with a selection, an arrow moves the selected layer by 0.01 with Shift or 0.001 without (up +y, down -y, left -x, right +x); with only a geometry selected nothing moves |
| Keyboard.ArrowKeyNeedsSelection | src/renderer/hooks/useKeyboardShortcuts.ts:117 | with nothing selected an arrow key does nothing |
| Keyboard.DeleteKeyDeletes | src/renderer/hooks/useKeyboardShortcuts.ts:94-98 | Delete or Backspace deletes the selected layer if there is one, otherwise the selected geometry |
| Keyboard.HKeyTogglesVisibility | src/renderer/hooks/useKeyboardShortcuts.ts:90-93 | 'h' notifies the visibility handler and flips `visible` on the selected layer if there is one, otherwise on the selected geometry |
| Keyboard.CmdKeyAddsLayer | src/renderer/hooks/useKeyboardShortcuts.ts:146-161 | Cmd+I, Cmd+V and Cmd+K add an image, video or colour layer on the selected geometry, and do nothing without one |
| Keyboard.CmdGAddsGeometry | src/renderer/hooks/useKeyboardShortcuts.ts:164-167 | Cmd+g adds a geometry whatever is selected |
| Keyboard.CmdSSaves | src/renderer/hooks/useKeyboardShortcuts.ts:45-75 | Cmd+S, with or without Shift, notifies only the save handler and leaves the store alone |
| Keyboard.ResetKeyIgnored | src/renderer/hooks/useKeyboardShortcuts.ts:99-104 | R, with or without Cmd, changes nothing and notifies no one |
| Keyboard.ResetKeyIntended | src/renderer/hooks/useKeyboardShortcuts.ts:99-104 | with the corrected block, the reset is notified iff the key is an unmodified R; every other key is treated as before |
| Keyboard.ToggleVisibility | src/renderer/hooks/useKeyboardShortcuts.ts:170-182 | the store afterwards is the Toggle effect on the old one |
| Keyboard.DeleteSelected | src/renderer/hooks/useKeyboardShortcuts.ts:184-190 | the store afterwards is the Delete effect on the old one |
| Keyboard.SetSelectedOpacity | src/renderer/hooks/useKeyboardShortcuts.ts:192-196 | the store afterwards is the SetOpacity effect on the old one |
| Keyboard.NudgeSelected | src/renderer/hooks/useKeyboardShortcuts.ts:198-214 | the store afterwards is the Nudge effect on the old one |
| Keyboard.FileShortcuts | src/renderer/hooks/useKeyboardShortcuts.ts:45-64 | the handlers notified are those of the file block |
| Keyboard.SaveAsShortcut | src/renderer/hooks/useKeyboardShortcuts.ts:67-75 | the handlers notified are those of the Shift file block |
| Keyboard.PlaybackShortcuts | src/renderer/hooks/useKeyboardShortcuts.ts:78-106 | the store afterwards is the playback block's effects run on the old one |
| Keyboard.OpacityShortcut | src/renderer/hooks/useKeyboardShortcuts.ts:109-114 | the store afterwards is the opacity block's effects run on the old one |
| Keyboard.NudgeShortcut | src/renderer/hooks/useKeyboardShortcuts.ts:117-143 | the store afterwards is the nudge block's effects run on the old one |
| Keyboard.LayerShortcuts | src/renderer/hooks/useKeyboardShortcuts.ts:146-161 | the store afterwards is the layer block's effects run on the old one |
| Keyboard.GeometryShortcut | src/renderer/hooks/useKeyboardShortcuts.ts:164-167 | the store afterwards is the geometry block's effects run on the old one |
| Keyboard.HandleKeyDown | src/renderer/hooks/useKeyboardShortcuts.ts:31-168 | the store afterwards is Classify's effects run in order on the old one, and the handlers are notified in Classify's order |
| LayerGroups.NewGroupNamesAndColors | src/renderer/components/LayerGroups.tsx:256-267 | new groups get the same name iff they were created at the same list length, and the same colour iff those lengths agree modulo 8 |
| LayerGroups.UpdateGroups | src/renderer/components/LayerGroups.tsx:269-271 | the count and order are kept; only groups with the matching id get the updates merged in |
| LayerGroups.GroupLayers | src/renderer/components/LayerGroups.tsx:72 | a layer is a member iff its `groupId` is the group's id; members keep their relative order |
| LayerGroups.UngroupedLayers | src/renderer/components/LayerGroups.tsx:291 | a layer is ungrouped iff its `groupId` is absent or empty; ungrouped layers keep their relative order |
| LayerGroups.MembershipPartition | src/renderer/components/LayerGroups.tsx:72 | a layer with a non-empty group id is listed under its group and not as ungrouped; a layer without one is ungrouped and under no group |
| LayerGroups.AddLayerToGroupJoins | src/renderer/components/LayerGroups.tsx:283-285 | with unique ids, the layer takes the group id and appears among the members; every other layer is unchanged |
| LayerGroups.RemoveLayerFromGroupLeaves | src/renderer/components/LayerGroups.tsx:287-289 | with unique ids, the layer loses its group id and becomes ungrouped; every other layer is unchanged |
| LayerGroups.DeleteGroupClearsMembers | src/renderer/components/LayerGroups.tsx:273-279 | exactly the group's members lose their group id, and nothing else about them changes; other layers stay in place; afterwards the group has no members |
| LayerGroups.DeleteGroupKeepsOthers | src/renderer/components/LayerGroups.tsx:280 | exactly the group with that id is removed from the panel's list; the others keep their order |
| LayerGroups.AddLayerToGroup | src/renderer/components/LayerGroups.tsx:283-285 | the store afterwards is `updateLayer(id, { groupId })` of the old one |
| LayerGroups.RemoveLayerFromGroup | src/renderer/components/LayerGroups.tsx:287-289 | the store afterwards is `updateLayer(id, { groupId: undefined })` of the old one |
| LayerGroups.GroupPanel.CreateGroup | src/renderer/components/LayerGroups.tsx:256-267 | exactly one group is appended: "Group n+1", expanded, visible, unlocked, opacity 1, colour n mod 8 |
| LayerGroups.GroupPanel.UpdateGroup | src/renderer/components/LayerGroups.tsx:269-271 | the list becomes UpdateGroups of the old one |
| LayerGroups.GroupPanel.DeleteGroup | src/renderer/components/LayerGroups.tsx:273-281 | the store afterwards is the group id cleared on the members of the list read at the start; the group is filtered out of the panel |
| LayerGroups.GroupPanel.AssignToFirstGroup | src/renderer/components/LayerGroups.tsx:338-342 | with no groups nothing changes; otherwise the layer joins the first group |
| ToolbarActions.PlayPauseEffect | src/renderer/components/Toolbar.tsx:34-42 | with unique ids, every video layer's `playing` takes the new value and nothing else changes; other layers and the count are unchanged |
| ToolbarActions.StopEffect | src/renderer/components/Toolbar.tsx:44-54 | with unique ids, every video layer is paused and rewound to 0; other layers and the count are unchanged |
| ToolbarActions.AddGeometryAddsColorLayer | src/renderer/components/Toolbar.tsx:63-67 | one geometry is appended, then one solid-colour layer on that new geometry; both become selected; the old lists are prefixes |
| ToolbarActions.Toolbar.PlayPause | src/renderer/components/Toolbar.tsx:34-42 | the flag flips, and the new value is pushed to every video layer of the list read at the click |
| ToolbarActions.Toolbar.Stop | src/renderer/components/Toolbar.tsx:44-54 | the flag is false, and every video layer of the list read at the click is stopped and rewound |
| ToolbarActions.Toolbar.AddGeometry | src/renderer/components/Toolbar.tsx:63-67 | the store afterwards is AddGeometryStep followed by AddLayerStep with a colour layer on the new id |
| Calibration.CanvasCoordinates | src/renderer/components/CalibrationOverlay.tsx:19-27 | with a missing canvas or overlay the result is (0,0); the result is undefined (a division by zero in the source) iff the rectangle has zero width or height |
| Calibration.CanvasCoordinatesEdges | src/renderer/components/CalibrationOverlay.tsx:22-24 | the top-left corner of the rectangle maps to (-1, 1) and the bottom-right corner to (1, -1): y is flipped |
| Calibration.ScreenCoordsCorners | src/renderer/components/CalibrationOverlay.tsx:57-62 | (-1, 1) goes to (0, 0) and (1, -1) goes to (width, height) |
| Calibration.ScreenOfCanvas | src/renderer/components/CalibrationOverlay.tsx:19-62 | for a non-degenerate rectangle, pixels to device coordinates and back give the offset inside the rectangle |
| Calibration.CanvasOfScreen | src/renderer/components/CalibrationOverlay.tsx:19-62 | device coordinates to pixels and back give the same point |
| Calibration.PointDrag.MouseDown | src/renderer/components/CalibrationOverlay.tsx:29-32 | the drag target becomes the pressed corner |
| Calibration.PointDrag.MouseMove | src/renderer/components/CalibrationOverlay.tsx:34-39 | while a drag is active, the dragged corner moves to the pointer; with no drag the store is untouched |
| Calibration.PointDrag.MouseUp | src/renderer/components/CalibrationOverlay.tsx:41-43 | the drag ends |
| TestPatterns.HexValue | src/renderer/components/TestPatterns.tsx:285-287 | a hex digit's value is below 16 |
| TestPatterns.PairValue | src/renderer/components/TestPatterns.tsx:285-287 | a digit pair's value is at most 255 |
| TestPatterns.HexToRgb | src/renderer/components/TestPatterns.tsx:281-290 | a string is accepted iff it is six hex digits in either case, with an optional leading '#'; every component is at most 255 |
| TestPatterns.HexChar | src/renderer/components/TestPatterns.tsx:282 | the printed digit is a hex digit with that value |
| TestPatterns.HexByte | src/renderer/components/TestPatterns.tsx:282-287 | two hex digits whose pair value is the byte |
| TestPatterns.HexRoundTrip | src/renderer/components/TestPatterns.tsx:281-290 | printing a colour as hex, with or without '#', and parsing it gives the colour back |
| TestPatterns.HexParsePrint | src/renderer/components/TestPatterns.tsx:281-290 | printing a parsed colour and parsing that again gives the same colour |
| TestPatterns.DigitsOfPair | src/renderer/components/TestPatterns.tsx:285-287 | printing a pair's value gives the pair back, lower-cased |
| TestPatterns.VerticalsAt | src/renderer/components/TestPatterns.tsx:117-122 | a vertical line at x is among the first n iff x is a non-negative multiple of 50 below 50n |
| TestPatterns.GridVerticalLines | src/renderer/components/TestPatterns.tsx:117-122 | the grid has a full-height vertical line at x iff x is a multiple of 50 in 0..width |
| TestPatterns.HorizontalsAt | src/renderer/components/TestPatterns.tsx:125-130 | a horizontal line at y is among the first n iff y is a non-negative multiple of 50 below 50n |
| TestPatterns.GridHorizontalLines | src/renderer/components/TestPatterns.tsx:125-130 | the grid has a full-width horizontal line at y iff y is a multiple of 50 in 0..height |
| TestPatterns.CheckerRowAt | src/renderer/components/TestPatterns.tsx:234-238 | a cell at (x, yy) is in the row iff yy is the row's y, x is a multiple of 50 below the row's extent, and x/50 + y/50 is even |
| TestPatterns.CheckerRowsAt | src/renderer/components/TestPatterns.tsx:233-239 | a cell is in the rows iff both coordinates are in range and multiples of 50 and their cell indices sum to an even number |
| TestPatterns.CellCountBound | src/renderer/components/TestPatterns.tsx:233-234 | a multiple of 50 lies below 50 times the cell count iff it lies below the extent |
| TestPatterns.CheckerboardCells | src/renderer/components/TestPatterns.tsx:227-240 | the 50x50 cell at (x, y) is filled iff x is below width and y below height, both multiples of 50 and non-negative, and x/50 + y/50 is even |
| TestPatterns.CircleRowAt | src/renderer/components/TestPatterns.tsx:250-253 | a circle centre is in the row iff it is at the row's y and x is a positive multiple of 60 in range |
| TestPatterns.CircleRowsAt | src/renderer/components/TestPatterns.tsx:249-254 | a circle centre is in the rows iff both coordinates are positive multiples of 60 in range |
| TestPatterns.CirclesCentres | src/renderer/components/TestPatterns.tsx:242-256 | circles of radius 15 are centred exactly at (60i, 60j) with i, j at least 1, strictly below width and height |
| TestPatterns.GradientOps | src/renderer/components/TestPatterns.tsx:202-225 | the gradient draws nothing iff the colour does not parse |
| TestPatterns.PatternOps | src/renderer/components/TestPatterns.tsx:86-105 | a pattern draws nothing iff its name is unknown, or it is the gradient and the colour does not parse |
| TestPatterns.TestPatternRenderer.constructor | src/renderer/components/TestPatterns.tsx:75-80 | the canvas size is recorded and nothing is drawn yet |
| TestPatterns.TestPatternRenderer.Render | src/renderer/components/TestPatterns.tsx:82-106 | the canvas is cleared first, then the pattern's operations are drawn (`#00ff88` when no colour is given) |
| TestPatterns.TestPatternRenderer.Clear | src/renderer/components/TestPatterns.tsx:292-295 | exactly one clear of the whole canvas is drawn |
| TestPatterns.TestPatternRenderer.DrawGrid | src/renderer/components/TestPatterns.tsx:108-145 | the two stepping loops draw exactly GridOps |
| TestPatterns.TestPatternRenderer.DrawGradient | src/renderer/components/TestPatterns.tsx:202-225 | draws exactly GradientOps |
| TestPatterns.TestPatternRenderer.DrawCheckerboard | src/renderer/components/TestPatterns.tsx:227-240 | the nested loops draw exactly CheckerboardOps |
| TestPatterns.TestPatternRenderer.DrawCircles | src/renderer/components/TestPatterns.tsx:242-256 | the nested loops draw exactly CirclesOps |
| Displays.IntToString | src/main/main.ts:226 | integers print in decimal, negatives with a leading '-' |
| Displays.DisplayEntries | src/main/main.ts:209-235 | one entry per screen, in order; the id is the decimal screen id; `isPrimary` holds iff the id is the primary's; `isInternal` holds iff `internal` is true; the bounds are kept |
| Displays.DisplayNameShape | src/main/main.ts:213-226 | every name is the label chosen by the primary and internal flags and the position, followed by " (WxH)" |
| Displays.ExternalNamesDistinct | src/main/main.ts:221-226 | two external, non-primary screens at different positions get different names even at equal resolutions |
| Displays.SuffixFree | src/main/main.ts:222-226 | "External Display " + digits + a suffix that starts with a space splits back into its digits |
| Displays.EntryIdsDistinct | src/main/main.ts:229 | two entries have the same id iff their screens do |
| Displays.FindScreen | src/main/main.ts:49 | the screen whose decimal id is the one asked for, or none iff no screen has it |
| Displays.CreateStep | src/main/main.ts:47-58 | an unknown display id changes nothing (the current window stays open); otherwise the current window is asked to close and a new one opens on the screen's bounds and becomes the output window |
| Displays.CreateKeepsTracked | src/main/main.ts:47-83 | creating a window keeps the output window tracked: every open window not being closed is the output window |
| Displays.ClosedKeepsTracked | src/main/main.ts:81-83 | with the guarded `closed` handler, a window's close keeps the output window tracked |
| Displays.OrphanedOutputWindow | src/main/main.ts:81-83 | as written: choose screen 1, choose screen 2, then the first window's `closed` arrives; the second window is left open and showing but unreferenced; the guarded handler keeps it |
| Displays.WindowManager.constructor | src/main/main.ts:17-18 | no windows |
| Displays.WindowManager.CreateOutputWindow | src/main/main.ts:47-88 | the new window state is CreateStep of the old one |
| Displays.WindowManager.OutputWindowClosedAsWritten | src/main/main.ts:81-83 | the `closed` handler as installed clears the output window whichever window closed |
| Displays.WindowManager.OutputWindowClosed | src/main/main.ts:81-83 | the guarded handler clears the output window only when it is the one that closed |

## Left out

- The WebGL and GLSL side of the engine: shaders, buffers, uniforms, framebuffer, `resize` and the `mat4` transform. Draw calls are recorded with their parameters, not rendered.
- The shader's blend function is never called by the fragment shader, so blend modes are modelled only as their integer codes.
- Image and video decoding and the asynchronous `onload`/`onerror` callbacks. Their outcome is a parameter, and so is a video's `readyState`.
- The iterative eigenvector search of `solveSVD` (`findSmallestEigenvector`). It is a parameter (`solver`) of the operations that use it. Nothing claims that its output is a null vector; the lemmas that need one take it as a hypothesis.
- Homography.TransformPoint: a zero homogeneous weight gives no result here, where JavaScript would produce Infinity or NaN.
- Calibration.CanvasCoordinates: a zero-width or zero-height canvas gives no result here, where JavaScript would produce Infinity or NaN. Calibration.PointDrag.MouseMove then leaves the point where it is instead of storing non-finite coordinates.
- Floating-point rounding and 32-bit float storage (`Float32Array`). All arithmetic is exact over reals.
- ProjectStore.UpdateGeometryPointStep: an index outside the point list leaves the points unchanged. JavaScript would grow the array with an id-less point.
- A shader layer's `uniforms` map, which `addLayer` sets to `{}`: the shader content carries only its two sources, so a patch cannot change the uniforms. Every other type-specific field of a patch is merged into a layer of that type; a patch that names another type's fields leaves the content as it is, because the model's layer content is typed and a patch cannot change a layer's type.
- `preventDefault` on key events, and the keyboard and menu handlers' registration and removal with the window.
- Keyboard.ToLower: lower-cases ASCII letters only, not the rest of Unicode.
- Confirm and alert dialogs, the file dialogs, saving (`saveProject`, `saveProjectAs`) and the menus. Reading a project file is a parameter of App.LoadFileStep.
- The main window's lifecycle, the IPC relays, the WebSocket server, auto-save, the light patterns, the preview canvas and the other UI components.
- The crosshair and border patterns are recorded as their operations with no property beyond PatternOps. Canvas style state (stroke style, line width) is recorded as operations, not interpreted.
- The group colour names shown in the panel's menu. Only the colour values are modelled.
- Duplicate ids are allowed, as in the source. Contracts hold for any list, and the lemmas that describe a per-layer effect assume unique ids.
- ToolbarActions.Toolbar.PlayPause and ToolbarActions.Toolbar.Stop read the store's layer list at the click, which is the render-time list the component holds whenever it is up to date.
- App.DropStep and App.HandleLayerReorder read the store's current layer list at the drop, where `handleLayerReorder` reads the `project.layers` of the last render (src/renderer/App.tsx:179-182). The two agree whenever the component has re-rendered since the last store change.
- Keyboard.HandleKeyDown reads the store's current selection at the key press, where the listener reads the `selectedLayerId` and `selectedGeometryId` captured by the hook at its last render (src/renderer/hooks/useKeyboardShortcuts.ts:18-28, 221-232). The hook re-registers the listener whenever they change, so the two agree once React has re-rendered.
- Keyboard.ToggleVisibility and Keyboard.NudgeSelected look the selected layer or geometry up in the store's current project, where the source looks it up in the hook's captured `project` (src/renderer/hooks/useKeyboardShortcuts.ts:172, 200). They agree on the same condition.
- LayerGroups.GroupPanel.DeleteGroup walks the store's layer list as it stands when the handler starts, where `handleDeleteGroup` walks the `project.layers` of the last render (src/renderer/components/LayerGroups.tsx:275). They agree on the same condition.

## Findings

| source | as written | input that shows it | evidently intended | confidence | as-written member | corrected member |
|---|---|---|---|---|---|---|
| src/renderer/App.tsx:53-88 | the menu listener is installed once at mount, so `resetCalibration` walks the geometries of the mount-time project, which has none | add a geometry, move a corner, choose Reset Calibration from the menu: no corner moves | every current geometry is reset | not executed | App.ResetCalibrationAsInstalled | App.ResetCalibrationCurrent (App.ResetCurrentResetsAll) |
| src/renderer/App.tsx:164-172 | the WebSocket listener is installed once at mount, so `timeline.seek` looks the layer up in the mount-time (empty) layer list | add a video layer, send `timeline.seek` for it: `currentTime` is not set | the seek reaches the current video layer | not executed | App.InstalledSeekIgnored (App.HandleWSMessageAsInstalled) | App.HandleWSMessageCurrent (App.SeekSetsCurrentTime) |
| src/main/main.ts:81-83 | every output window's `closed` handler sets `outputWindow = null`, and `close()` is asynchronous | choose screen 1, then screen 2; the first window's `closed` event arrives after the second window is assigned and clears the reference to it | only the window that closed is forgotten | not executed | Displays.OrphanedOutputWindow (Displays.ClosedStepAsWritten) | Displays.ClosedStep (Displays.ClosedKeepsTracked) |
| src/renderer/hooks/useKeyboardShortcuts.ts:99-104 | the R case asks for Cmd inside the block reserved for unmodified keys, so it can never fire | press R (listed as Reset Calibration at useKeyboardShortcuts.ts:249), with or without Cmd: nothing happens | an unmodified R notifies the reset handler | not executed | Keyboard.ResetKeyIgnored | Keyboard.PlaybackBlockIntended (Keyboard.ResetKeyIntended) |
| src/renderer/utils/homography.ts:134-137 | `transformPoint` says it reads the matrix column-major, as `calculateHomography` returns it, but indexes it row-major | the square (-1,-1), (1,-1), (1,1), (-1,1) moved one unit right, solved exactly: `transformPoint((1,-1), H)` gives (0.5,-0.5) instead of (2,-1) | the packed result is read column-major | not executed | Homography.TransformPointMisreadsPacked | Homography.TransformPacked (Homography.PackedTransformMapsPairs) |
