# walls-experiment — a Dafny model of the autotile wall mesher

The program reads a grid of wall (`#`) and floor (`.`) cells and builds one
indexed triangle mesh of bevelled walls. Every wall cell is split into four
diagonal quarters (north-east, south-east, south-west, north-west). Each
quarter's shape is one of four pieces, chosen from the two cardinal neighbours
beside that quarter:

- `Inner`: both neighbours are walls.
- `Outer`: both neighbours are floor.
- `Left` or `Right`: one of each.

Every piece has a fixed local mesh. The mesh is a flat top at the bevel's height
plus a vertical face strip hanging from the piece's edge profile. Each local mesh
is rotated and translated into place. All meshes are then merged into one
buffer: an attribute list, plus an index list that refers to attributes by
position.

Modules (one file each):

- `Wrappers` holds `Option`.
- `Grids` holds grid coordinates, a grid stored row by row, lookup, and row-major
  enumeration.
- `Directions` holds cardinal and ordinal directions, their quarter turns,
  offsets and pairing.
- `Pieces` holds `Piece::choose`, `Quarter::from_grid`, `CellDetails::outer`
  and `CellDetails::from_grid`.
- `Buffers` holds `RelativeBuffers`: `concat`, `concat_all` and `transform`.
- `Geometry` holds `make_edge_base`, `make_faces`, `make_rect_top`, `make_top`
  and `make_geometry`.
- `Mesh` holds `CellDetails::make_geometry` and the assembly done in `main`.
- `WorkedExample` works through the 2×2 grid `##` / `.#` from end to end.

How the source's types and behaviour are represented:

- Positions and texture coordinates are exact `real`s.
- A transform matrix is a parameter of type `Vec3 -> Vec3`.
- `unreachable!()` in `Piece::choose` is `None`.
- An index is a `nat`.

## Model

| member | source | states |
|---|---|---|
| Pieces.Choose | src/main.rs:316-338 | Two floor neighbours give `Outer` and two walls give `Inner`. For a wall and a floor, the result panics (`None`) exactly when the two directions are not a quarter turn apart. Otherwise it is `Left` or `Right`. |
| Pieces.ChooseSymmetric | src/main.rs:321-326 | The result does not depend on the order of the two neighbours. |
| Pieces.ChooseMixed | src/main.rs:321-334 | With one wall and one floor, in either argument order: `Right` exactly when the floor is a clockwise quarter turn from the wall, and `Left` exactly when it is a counter-clockwise quarter turn. |
| Pieces.ChooseMatchesDiagrams | src/main.rs:316-338 | For the two cardinals of any ordinal, `choose` never panics. It returns the shape the diagrams at the head of the file draw for that neighbourhood. |
| Pieces.TypeAt | src/main.rs:352-359 | A coordinate off the grid reads as floor. On the grid, it reads as the stored cell. |
| Pieces.QuarterFromGrid | src/main.rs:345-363 | Defined for every coordinate and ordinal, on or off the grid. The piece is the diagram shape of the two neighbours' types, with off-grid neighbours counted as floor. |
| Pieces.AllOuter | src/main.rs:371-378 | Four quarters, all `Outer`. |
| Pieces.FillQuarters | src/main.rs:383-386 | Run from step `k`, the loop over the ordinals writes, for every `i` from `k` on, the quarter of `Ordinals[i]` at index `i`. Indices below `k`, which the steps taken before already wrote, keep the value they had. |
| Pieces.DetailsFromGrid | src/main.rs:379-388 | `None` exactly when the cell reads as floor. Otherwise there are four quarters, and quarter `o.Index()` is `Quarter::from_grid` for `o`. |
| Pieces.QuartersFromNeighbours | src/main.rs:379-388 | A wall's four quarters are read off its four cardinal neighbours. NE takes (N, E), SE takes (E, S), SW takes (S, W) and NW takes (W, N). |
| Pieces.EnclosedWallIsAllInner | src/main.rs:379-388 | A wall with walls on all four sides gets four `Inner` quarters. |
| Pieces.IsolatedWallIsAllOuter | src/main.rs:371-388 | A wall with floor, or the grid's edge, on all four sides gets the same details as `CellDetails::outer`. |
| Buffers.Concat | src/main.rs:72-89 | The attributes are `a`'s followed by `b`'s. The indices are `a`'s followed by `b`'s, each raised by `a`'s attribute count. Well-formedness (no dangling index) and coverage (every attribute used) are preserved. |
| Buffers.ConcatResolves | src/main.rs:72-89 | After a concat, every index still names the attribute it named in its own buffer. |
| Buffers.ConcatEmptyLeft | src/main.rs:72-89 | The empty buffer is a left identity of `concat`. |
| Buffers.ConcatEmptyRight | src/main.rs:72-89 | The empty buffer is a right identity of `concat`. |
| Buffers.ConcatAssociative | src/main.rs:72-89 | `concat` is associative. |
| Buffers.FoldConcat | src/main.rs:90-106 | The reference left fold of `concat` holds the summed attribute and index counts. It is well formed when every part is. |
| Buffers.FoldConcatAppend | src/main.rs:90-106 | Folding a joined list gives the concat of the two folds. |
| Buffers.FoldConcatResolves | src/main.rs:90-106 | The fold resolves to the parts' resolved triangles, in order. |
| Buffers.ConcatAll | src/main.rs:90-106 | The single-pass loop of `concat_all` equals the left fold of `concat`. |
| Buffers.Transform | src/main.rs:107-119 | Indices and texture coordinates are kept. Each position is mapped. |
| Buffers.TransformPreserves | src/main.rs:107-119 | A transform keeps well-formedness and coverage. Each triangle corner resolves to the mapped corner. |
| Buffers.TransformDistributes | src/main.rs:107-119 | Transforming a concat is the concat of the transforms. |
| Geometry.QuadStrip | src/main.rs:122-123 | A strip of `n` quads over alternating base/top vertices has `6n` indices. All of them are below `2n+2`, and every vertex is used. |
| Geometry.AlternatingTablesAreQuadStrips | src/main.rs:122-123 | The two constant index tables are the one-quad and two-quad strips. |
| Geometry.NewTopAttribute | src/main.rs:48-57 | The point is kept. Its texture minus its position is the piece's offset in `x`, and its texture plus its position is that offset in `y`: the texture follows the point in `x` and runs against it in `y`. |
| Geometry.MakeEdgeBase | src/main.rs:125-196 | The profile exactly as written. `Inner` and `Outer` have 3 points and the two-quad table. `Left` and `Right` have 2 points and the one-quad table. The face texture starts at offset 0. Every point lies on the lines 0, `w` and `s` of the quarter. |
| Geometry.MakeEdgeBaseIntended | src/main.rs:152-168 | The profile with the `Outer` point evidently intended. It has the same tables and lengths as written, and differs only in `Outer`'s first point. |
| Geometry.ProfilesFaceOutward | src/main.rs:125-227 | When `0 < w < s`, every face of every intended profile is wound away from the middle of the corner square. As written, this holds for `Left`, `Right` and `Inner`. |
| Geometry.OuterRepairAtEndFacesInward | src/main.rs:152-168 | Repairing `Outer` at its last point instead of its first would wind both of its faces inward, for any nonzero bevel. |
| Geometry.ProfilesMirror | src/main.rs:125-196 | Swapping a quarter's two sides swaps `Left` and `Right` and fixes `Inner` and `Outer`. Reflecting the profiles in the diagonal should do the same to the shapes. As written, `Left`'s maps onto `Right`'s and `Inner`'s onto itself. In the intended profiles, `Outer`'s also maps onto itself. |
| Geometry.ProfilesSimple | src/main.rs:125-196 | When the bevel is narrower than a cell, no intended profile visits a point twice. As written, this holds for every piece except `Outer`. |
| Geometry.OuterProfileRetraces | src/main.rs:152-168 | For a nonzero bevel, the `Outer` profile as written ends where it starts. It is not its own mirror image, and its first face is wound inward. |
| Geometry.FaceTextureFollowsProfile | src/main.rs:125-196 | When `0 ≤ w ≤ s`, each profile step is axis aligned. The face texture offset grows by exactly the step's length, both as written and in the intended profile. |
| Geometry.FaceStrip | src/main.rs:198-221 | Attribute `2k` is the ground copy of profile point `k`, and attribute `2k+1` is its raised copy. |
| Geometry.MakeFaces | src/main.rs:198-227 | The ground copy sits at height 0 and the raised copy at the bevel height, at the same horizontal place and texture column. Their texture rows are `height` apart. The indices are the quad strip, and the buffer is well formed and covered. |
| Geometry.MakeRectTop | src/main.rs:229-241 | The four corners of the `size` rectangle at the origin, in the order (0, 0), (0, h), (w, h), (w, 0). It has the two-triangle table, and every texture comes from `TopAttribute::new`. |
| Geometry.TopOutline | src/main.rs:243-265 | `Inner` has the six points (0, s), (w, s), (w, w), (0, 0), (s, 0), (s, w) and its own table. `Outer`, `Left` and `Right` are `make_rect_top` of sizes `w × w`, `s × w` and `w × s`. Every vertex's texture is `TopAttribute::new` at the piece's atlas offset. |
| Geometry.MakeTop | src/main.rs:243-282 | Counts are 6/12 for `Inner` and 4/6 for the rest. The indices are the outline's table. Vertex `i` is outline point `i` lifted to the bevel height, and its texture is its position shifted into the piece's atlas region, with `y` flipped. Well formed and covered. |
| Geometry.FacesHangFromTop | src/main.rs:198-282 | Every raised face vertex coincides with a vertex of the top, so faces and top meet. |
| Geometry.MakeGeometry | src/main.rs:284-288 | Well formed and covered. The top's attributes come first, followed by exactly `make_faces`' attributes. The triangles are the top's followed by the faces', each corner resolving to the same attribute as in its own part. Per-piece sizes: `Inner` 12 attributes / 24 indices, `Outer` 10 / 18, `Left` and `Right` 8 / 12. |
| Mesh.CellGeometry | src/main.rs:389-404 | Four meshes; mesh `i` is quarter `i`'s piece mesh under the placement for `Ordinals[i]`. All are well formed, and their totals are the pieces' sizes. |
| Mesh.PlacedTotals | src/main.rs:389-404 | Four placed quarter meshes are well formed, and hold exactly their pieces' index and attribute counts. |
| Mesh.CellsGeometry | src/main.rs:439-442 | The `filter_map`/`flat_map` over all cells gives well-formed parts. Their totals are the sums over the pieces of every wall cell. |
| Mesh.BuildMesh | src/main.rs:427-444 | The merged mesh is exactly the left fold of `concat` over the placed quarters, so it is fully determined. It has no dangling index, and its sizes are the sums of the wall pieces' sizes. Every triangle corner is the attribute that corner had in its own quarter. |
| WorkedExample.ExampleDetails | src/main.rs:379-388 | In `##` / `.#`, the floor cell has no details. The wall at (1, 1) resolves to `Right`, `Outer`, `Outer`, `Left`. |
| WorkedExample.LayoutPieces | src/main.rs:439-442 | Cells visited in row-major order contribute their quarters in that order. The floor cell contributes none. |
| WorkedExample.ExamplePieces | src/main.rs:427-444 | The example grid yields twelve quarters. Its merged mesh has 186 indices and 110 attributes. |

## Left out

- Floating point: `f32` positions and texture coordinates are exact `real`s. Rounding is not modelled.
- `move_to_cell_centre` and `rotate_to_direction` (src/main.rs:290-306) are not modelled. The matrix product they feed into `transform` is the `Placement` parameter, a map from cell and ordinal to a position map.
- Buffers.Transform: the contract holds for any position map, not only the affine ones a `Matrix4` produces. Nothing about rotation angles is stated.
- u32 index overflow in `concat`/`concat_all` is not modelled, because indices are unbounded `nat`s. The same holds for i32 coordinate overflow in `coord + card.coord()`.
- The `direction` and `grid_2d` crates are not part of this model. Their behaviour is assumed as follows:
  - directions run clockwise N, E, S, W, and north is `y - 1`;
  - `to_cardinals` gives NE = (N, E), SE = (E, S), SW = (S, W), NW = (W, N);
  - `o as usize` orders the ordinals NE, SE, SW, NW;
  - `enumerate` visits cells row by row.
- `main`'s parsing of `terrain_strings.txt` is not modelled. That covers the width assertion, the panic on an unknown character, and printing. The grid is a parameter.
- The constants 8, 32 and 16 that `main` uses for style and config are not modelled. Style and config are parameters.
- The comment at src/main.rs:140-141 notes artifacts unless `s == w * 2`. The visual seam it describes is not modelled.

## Findings

| source | as written | input that shows it | evidently intended | confidence | as-written member | corrected member |
|---|---|---|---|---|---|---|
| src/main.rs:154-165 | The first and third `Outer` profile points are both `vec2(0., w)` (lines 156 and 164). | `Outer` with `width_px` 8: the profile is (0, 8), (8, 8), (0, 8). The second face quad retraces the first, and the `x = w` side of the top square gets no face. | The first point is `vec2(w, 0.)`, giving the profile (w, 0), (w, w), (0, w). This is the L around the `w × w` top square. Its texture offsets 0, w, 2w grow with each step's length, it is its own mirror image as `Inner` is, and both its faces are wound outward like every other piece's. Putting `vec2(w, 0.)` at the third point instead would also close the L, but would wind both faces inward. | medium, not executed | Geometry.OuterProfileRetraces | Geometry.ProfilesFaceOutward |

`Geometry.MakeEdgeBase` keeps the profile exactly as written, and the whole mesh pipeline is built on it. `Geometry.MakeEdgeBaseIntended` is the corrected profile. `Geometry.ProfilesFaceOutward`, `Geometry.ProfilesMirror` and `Geometry.ProfilesSimple` prove the intended properties about it. `Geometry.OuterRepairAtEndFacesInward` shows why the other one-point repair is not the intended one.
