# Japanese area meshes and base-map frames, modelled in Dafny

This project models the core of `gsjp`, a Rust library for two grid systems.

**Area meshes (JIS X 0410).** A mesh code names a cell by latitude and
longitude:

| level | code length | code shape | size |
|---|---|---|---|
| 1 | 4 | two-digit latitude field `floor(lat × 1.5)` and two-digit longitude field `floor(lon − 100)` | 40′ × 1° |
| 2 | 6 | adds a row digit and a column digit `0`–`7` | 5′ × 7′30″ |
| 3 | 8 | adds a row digit and a column digit `0`–`9` | 30″ × 45″ |
| 4–6 | 9, 10, 11 | each adds one quadrant digit: 1 = SW, 2 = SE, 3 = NW, 4 = NE | halves the parent both ways |

The model covers, for every level:
- code validation and construction (`new`);
- the edges `south`/`west`/`north`/`east`, the four corners and the centre;
- the parent accessors `mesh1()` … `mesh5()`;
- the four moves `north_mesh`/`east_mesh`/`south_mesh`/`west_mesh`. A move carries into the parent at a cell's edge and fails off the national domain.
- the trait defaults of `src/lib.rs`: the diagonal neighbours and the adjacency test `is_joining`.

The two crates differ only in the national domain:
- the root crate `src` allows latitude fields 30–68 and longitude fields 22–54;
- the `gsjp` crate allows 30–71 and 18–49.

The model takes the bounds as a parameter, `Mesh1.Bounds`. Its constants `RootCrateBounds` and `GsjpBounds` give the two domains.

Extents are kept exactly, in integer units of 1/8 arc-second. Everything else is a value: each mesh is its code string, and each operation is a function of it.

**Base-map frames.** These are the frames of the national base map on a plane rectangular coordinate system, from `gsjp/src/base_map_frame.rs`. The model covers:
- classifying a code into one of five map-information levels (`try_from`);
- a frame's width, height and extent in metres;
- the frame at a given level that contains a point (`from_level_xy`).

**What is proved:**
- **Moves.** Every move, at every level, fails exactly at the border of the domain. Otherwise it lands on the valid cell displaced by one cell size.
- **Move inverses.** Opposite moves undo each other.
- **Cells and anchors.** A cell is determined by its south-west corner. It lies within every ancestor, and neighbours share corners.
- **Adjacency.** `is_joining` reports side d exactly when the other cell is one cell over in direction d. The test is symmetric, and diagonal and two-step neighbours never join.
- **Frames.** `try_from` accepts exactly the codes of the five patterns, and each level's frames nest inside their parent frame. `from_level_xy` finds a frame containing the point and inverts `extent()`.
- **Source behaviour.** Three ways in which the source behaves differently from what it evidently intends are logged under Findings.

Files:
- `basics.dfy`: shared vocabulary;
- `mesh1.dfy`: level 1 and its validator as written;
- `mesh_code.dfy`: levels, validity, edges and ancestors;
- `mesh_step.dfy`: the moves;
- `mesh_grid.dfy`: the grid view and the inverse moves;
- `mesh_adjacency.dfy`: the trait defaults;
- `mesh_examples.dfy`: the source's own mesh test cases;
- `base_map_frame.dfy`: the frames;
- `frame_examples.dfy`: the frame test cases.

## Model

| member | source | states |
|---|---|---|
| MeshBasics.Pad2 | src/mesh1.rs:70-75 | `format!("{:02}", n)` writes two digits that parse back to `n` |
| MeshBasics.Pad2OfNum2 | src/mesh1.rs:70-75 | parsing a two-digit field and formatting it again gives the same two characters |
| MeshBasics.PadU8 | gsjp/src/base_map_frame.rs:147 | `{:02}` of a `u8`: the two-digit form below 100; from 100 on, three characters: the digit `n / 100` followed by the two-digit form of `n % 100` |
| Mesh1.NewMesh1 | src/mesh1.rs:34-38 | `Mesh1::new` succeeds exactly when the code validates, and then keeps the code unchanged |
| Mesh1.LatField | src/mesh1.rs:62-64 | the latitude field of a valid code lies between the domain's smallest and largest latitude field |
| Mesh1.LonField | src/mesh1.rs:66-68 | the longitude field of a valid code lies between the domain's smallest and largest longitude field |
| Mesh1.CodeOfFields | src/mesh1.rs:70-96 | `format!("{:02}{:02}")` of two fields below 100 is four digits whose fields read back as the two numbers |
| Mesh1.ValidMesh1CodeAsWritten | src/mesh1.rs:111-134 | `validate_mesh1_code` as written: four characters, each two-character field not below the smallest and not above the largest bound string; `ValidMesh1CodeIsAsWrittenOnDigits` relates it to the numeric validator |
| Mesh1.FieldsDetermineCode | src/mesh1.rs:111-134 | two valid level-1 codes with the same two fields are the same code |
| Mesh1.Step1 | src/mesh1.rs:70-96 | a level-1 move succeeds with a valid code whose changed field is one more (N, E) or one less (S, W) and whose other field is unchanged; it fails exactly when the field already sits on the domain's bound |
| Mesh1.StrLessOnDigitPairs | src/mesh1.rs:122-131 | Rust's `&str` `<` on two two-digit strings is the numeric order of the numbers they write |
| Mesh1.ValidMesh1CodeIsAsWrittenOnDigits | src/mesh1.rs:111-134 | the numeric level-1 validator accepts exactly the codes the string-comparing validator accepts whose four characters are digits |
| Mesh1.AsWrittenAcceptsNonDigitField | src/mesh1.rs:116-131 | the validator as written accepts "3:22", whose latitude field is not a number and which the numeric validator rejects |
| MeshCode.ValidLength | src/mesh2.rs:133-150 | an accepted code has exactly its level's length (4, 6, 8, 9, 10, 11) and is valid at every level up to its own |
| MeshCode.Validate | src/mesh2.rs:133-150 | `validate_mesh<k>_code` for every level with the digit-checking level-1 validator at the bottom: `ValidateAsWritten` gives its length, parent-prefix and suffix-range chain, `ValidLength` the length of an accepted code, and `ValidateIsChainOnDigits` its agreement with the string-comparing chain on codes whose level-1 fields are digits |
| MeshCode.ValidateChainAsWritten | src/mesh2.rs:133-150 | `validate_mesh<k>_code` exactly as the source chains it, down to the string-comparing `validate_mesh1_code`; `ValidateIsChainOnDigits` and `AsWrittenChainAcceptsNonDigitField` relate it to `Validate` |
| MeshCode.ValidateIsChainOnDigits | src/mesh3.rs:134-151 | a code is valid exactly when the source's chain as written accepts it and its first four characters are digits, at every level |
| MeshCode.AsWrittenChainAcceptsNonDigitField | src/mesh2.rs:133-150 | the chain as written accepts the level-2 code "3:2200", through `validate_mesh1_code("3:22")`; the digit-checking validator rejects it |
| MeshCode.South | src/mesh4.rs:75-82 | `south()` of every level in 1/8″ units: `AnchorAsWritten` ties it to the parent's `south()` plus this level's row offset, `InDomain` keeps it inside the domain, `AnchorDetermines` makes it identify the cell with `west()` |
| MeshCode.West | src/mesh4.rs:84-91 | `west()` of every level in 1/8″ units: `AnchorAsWritten` ties it to the parent's `west()` plus this level's column offset, `InDomain` keeps it inside the domain |
| MeshCode.North | src/mesh4.rs:67-69 | `north()`: `south()` plus the level's cell height; `SharedCorners` proves it is the north neighbour's `south()` |
| MeshCode.East | src/mesh4.rs:71-73 | `east()`: `west()` plus the level's cell width; `SharedCorners` proves it is the east neighbour's `west()` |
| MeshCode.New | src/mesh2.rs:28-32 | `Mesh<k>::new` succeeds exactly when the digit-checking validator accepts, and keeps the code unchanged; on codes whose level-1 fields are digits this is the source's `validate_mesh<k>_code` (`ValidateIsChainOnDigits`) |
| MeshCode.Quadrant | src/mesh4.rs:158-171 | the last digit of a valid level 4–6 code is a quadrant 1–4, so the `unreachable!()` arms of `south`, `west` and the moves are never reached |
| MeshCode.DecimalOffset | src/mesh2.rs:47-63 | rows and columns of levels 2 and 3 tile the parent cell exactly: row 0 starts at the parent's edge, each row is one cell size further, the last one ends at the parent's far edge |
| MeshCode.HalfSize | src/mesh4.rs:67-91 | a level 4–6 cell is half its parent's height and half its width |
| MeshCode.StepBounds | src/mesh3.rs:57-73 | the offset a level adds to its parent's south-west corner keeps the cell inside the parent |
| MeshCode.InDomain | src/mesh1.rs:111-134 | every valid cell lies inside the national domain the level-1 bounds describe |
| MeshCode.PrefixAgree | src/mesh3.rs:134-151 | validity at level j and the south/west edges at level j depend only on the first `Len(j)` characters |
| MeshCode.ValidUpToLower | src/mesh3.rs:134-151 | a code valid up to level k is valid up to every lower level |
| MeshCode.ValidateAsWritten | src/mesh3.rs:134-151 | the validator has the source's chain shape: wrong length rejected, then the parent prefix validated, then this level's suffix range checked; its level-1 base is the digit-checking validator, not the string-comparing one |
| MeshCode.AnchorAsWritten | src/mesh3.rs:57-73 | `south()`/`west()` equal the parent mesh's `south()`/`west()` plus this level's row/column offset, the parent prefix being valid |
| MeshCode.AnchorStep | src/mesh4.rs:75-91 | the south/west edges at level k are those at level k−1 of the same code plus level k's offset |
| MeshCode.Sibling | src/mesh2.rs:65-80 | replacing only the last level's suffix by an in-range one gives a valid code whose edges move by the difference of the two offsets |
| MeshCode.PrefixValid | src/mesh3.rs:23-34 | every level-boundary prefix of a valid code is a valid code of that level with the same edges |
| MeshCode.ParentContains | src/mesh3.rs:23-34 | the parent prefix is valid and its cell holds the child's cell |
| MeshCode.Parent | src/mesh2.rs:22-24 | `mesh1()` of a `Mesh2` and the like: the `unwrap` never fails, and the result is the code's parent prefix |
| MeshCode.Ancestor | src/mesh4.rs:23-43 | `mesh1()`, `mesh2()`, `mesh3()`, …: each returns a valid code equal to the level-j prefix, so the `unwrap` never fails |
| MeshCode.AncestorContains | gsjp/src/mesh/mesh6.rs:23-61 | the cell of every ancestor returned by the accessors holds the cell itself |
| MeshStep.DecimalChild | src/mesh2.rs:65-80 | appending an in-range row and column digit to a valid parent gives a valid code offset by that row and column |
| MeshStep.QuadrantChild | src/mesh4.rs:93-107 | appending a quadrant digit 1–4 to a valid parent gives a valid code offset by the quadrant's half cell |
| MeshStep.DecimalInParent | src/mesh2.rs:47-63 | a level 2/3 code is its parent followed by its two digits, and lies at that row and column of the parent |
| MeshStep.QuadrantInParent | src/mesh4.rs:75-91 | a level 4–6 code is its parent followed by its quadrant; quadrants 3, 4 are the northern half and 2, 4 the eastern half of a parent twice as large |
| MeshStep.Reattach | src/mesh2.rs:65-80 | rebuilding from a moved parent propagates the parent's error (`?`) and otherwise validates parent + suffix |
| MeshStep.SomeMoved | src/lib.rs:91-112 | a valid cell displaced by exactly one cell size in direction d is a correct result of the move |
| MeshStep.CarryMoved | src/mesh2.rs:65-80 | a carry into the parent gives a correct move whenever the parent's move is correct and the cell lies on the parent's d side |
| MeshStep.NorthMesh | src/lib.rs:86-91 | `north_mesh` dispatched by level to the level-1, decimal or quadrant rule; `NorthMoves` proves it fails exactly at the northern border and otherwise moves one cell north |
| MeshStep.EastMesh | src/lib.rs:93-98 | `east_mesh` dispatched by level; `EastMoves` proves it fails exactly at the eastern border and otherwise moves one cell east |
| MeshStep.SouthMesh | src/lib.rs:100-105 | `south_mesh` dispatched by level; `SouthMoves` proves it fails exactly at the southern border and otherwise moves one cell south |
| MeshStep.WestMesh | src/lib.rs:107-112 | `west_mesh` dispatched by level; `WestMoves` proves it fails exactly at the western border and otherwise moves one cell west |
| MeshStep.Step | src/lib.rs:91-112 | a successful move at any level returns a valid code of the same level |
| MeshStep.StepMoves | src/lib.rs:91-112 | every move fails exactly when the cell touches the domain border on side d, and otherwise lands on the valid cell one cell size away in direction d |
| MeshStep.NorthMoves | src/lib.rs:86-112 | `north_mesh` of every level fails exactly at the northern border and otherwise returns the cell one cell height north |
| MeshStep.EastMoves | src/lib.rs:86-112 | `east_mesh` of every level fails exactly at the eastern border and otherwise returns the cell one cell width east |
| MeshStep.SouthMoves | src/lib.rs:86-112 | `south_mesh` of every level fails exactly at the southern border and otherwise returns the cell one cell height south |
| MeshStep.WestMoves | src/lib.rs:86-112 | `west_mesh` of every level fails exactly at the western border and otherwise returns the cell one cell width west |
| MeshStep.DecimalNorth | src/mesh2.rs:65-80 | `north_mesh` of `Mesh2`/`Mesh3`: from the top row it carries into the parent's north neighbour and restarts at row 0, otherwise the row digit is stepped up; `DecimalNorthMoves` proves the result is the north neighbour |
| MeshStep.DecimalEast | src/mesh2.rs:82-92 | `east_mesh` of `Mesh2`/`Mesh3`: from the last column it carries into the parent's east neighbour and restarts at column 0, otherwise the column digit is stepped up; `DecimalEastMoves` proves the result is the east neighbour |
| MeshStep.DecimalSouth | src/mesh2.rs:94-109 | `south_mesh` of `Mesh2`/`Mesh3`: from row 0 it carries into the parent's south neighbour and wraps to the top row, otherwise the row digit is stepped down; `DecimalSouthMoves` proves the result is the south neighbour |
| MeshStep.DecimalWest | src/mesh2.rs:111-121 | `west_mesh` of `Mesh2`/`Mesh3`: from column 0 it carries into the parent's west neighbour and wraps to the last column, otherwise the column digit is stepped down; `DecimalWestMoves` proves the result is the west neighbour |
| MeshStep.QuadrantNorth | src/mesh4.rs:93-107 | `north_mesh` of `Mesh4`/`Mesh5`/`Mesh6`: a quadrant on the north side carries into the parent's north neighbour, the others move to the sibling quadrant; `QuadrantNorthMoves` proves the result is the north neighbour |
| MeshStep.QuadrantEast | src/mesh4.rs:109-123 | `east_mesh` of `Mesh4`/`Mesh5`/`Mesh6`: a quadrant on the east side carries into the parent's east neighbour, the others move to the sibling quadrant; `QuadrantEastMoves` proves the result is the east neighbour |
| MeshStep.QuadrantSouth | src/mesh4.rs:125-139 | `south_mesh` of `Mesh4`/`Mesh5`/`Mesh6`: a quadrant on the south side carries into the parent's south neighbour, the others move to the sibling quadrant; `QuadrantSouthMoves` proves the result is the south neighbour |
| MeshStep.QuadrantWest | src/mesh4.rs:141-155 | `west_mesh` of `Mesh4`/`Mesh5`/`Mesh6`: a quadrant on the west side carries into the parent's west neighbour, the others move to the sibling quadrant; `QuadrantWestMoves` proves the result is the west neighbour |
| MeshStep.DecimalNorthMoves | src/mesh2.rs:65-80 | `north_mesh` of `Mesh2`/`Mesh3` fails exactly at the northern border and otherwise returns the cell one cell over to the north |
| MeshStep.DecimalNorthStay | src/mesh2.rs:65-80 | stepping the row digit in place gives the correct north neighbour |
| MeshStep.DecimalNorthCarry | src/mesh2.rs:65-80 | from the top row the parent's north neighbour with row 0 is the correct north neighbour, failing exactly when the parent's move fails |
| MeshStep.DecimalEastMoves | src/mesh2.rs:82-92 | `east_mesh` of `Mesh2`/`Mesh3` fails exactly at the eastern border and otherwise returns the cell one cell over to the east |
| MeshStep.DecimalEastStay | src/mesh2.rs:82-92 | stepping the column digit in place gives the correct east neighbour |
| MeshStep.DecimalEastCarry | src/mesh2.rs:82-92 | from the last column the parent's east neighbour with column 0 is the correct east neighbour, failing exactly when the parent's move fails |
| MeshStep.DecimalSouthMoves | src/mesh2.rs:94-109 | `south_mesh` of `Mesh2`/`Mesh3` fails exactly at the southern border and otherwise returns the cell one cell over to the south |
| MeshStep.DecimalSouthStay | src/mesh2.rs:94-109 | stepping the row digit in place gives the correct south neighbour |
| MeshStep.DecimalSouthCarry | src/mesh2.rs:94-109 | from row 0 the parent's south neighbour with the top row is the correct south neighbour, failing exactly when the parent's move fails |
| MeshStep.DecimalWestMoves | src/mesh2.rs:111-121 | `west_mesh` of `Mesh2`/`Mesh3` fails exactly at the western border and otherwise returns the cell one cell over to the west |
| MeshStep.DecimalWestStay | src/mesh2.rs:111-121 | stepping the column digit in place gives the correct west neighbour |
| MeshStep.DecimalWestCarry | src/mesh2.rs:111-121 | from column 0 the parent's west neighbour with the last column is the correct west neighbour, failing exactly when the parent's move fails |
| MeshStep.QuadrantNorthMoves | src/mesh4.rs:93-107 | `north_mesh` of `Mesh4`/`Mesh5`/`Mesh6` fails exactly at the northern border and otherwise returns the cell one cell over to the north |
| MeshStep.QuadrantNorthStay | src/mesh4.rs:93-107 | for quadrants 1, 2 the sibling quadrant is the correct north neighbour |
| MeshStep.QuadrantNorthCarry | src/mesh4.rs:93-107 | for quadrants 3, 4 the parent's north neighbour with the mirrored quadrant is the correct north neighbour, failing exactly when the parent's move fails |
| MeshStep.QuadrantEastMoves | src/mesh4.rs:109-123 | `east_mesh` of `Mesh4`/`Mesh5`/`Mesh6` fails exactly at the eastern border and otherwise returns the cell one cell over to the east |
| MeshStep.QuadrantEastStay | src/mesh4.rs:109-123 | for quadrants 1, 3 the sibling quadrant is the correct east neighbour |
| MeshStep.QuadrantEastCarry | src/mesh4.rs:109-123 | for quadrants 2, 4 the parent's east neighbour with the mirrored quadrant is the correct east neighbour, failing exactly when the parent's move fails |
| MeshStep.QuadrantSouthMoves | src/mesh4.rs:125-139 | `south_mesh` of `Mesh4`/`Mesh5`/`Mesh6` fails exactly at the southern border and otherwise returns the cell one cell over to the south |
| MeshStep.QuadrantSouthStay | src/mesh4.rs:125-139 | for quadrants 3, 4 the sibling quadrant is the correct south neighbour |
| MeshStep.QuadrantSouthCarry | src/mesh4.rs:125-139 | for quadrants 1, 2 the parent's south neighbour with the mirrored quadrant is the correct south neighbour, failing exactly when the parent's move fails |
| MeshStep.QuadrantWestMoves | src/mesh4.rs:141-155 | `west_mesh` of `Mesh4`/`Mesh5`/`Mesh6` fails exactly at the western border and otherwise returns the cell one cell over to the west |
| MeshStep.QuadrantWestStay | src/mesh4.rs:141-155 | for quadrants 2, 4 the sibling quadrant is the correct west neighbour |
| MeshStep.QuadrantWestCarry | src/mesh4.rs:141-155 | for quadrants 1, 3 the parent's west neighbour with the mirrored quadrant is the correct west neighbour, failing exactly when the parent's move fails |
| MeshGrid.LatDigit | src/mesh4.rs:75-82 | the row of a level's cell inside its parent is below the level's split (8, 10 or 2) |
| MeshGrid.LonDigit | src/mesh4.rs:84-91 | the column of a level's cell inside its parent is below the level's split (8, 10 or 2) |
| MeshGrid.OnGrid | src/mesh3.rs:57-73 | the south-west corner of every cell lies on its level's grid: a whole number of cell heights and widths from the domain's south-west corner |
| MeshGrid.StepOnGrid | src/mesh3.rs:57-73 | each level's offset inside its parent is its row and column times its cell size |
| MeshGrid.ScaleOnGrid | src/mesh2.rs:47-63 | one parent cell is exactly `Split(k)` cells of level k high and wide |
| MeshGrid.Unscale | src/mesh3.rs:134-151 | a grid index written as parent index × split + digit, with the digit below the split, has only one writing |
| MeshGrid.FieldsDetermineChars | src/mesh1.rs:111-134 | equal level-1 fields mean equal first four characters |
| MeshGrid.SuffixDetermines | src/mesh3.rs:134-151 | equal row and column inside the parent mean an equal suffix |
| MeshGrid.IndexDetermines | src/mesh3.rs:134-151 | codes with the same row and column index on the level-k grid agree on their first `Len(k)` characters |
| MeshGrid.AnchorDetermines | src/mesh3.rs:57-73 | two valid codes of one level with the same `south()` and `west()` are the same code |
| MeshGrid.MovedBack | src/lib.rs:91-112 | a move followed by a correct move in the opposite direction returns to the starting code |
| MeshGrid.StepInverse | src/mesh2.rs:65-121 | `south_mesh(north_mesh(m)) == m` and the same for every pair of opposite moves, at every level, wherever the first move succeeds |
| MeshAdjacency.StepIffDisplaced | src/lib.rs:91-112 | a move in direction d lands on c exactly when c is the cell one cell size over in direction d |
| MeshAdjacency.DisplacedUnique | src/lib.rs:150-173 | no cell is one cell over from another in two different directions |
| MeshAdjacency.IsJoining | src/lib.rs:150-173 | `is_joining` reports a side only when the move to that side returns the other mesh |
| MeshAdjacency.JoiningIff | src/lib.rs:150-173 | `is_joining` reports side d exactly when the other cell lies one cell over in direction d, and exactly when the d move returns it; the order N, E, S, W never hides an answer |
| MeshAdjacency.NotJoiningIff | src/lib.rs:150-173 | `is_joining` reports no side exactly when none of the four moves returns the other cell |
| MeshAdjacency.JoiningSymmetric | src/lib.rs:150-173 | if c joins a on side d, then a joins c on the opposite side |
| MeshAdjacency.NotJoiningSelf | src/lib.rs:150-173 | a mesh never joins itself |
| MeshAdjacency.DiagonalMoved | src/lib.rs:119-148 | a north/south move followed by an east/west move fails exactly when the cell touches the border on either side, and otherwise returns a valid cell |
| MeshAdjacency.ThenDiagonal | src/lib.rs:119-148 | a diagonal composition of moves fails exactly at either border and otherwise lands one cell height and one cell width away |
| MeshAdjacency.DiagonalNotJoining | src/lib.rs:150-173 | a cell one height and one width away is not reported as joining; diagonal neighbours are not adjacent |
| MeshAdjacency.ThenDiagonalNotJoining | src/lib.rs:119-173 | each diagonal neighbour, where it exists, is displaced diagonally and is not reported as joining |
| MeshAdjacency.NorthEastMesh | src/lib.rs:119-121 | `north_east_mesh`: the east neighbour of the north neighbour; `DiagonalMeshes` proves it fails exactly at the northern or eastern border and otherwise lies one cell north and one cell east |
| MeshAdjacency.SouthEastMesh | src/lib.rs:128-130 | `south_east_mesh`: the east neighbour of the south neighbour; `DiagonalMeshes` states its failure and displacement |
| MeshAdjacency.SouthWestMesh | src/lib.rs:137-139 | `south_west_mesh`: the west neighbour of the south neighbour; `DiagonalMeshes` states its failure and displacement |
| MeshAdjacency.NorthWestMesh | src/lib.rs:146-148 | `north_west_mesh`: the west neighbour of the north neighbour; `DiagonalMeshes` states its failure and displacement |
| MeshAdjacency.DiagonalMeshes | src/lib.rs:119-148 | `north_east_mesh`, `south_east_mesh`, `south_west_mesh`, `north_west_mesh` fail exactly at one of their two borders and otherwise land one cell height and width away in their two directions |
| MeshAdjacency.TwoStepsNotJoining | src/lib.rs:150-173 | two moves the same way land on a cell that is not reported as joining |
| MeshAdjacency.NorthEastCorner | src/lib.rs:55-57 | `north_east()` is the north edge (south plus height) and the east edge (west plus width) |
| MeshAdjacency.SouthEastCorner | src/lib.rs:64-66 | `south_east()` is the south edge and the east edge |
| MeshAdjacency.SouthWestCorner | src/lib.rs:73-75 | `south_west()` is the south edge and the west edge |
| MeshAdjacency.NorthWestCorner | src/lib.rs:82-84 | `north_west()` is the north edge and the west edge |
| MeshAdjacency.SharedCorners | src/lib.rs:55-84 | neighbouring cells share corners: the north neighbour's south-west corner is the cell's north-west corner, the east neighbour's is its south-east corner, the north-east neighbour's is its north-east corner |
| MeshAdjacency.Center | src/lib.rs:44-48 | `center()` lies strictly inside the cell |
| MeshAdjacency.CenterDetermines | src/lib.rs:44-48 | two cells of one level with the same centre are the same cell |
| MeshAdjacency.CenterInAncestor | src/lib.rs:44-48 | the centre of a cell lies strictly inside the cell of every ancestor |
| BaseMapFrames.BaseMapFrame.Level | gsjp/src/base_map_frame.rs:191-199 | `level()` names the variant: rebuilding the variant of that level from the code gives the frame back |
| BaseMapFrames.BaseMapFrame.Extent | gsjp/src/base_map_frame.rs:236-246 | `extent()` is `width()` wide and `height()` high and lies inside the coordinate system's area [−160000, 160000) × [−300000, 300000), so its corners fit in `i32` |
| BaseMapFrames.BaseMapFrame.Width | gsjp/src/base_map_frame.rs:206-214 | `width()` of each level: 40000, 4000, 2000, 800 and 400; `ExtentSize` proves it is the width of `extent()` |
| BaseMapFrames.BaseMapFrame.Height | gsjp/src/base_map_frame.rs:221-229 | `height()` of each level: 30000, 3000, 1500, 600 and 300; `ExtentSize` proves it is the height of `extent()` |
| BaseMapFrames.BaseMapFrame.LeftTop | gsjp/src/base_map_frame.rs:236-243 | the north-west corner of the frame from its level's helper; `LeftTop2500`… `LeftTop50000` place it inside the parent frame, `AcceptedDecodable` makes it defined on every accepted frame |
| BaseMapFrames.Make | gsjp/src/base_map_frame.rs:7-43 | the variant of a level carries the given code |
| BaseMapFrames.FrameExtent.Width | gsjp/src/base_map_frame.rs:335-337 | `(right - left) as u32`: the difference when it is non-negative, the difference plus 2^32 when it is negative |
| BaseMapFrames.FrameExtent.Height | gsjp/src/base_map_frame.rs:344-346 | `(top - bottom) as u32`: the difference when it is non-negative, the difference plus 2^32 when it is negative |
| BaseMapFrames.TryFrom | gsjp/src/base_map_frame.rs:84-112 | `try_from` never panics; an accepted code is kept and matches its level's pattern; a rejected one is `InvalidFrameCode` and matches no pattern |
| BaseMapFrames.Matches | gsjp/src/base_map_frame.rs:75-79 | the five anchored `LEVEL_*_PATTERN`s written per position; `PatternsExclusive` proves no code matches two, `TryFromIff` that `try_from` accepts exactly the matching codes |
| BaseMapFrames.PatternsExclusive | gsjp/src/base_map_frame.rs:75-79 | no code matches two of the five patterns, so the order of the tests does not matter |
| BaseMapFrames.TryFromIff | gsjp/src/base_map_frame.rs:84-112 | `try_from(s)` returns the level-l frame of s exactly when s matches level l's pattern |
| BaseMapFrames.LeftTop50000 | gsjp/src/base_map_frame.rs:350-367 | the level-50000 frame named by row `A`–`T` and column `A`–`H` lies inside the coordinate system's area |
| BaseMapFrames.LeftTop5000 | gsjp/src/base_map_frame.rs:370-387 | the level-5000 frame lies inside its level-50000 frame |
| BaseMapFrames.LeftTop2500 | gsjp/src/base_map_frame.rs:390-407 | the level-2500 frame lies inside its level-5000 frame; even quadrants are exactly the eastern half and quadrants 3, 4 exactly the southern half |
| BaseMapFrames.LeftTop1000 | gsjp/src/base_map_frame.rs:410-429 | the level-1000 frame lies inside its level-5000 frame |
| BaseMapFrames.LeftTop500 | gsjp/src/base_map_frame.rs:432-451 | the level-500 frame lies inside its level-5000 frame |
| BaseMapFrames.AcceptedDecodable | gsjp/src/base_map_frame.rs:236-246 | every frame `try_from` accepts passes its `left_top` helper's asserts, so `extent()` never panics on it |
| BaseMapFrames.ExtentSize | gsjp/src/base_map_frame.rs:335-346 | on a frame's extent the `u32` casts of `FrameExtent::width()`/`height()` do not wrap and equal the frame's `width()`/`height()` |
| BaseMapFrames.ParentFrame | gsjp/src/base_map_frame.rs:370-387 | the first four (level 5000) or six (levels 2500, 1000, 500) characters of an accepted code are an accepted code one level up |
| BaseMapFrames.WithinParent | gsjp/src/base_map_frame.rs:390-451 | the extent of every accepted frame below level 50000 lies within the extent of its parent frame |
| BaseMapFrames.SystemField | gsjp/src/base_map_frame.rs:147 | the system field of the code: the two-digit form of the system below 100; from 100 on, three characters, the hundreds digit followed by the two-digit form of the rest |
| BaseMapFrames.Times | gsjp/src/base_map_frame.rs:143-144 | `(v / unit) as u8` on the values that occur: the whole number n with n·unit ≤ v < (n+1)·unit |
| BaseMapFrames.Rem | gsjp/src/base_map_frame.rs:153-154 | what is left after the whole units is in [0, unit) and completes v |
| BaseMapFrames.TimesUnique | gsjp/src/base_map_frame.rs:143-144 | `Times` is the only whole number k with k·unit ≤ v < (k+1)·unit |
| BaseMapFrames.HeadAt | gsjp/src/base_map_frame.rs:141-147 | the system field and the level-50000 row and column take four or five characters |
| BaseMapFrames.FrameCodeAt | gsjp/src/base_map_frame.rs:139-181 | the code `from_level_xy` builds for a point; `Finds*` prove it matches the level's pattern with an extent holding the point, `CodeRecovered` that it rebuilds every accepted frame from its points |
| BaseMapFrames.SuffixAt | gsjp/src/base_map_frame.rs:164-181 | the level-2500, 1000 or 500 suffix built from the position inside the level-5000 frame; `SuffixRecovered` proves a point of a suffix's cell rebuilds that suffix |
| BaseMapFrames.Suffix5000At | gsjp/src/base_map_frame.rs:153-159 | the level-5000 suffix is two characters |
| BaseMapFrames.RangeCheck | gsjp/src/base_map_frame.rs:133-138 | `XOutOfRange` exactly when x lies outside [−160000, 160000); otherwise `YOutOfRange` exactly when y lies outside [−300000, 300000); no error exactly when both lie inside |
| BaseMapFrames.FromLevelXyAsWritten | gsjp/src/base_map_frame.rs:127-184 | `from_level_xy` as written: a failed range check is returned as that error |
| BaseMapFrames.FromLevelXy | gsjp/src/base_map_frame.rs:127-184 | the corrected `from_level_xy` never panics, and a failed range check is returned as that error |
| BaseMapFrames.AsWrittenAgrees | gsjp/src/base_map_frame.rs:172-183 | the version as written panics exactly when the point is in range, the level is 2500, 1000 or 500 and the corrected version reports an error; otherwise the two agree |
| BaseMapFrames.CodeAt50000 | gsjp/src/base_map_frame.rs:141-147 | for a system below 20 the code built for a point starts with the two-digit system and names the level-50000 frame of the 8 × 20 grid cell holding the point |
| BaseMapFrames.CodeAt5000 | gsjp/src/base_map_frame.rs:152-158 | below level 50000 it continues with the level-5000 frame of the 10 × 10 grid cell holding the point |
| BaseMapFrames.Finds50000 | gsjp/src/base_map_frame.rs:141-150 | at level 50000 the code built for a point matches the pattern and its extent holds the point |
| BaseMapFrames.Finds5000 | gsjp/src/base_map_frame.rs:152-162 | at level 5000 the code built for a point matches the pattern and its extent holds the point |
| BaseMapFrames.Finds2500 | gsjp/src/base_map_frame.rs:166-171 | at level 2500 the code built for a point matches the pattern and its extent holds the point |
| BaseMapFrames.Finds1000 | gsjp/src/base_map_frame.rs:172-176 | at level 1000 the code built for a point matches the pattern and its extent holds the point |
| BaseMapFrames.Finds500 | gsjp/src/base_map_frame.rs:177-182 | at level 500 the code built for a point matches the pattern and its extent holds the point |
| BaseMapFrames.FromLevelXyFinds | gsjp/src/base_map_frame.rs:127-184 | for a system below 20 and a point in range, `from_level_xy` returns a frame of the requested level and system whose extent contains the point |
| BaseMapFrames.FrameSystem | gsjp/src/base_map_frame.rs:75 | the system a code names is below 20 and is written by the code's first two characters |
| BaseMapFrames.HeadRecovered | gsjp/src/base_map_frame.rs:141-147 | a point of a level-50000 frame gives back the row and column of that frame and its first four characters |
| BaseMapFrames.Suffix5000Recovered | gsjp/src/base_map_frame.rs:152-158 | a point of a level-5000 frame gives back its two digits |
| BaseMapFrames.SuffixRecovered | gsjp/src/base_map_frame.rs:164-181 | a point in the cell of a level-2500, 1000 or 500 suffix gives back that suffix |
| BaseMapFrames.Quadrant2500Recovered | gsjp/src/base_map_frame.rs:166-170 | a point of a level-2500 quadrant gives back the quadrant digit |
| BaseMapFrames.Cell1000Recovered | gsjp/src/base_map_frame.rs:172-176 | a point of a level-1000 cell gives back its row digit and column letter |
| BaseMapFrames.Cell500Recovered | gsjp/src/base_map_frame.rs:177-181 | a point of a level-500 cell gives back its row and column digits |
| BaseMapFrames.CodeRecovered | gsjp/src/base_map_frame.rs:139-181 | for every point of an accepted frame's extent, the code `from_level_xy` builds with the frame's system and level is the frame's code |
| BaseMapFrames.SuffixCellOfPoint | gsjp/src/base_map_frame.rs:390-451 | a point of a frame below level 50000 lies in its level-5000 frame, in the cell that the frame's suffix names |
| BaseMapFrames.Cell2500OfPoint | gsjp/src/base_map_frame.rs:390-407 | a point of a level-2500 frame lies in the quadrant its last digit names |
| BaseMapFrames.Cell1000OfPoint | gsjp/src/base_map_frame.rs:410-429 | a point of a level-1000 frame lies in the cell its last two characters name |
| BaseMapFrames.Cell500OfPoint | gsjp/src/base_map_frame.rs:432-451 | a point of a level-500 frame lies in the cell its last two digits name |
| BaseMapFrames.SuffixCodeRecovered | gsjp/src/base_map_frame.rs:139-181 | from where a point lies in an accepted code's level-5000 frame, the code built for it is that code |
| BaseMapFrames.FromLevelXyRecovers | gsjp/src/base_map_frame.rs:127-184 | `from_level_xy` inverts `extent()`: for every point of an accepted frame's extent it returns that frame, given the frame's system and level |
| BaseMapFrames.FrameAtPointUnique | gsjp/src/base_map_frame.rs:236-246 | two accepted frames of the same level and system whose extents share a point are the same frame |
| BaseMapFrames.SystemOutOfPattern | gsjp/src/base_map_frame.rs:147 | a system of 20 or more makes every code built for a point fail every pattern |
| BaseMapFrames.FromLevelXyRejectsSystem | gsjp/src/base_map_frame.rs:127-184 | in range, the corrected `from_level_xy` returns `InvalidFrameCode` at every level for a system of 20 or more |
| BaseMapFrames.AsWrittenPanicsOnSystem | gsjp/src/base_map_frame.rs:183 | as written, a system of 20 or more gives `InvalidFrameCode` at levels 50000 and 5000 and a panic at levels 2500, 1000 and 500 |
| MeshExamples.Mesh1Corners | src/mesh1.rs:146-163 | the four corner cells of the root crate's domain are valid; each code one field beyond them is not |
| MeshExamples.Mesh1NorthSouth | src/mesh1.rs:387-424 | north and south moves of a level-1 cell step the latitude field, and fail past the northern and southern border |
| MeshExamples.Mesh1EastWest | src/mesh1.rs:400-436 | east and west moves of a level-1 cell step the longitude field, and fail past the eastern and western border |
| MeshExamples.Mesh1JoinsNorth | src/mesh1.rs:439-462 | the cell above is reported as joining on the north |
| MeshExamples.Mesh1JoinsWest | src/mesh1.rs:439-462 | the cell to the left is reported as joining on the west |
| MeshExamples.Mesh1DiagonalNotJoining | src/mesh1.rs:465-488 | a diagonal neighbour is not reported as joining |
| MeshExamples.Mesh1TwoStepsNotJoining | src/mesh1.rs:491-514 | a cell two steps north is not reported as joining |
| MeshExamples.Mesh2NorthCarry | src/mesh2.rs:393-400 | from the top row, a north move carries into the parent and restarts at row 0 |
| MeshExamples.Mesh2EastCarry | src/mesh2.rs:409-416 | from the last column, an east move carries into the parent and restarts at column 0 |
| MeshExamples.Mesh2SouthCarry | src/mesh2.rs:425-432 | from row 0, a south move carries into the parent and restarts at row 7 |
| MeshExamples.Mesh2WestCarry | src/mesh2.rs:441-448 | from column 0, a west move carries into the parent and restarts at column 7 |
| MeshExamples.Mesh2Borders | src/mesh2.rs:403-422 | at the northern and eastern borders a level-2 move fails: 682270 cannot move north and 305407 cannot move east |
| MeshExamples.Mesh2BordersSouthWest | src/mesh2.rs:435-454 | the south-western corner cell can move neither south nor west |
| MeshExamples.Mesh2JoinsAcrossParents | src/mesh2.rs:457-480 | cells on either side of a level-1 boundary are reported as joining |
| MeshExamples.Mesh2DiagonalNotJoining | src/mesh2.rs:483-505 | a diagonal neighbour is not reported as joining |
| MeshExamples.GsjpMesh2Extremes | gsjp/src/mesh/mesh2.rs:160-192 | the cells at the four extreme corners of the gsjp domain are valid; row or column digits beyond 7, and the codes one cell beyond the corners, are not |
| MeshExamples.GsjpMesh2North | gsjp/src/mesh/mesh2.rs:462-478 | north moves near the northern border of the gsjp domain |
| MeshExamples.GsjpMesh2Corners | gsjp/src/mesh/mesh2.rs:482-530 | the western and eastern extreme cells cannot move further out |
| MeshExamples.GsjpMesh2Inside | gsjp/src/mesh/mesh2.rs:501-530 | a move off the south-western corner cell inward succeeds (301800 north is 301810), and 302200 on the southern border cannot move south |
| MeshExamples.Mesh3NorthCarry | src/mesh3.rs:469-480 | from row 9, a north move carries into the parent and restarts at row 0 |
| MeshExamples.Mesh3EastCarry | src/mesh3.rs:489-500 | from column 9, an east move carries into the parent and restarts at column 0 |
| MeshExamples.Mesh3SouthCarry | src/mesh3.rs:509-520 | from row 0, a south move carries into the parent and restarts at row 9 |
| MeshExamples.Mesh3WestCarry | src/mesh3.rs:529-540 | from column 0, a west move carries into the parent and restarts at column 9 |
| MeshExamples.Mesh3Borders | src/mesh3.rs:483-506 | moves fail at the border of the domain |
| MeshExamples.Mesh3BordersSouthWest | src/mesh3.rs:523-546 | the south-western corner cell can move neither south nor west |
| MeshExamples.Mesh3JoinsAcrossParents | src/mesh3.rs:549-572 | cells on either side of a level-1 boundary are reported as joining |
| MeshExamples.Mesh3TwoStepsNotJoining | src/mesh3.rs:575-597 | a cell two steps east is not reported as joining |
| MeshExamples.Mesh4Quadrants | src/mesh4.rs:182-198 | quadrant digits run from 1 to 4 |
| MeshExamples.Mesh4North | src/mesh4.rs:427-440 | north: quadrants 1 and 2 move up inside the parent, 3 and 4 carry |
| MeshExamples.Mesh4NorthCarryTwice | src/mesh4.rs:427-440 | a north carry that climbs two levels |
| MeshExamples.Mesh4East | src/mesh4.rs:443-456 | east: quadrants 1 and 3 move right inside the parent, 2 and 4 carry |
| MeshExamples.Mesh4EastCarryTwice | src/mesh4.rs:443-456 | an east carry that climbs two levels |
| MeshExamples.Mesh4South | src/mesh4.rs:459-472 | south: quadrants 3 and 4 move down inside the parent, 1 and 2 carry |
| MeshExamples.Mesh4SouthCarryTwice | src/mesh4.rs:459-472 | a south carry that climbs three levels |
| MeshExamples.Mesh4West | src/mesh4.rs:475-488 | west: quadrants 2 and 4 move left inside the parent, 1 and 3 carry |
| MeshExamples.Mesh4WestCarryTwice | src/mesh4.rs:475-488 | a west carry that climbs three levels |
| MeshExamples.Mesh4DiagonalNotJoining | src/mesh4.rs:517-539 | a diagonal neighbour is not reported as joining |
| MeshExamples.Mesh5Quadrants | gsjp/src/mesh/mesh5.rs:190-206 | quadrant digits run from 1 to 4 |
| MeshExamples.Mesh5North | gsjp/src/mesh/mesh5.rs:436-449 | north inside the parent, and a carry that climbs four levels |
| MeshExamples.Mesh5East | gsjp/src/mesh/mesh5.rs:452-465 | east inside the parent, and a carry that climbs four levels |
| MeshExamples.Mesh5South | gsjp/src/mesh/mesh5.rs:468-481 | south with a carry, and a carry that climbs four levels |
| MeshExamples.Mesh5West | gsjp/src/mesh/mesh5.rs:484-497 | west with a carry, and a carry that climbs four levels |
| MeshExamples.Mesh5JoinsAcrossParents | gsjp/src/mesh/mesh5.rs:500-523 | cells on either side of a level-1 boundary are reported as joining |
| MeshExamples.Mesh5DiagonalNotJoining | gsjp/src/mesh/mesh5.rs:526-548 | a diagonal neighbour is not reported as joining |
| MeshExamples.Mesh6Quadrants | gsjp/src/mesh/mesh6.rs:198-214 | quadrant digits run from 1 to 4 |
| MeshExamples.Mesh6North | gsjp/src/mesh/mesh6.rs:444-457 | north with a carry, and a carry that climbs five levels |
| MeshExamples.Mesh6East | gsjp/src/mesh/mesh6.rs:460-473 | east with a carry, and a carry that climbs five levels |
| MeshExamples.Mesh6South | gsjp/src/mesh/mesh6.rs:476-489 | south with a carry, and a carry that climbs five levels |
| MeshExamples.Mesh6West | gsjp/src/mesh/mesh6.rs:492-505 | west with a carry, and a carry that climbs five levels |
| MeshExamples.Mesh6JoinsAcrossParents | gsjp/src/mesh/mesh6.rs:508-531 | cells on either side of a level-1 boundary are reported as joining |
| MeshExamples.Mesh6DiagonalNotJoining | gsjp/src/mesh/mesh6.rs:534-556 | a diagonal neighbour is not reported as joining |
| BaseMapFrameExamples.TryFromAccepts | gsjp/src/base_map_frame.rs:459-538 | `try_from` tags each code with the level its pattern names |
| BaseMapFrameExamples.TryFromRejects | gsjp/src/base_map_frame.rs:474-481 | codes that are too short, or whose row or column letter lies outside A–T / A–H, are rejected |
| BaseMapFrameExamples.FrameSizes | gsjp/src/base_map_frame.rs:484-538 | the sizes of one frame of each level |
| BaseMapFrameExamples.Extent50000_07AA | gsjp/src/base_map_frame.rs:542-588 | `extent()` of frame 07AA is (left, bottom, right, top) = (-160000, 270000, -120000, 300000), as the test expects |
| BaseMapFrameExamples.Extent50000_07AH | gsjp/src/base_map_frame.rs:542-588 | `extent()` of frame 07AH is (left, bottom, right, top) = (120000, 270000, 160000, 300000), as the test expects |
| BaseMapFrameExamples.Extent50000_07TH | gsjp/src/base_map_frame.rs:542-588 | `extent()` of frame 07TH is (left, bottom, right, top) = (120000, -300000, 160000, -270000), as the test expects |
| BaseMapFrameExamples.Extent50000_07TA | gsjp/src/base_map_frame.rs:542-588 | `extent()` of frame 07TA is (left, bottom, right, top) = (-160000, -300000, -120000, -270000), as the test expects |
| BaseMapFrameExamples.Extent50000_07JD | gsjp/src/base_map_frame.rs:542-588 | `extent()` of frame 07JD is (left, bottom, right, top) = (-40000, 0, 0, 30000), as the test expects |
| BaseMapFrameExamples.Extent50000_07JE | gsjp/src/base_map_frame.rs:542-588 | `extent()` of frame 07JE is (left, bottom, right, top) = (0, 0, 40000, 30000), as the test expects |
| BaseMapFrameExamples.Extent50000_07KE | gsjp/src/base_map_frame.rs:542-588 | `extent()` of frame 07KE is (left, bottom, right, top) = (0, -30000, 40000, 0), as the test expects |
| BaseMapFrameExamples.Extent50000_07KD | gsjp/src/base_map_frame.rs:542-588 | `extent()` of frame 07KD is (left, bottom, right, top) = (-40000, -30000, 0, 0), as the test expects |
| BaseMapFrameExamples.Extent5000_07JE00 | gsjp/src/base_map_frame.rs:591-637 | `extent()` of frame 07JE00 is (left, bottom, right, top) = (0, 27000, 4000, 30000), as the test expects |
| BaseMapFrameExamples.Extent5000_07JE09 | gsjp/src/base_map_frame.rs:591-637 | `extent()` of frame 07JE09 is (left, bottom, right, top) = (36000, 27000, 40000, 30000), as the test expects |
| BaseMapFrameExamples.Extent5000_07JE99 | gsjp/src/base_map_frame.rs:591-637 | `extent()` of frame 07JE99 is (left, bottom, right, top) = (36000, 0, 40000, 3000), as the test expects |
| BaseMapFrameExamples.Extent5000_07JE90 | gsjp/src/base_map_frame.rs:591-637 | `extent()` of frame 07JE90 is (left, bottom, right, top) = (0, 0, 4000, 3000), as the test expects |
| BaseMapFrameExamples.Extent5000_07JE44 | gsjp/src/base_map_frame.rs:591-637 | `extent()` of frame 07JE44 is (left, bottom, right, top) = (16000, 15000, 20000, 18000), as the test expects |
| BaseMapFrameExamples.Extent5000_07JE45 | gsjp/src/base_map_frame.rs:591-637 | `extent()` of frame 07JE45 is (left, bottom, right, top) = (20000, 15000, 24000, 18000), as the test expects |
| BaseMapFrameExamples.Extent5000_07JE55 | gsjp/src/base_map_frame.rs:591-637 | `extent()` of frame 07JE55 is (left, bottom, right, top) = (20000, 12000, 24000, 15000), as the test expects |
| BaseMapFrameExamples.Extent5000_07JE54 | gsjp/src/base_map_frame.rs:591-637 | `extent()` of frame 07JE54 is (left, bottom, right, top) = (16000, 12000, 20000, 15000), as the test expects |
| BaseMapFrameExamples.Extent2500_07JE901 | gsjp/src/base_map_frame.rs:640-666 | `extent()` of frame 07JE901 is (left, bottom, right, top) = (0, 1500, 2000, 3000), as the test expects |
| BaseMapFrameExamples.Extent2500_07JE902 | gsjp/src/base_map_frame.rs:640-666 | `extent()` of frame 07JE902 is (left, bottom, right, top) = (2000, 1500, 4000, 3000), as the test expects |
| BaseMapFrameExamples.Extent2500_07JE904 | gsjp/src/base_map_frame.rs:640-666 | `extent()` of frame 07JE904 is (left, bottom, right, top) = (2000, 0, 4000, 1500), as the test expects |
| BaseMapFrameExamples.Extent2500_07JE903 | gsjp/src/base_map_frame.rs:640-666 | `extent()` of frame 07JE903 is (left, bottom, right, top) = (0, 0, 2000, 1500), as the test expects |
| BaseMapFrameExamples.Extent1000_07JE900A | gsjp/src/base_map_frame.rs:669-700 | `extent()` of frame 07JE900A is (left, bottom, right, top) = (0, 2400, 800, 3000), as the test expects |
| BaseMapFrameExamples.Extent1000_07JE900E | gsjp/src/base_map_frame.rs:669-700 | `extent()` of frame 07JE900E is (left, bottom, right, top) = (3200, 2400, 4000, 3000), as the test expects |
| BaseMapFrameExamples.Extent1000_07JE904E | gsjp/src/base_map_frame.rs:669-700 | `extent()` of frame 07JE904E is (left, bottom, right, top) = (3200, 0, 4000, 600), as the test expects |
| BaseMapFrameExamples.Extent1000_07JE904A | gsjp/src/base_map_frame.rs:669-700 | `extent()` of frame 07JE904A is (left, bottom, right, top) = (0, 0, 800, 600), as the test expects |
| BaseMapFrameExamples.Extent1000_07JE902C | gsjp/src/base_map_frame.rs:669-700 | `extent()` of frame 07JE902C is (left, bottom, right, top) = (1600, 1200, 2400, 1800), as the test expects |
| BaseMapFrameExamples.Extent500_07JE9000 | gsjp/src/base_map_frame.rs:703-749 | `extent()` of frame 07JE9000 is (left, bottom, right, top) = (0, 2700, 400, 3000), as the test expects |
| BaseMapFrameExamples.Extent500_07JE9009 | gsjp/src/base_map_frame.rs:703-749 | `extent()` of frame 07JE9009 is (left, bottom, right, top) = (3600, 2700, 4000, 3000), as the test expects |
| BaseMapFrameExamples.Extent500_07JE9099 | gsjp/src/base_map_frame.rs:703-749 | `extent()` of frame 07JE9099 is (left, bottom, right, top) = (3600, 0, 4000, 300), as the test expects |
| BaseMapFrameExamples.Extent500_07JE9090 | gsjp/src/base_map_frame.rs:703-749 | `extent()` of frame 07JE9090 is (left, bottom, right, top) = (0, 0, 400, 300), as the test expects |
| BaseMapFrameExamples.Extent500_07JE9044 | gsjp/src/base_map_frame.rs:703-749 | `extent()` of frame 07JE9044 is (left, bottom, right, top) = (1600, 1500, 2000, 1800), as the test expects |
| BaseMapFrameExamples.Extent500_07JE9045 | gsjp/src/base_map_frame.rs:703-749 | `extent()` of frame 07JE9045 is (left, bottom, right, top) = (2000, 1500, 2400, 1800), as the test expects |
| BaseMapFrameExamples.Extent500_07JE9055 | gsjp/src/base_map_frame.rs:703-749 | `extent()` of frame 07JE9055 is (left, bottom, right, top) = (2000, 1200, 2400, 1500), as the test expects |
| BaseMapFrameExamples.Extent500_07JE9054 | gsjp/src/base_map_frame.rs:703-749 | `extent()` of frame 07JE9054 is (left, bottom, right, top) = (1600, 1200, 2000, 1500), as the test expects |
| BaseMapFrameExamples.FromLevelXy50000_07AA | gsjp/src/base_map_frame.rs:752-785 | `from_level_xy(7, level 50000, -160000, 300000 - ε)` returns frame 07AA, as the test expects |
| BaseMapFrameExamples.FromLevelXy50000_07AH | gsjp/src/base_map_frame.rs:752-785 | `from_level_xy(7, level 50000, 160000 - ε, 300000 - ε)` returns frame 07AH, as the test expects |
| BaseMapFrameExamples.FromLevelXy50000_07TH | gsjp/src/base_map_frame.rs:752-785 | `from_level_xy(7, level 50000, 160000 - ε, -300000)` returns frame 07TH, as the test expects |
| BaseMapFrameExamples.FromLevelXy50000_07TA | gsjp/src/base_map_frame.rs:752-785 | `from_level_xy(7, level 50000, -160000, -300000)` returns frame 07TA, as the test expects |
| BaseMapFrameExamples.FromLevelXy50000_07JE | gsjp/src/base_map_frame.rs:752-785 | `from_level_xy(7, level 50000, 0, 0)` returns frame 07JE, as the test expects |
| BaseMapFrameExamples.FromLevelXy50000_07JD | gsjp/src/base_map_frame.rs:752-785 | `from_level_xy(7, level 50000, -40000, 0)` returns frame 07JD, as the test expects |
| BaseMapFrameExamples.FromLevelXy50000_07KE | gsjp/src/base_map_frame.rs:752-785 | `from_level_xy(7, level 50000, 0, -30000)` returns frame 07KE, as the test expects |
| BaseMapFrameExamples.FromLevelXy50000_07KD | gsjp/src/base_map_frame.rs:752-785 | `from_level_xy(7, level 50000, -40000, -30000)` returns frame 07KD, as the test expects |
| BaseMapFrameExamples.FromLevelXy50000_07FG | gsjp/src/base_map_frame.rs:752-785 | `from_level_xy(7, level 50000, 80000, 120000)` returns frame 07FG, as the test expects |
| BaseMapFrameExamples.FromLevelXy5000_07NC00 | gsjp/src/base_map_frame.rs:794-826 | `from_level_xy(7, level 5000, -80000, -90000 - ε)` returns frame 07NC00, as the test expects |
| BaseMapFrameExamples.FromLevelXy5000_07NC09 | gsjp/src/base_map_frame.rs:794-826 | `from_level_xy(7, level 5000, -40000 - ε, -90000 - ε)` returns frame 07NC09, as the test expects |
| BaseMapFrameExamples.FromLevelXy5000_07NC99 | gsjp/src/base_map_frame.rs:794-826 | `from_level_xy(7, level 5000, -40000 - ε, -120000)` returns frame 07NC99, as the test expects |
| BaseMapFrameExamples.FromLevelXy5000_07NC90 | gsjp/src/base_map_frame.rs:794-826 | `from_level_xy(7, level 5000, -80000, -120000)` returns frame 07NC90, as the test expects |
| BaseMapFrameExamples.FromLevelXy5000_07NC45 | gsjp/src/base_map_frame.rs:794-826 | `from_level_xy(7, level 5000, -60000, -105000)` returns frame 07NC45, as the test expects |
| BaseMapFrameExamples.FromLevelXy5000_07NC44 | gsjp/src/base_map_frame.rs:794-826 | `from_level_xy(7, level 5000, -64000, -105000)` returns frame 07NC44, as the test expects |
| BaseMapFrameExamples.FromLevelXy5000_07NC55 | gsjp/src/base_map_frame.rs:794-826 | `from_level_xy(7, level 5000, -60000, -108000)` returns frame 07NC55, as the test expects |
| BaseMapFrameExamples.FromLevelXy5000_07NC54 | gsjp/src/base_map_frame.rs:794-826 | `from_level_xy(7, level 5000, -64000, -108000)` returns frame 07NC54, as the test expects |
| BaseMapFrameExamples.FromLevelXy5000_07NC37 | gsjp/src/base_map_frame.rs:794-826 | `from_level_xy(7, level 5000, -52000, -102000)` returns frame 07NC37, as the test expects |
| BaseMapFrameExamples.FromLevelXy2500_07NC001 | gsjp/src/base_map_frame.rs:835-855 | `from_level_xy(7, level 2500, -80000, -91500)` returns frame 07NC001, as the test expects |
| BaseMapFrameExamples.FromLevelXy2500_07NC002 | gsjp/src/base_map_frame.rs:835-855 | `from_level_xy(7, level 2500, -78000, -91500)` returns frame 07NC002, as the test expects |
| BaseMapFrameExamples.FromLevelXy2500_07NC004 | gsjp/src/base_map_frame.rs:835-855 | `from_level_xy(7, level 2500, -78000, -93000)` returns frame 07NC004, as the test expects |
| BaseMapFrameExamples.FromLevelXy2500_07NC003 | gsjp/src/base_map_frame.rs:835-855 | `from_level_xy(7, level 2500, -80000, -93000)` returns frame 07NC003, as the test expects |
| BaseMapFrameExamples.FromLevelXy1000_07NC000A | gsjp/src/base_map_frame.rs:864-886 | `from_level_xy(7, level 1000, -80000, -90600)` returns frame 07NC000A, as the test expects |
| BaseMapFrameExamples.FromLevelXy1000_07NC000E | gsjp/src/base_map_frame.rs:864-886 | `from_level_xy(7, level 1000, -76800, -90600)` returns frame 07NC000E, as the test expects |
| BaseMapFrameExamples.FromLevelXy1000_07NC004E | gsjp/src/base_map_frame.rs:864-886 | `from_level_xy(7, level 1000, -76800, -93000)` returns frame 07NC004E, as the test expects |
| BaseMapFrameExamples.FromLevelXy1000_07NC004A | gsjp/src/base_map_frame.rs:864-886 | `from_level_xy(7, level 1000, -80000, -93000)` returns frame 07NC004A, as the test expects |
| BaseMapFrameExamples.FromLevelXy1000_07NC002C | gsjp/src/base_map_frame.rs:864-886 | `from_level_xy(7, level 1000, -78400, -91800)` returns frame 07NC002C, as the test expects |
| BaseMapFrameExamples.FromLevelXy500_07NC0000 | gsjp/src/base_map_frame.rs:895-923 | `from_level_xy(7, level 500, -80000, -90300)` returns frame 07NC0000, as the test expects |
| BaseMapFrameExamples.FromLevelXy500_07NC0009 | gsjp/src/base_map_frame.rs:895-923 | `from_level_xy(7, level 500, -76400, -90300)` returns frame 07NC0009, as the test expects |
| BaseMapFrameExamples.FromLevelXy500_07NC0099 | gsjp/src/base_map_frame.rs:895-923 | `from_level_xy(7, level 500, -76400, -93000)` returns frame 07NC0099, as the test expects |
| BaseMapFrameExamples.FromLevelXy500_07NC0090 | gsjp/src/base_map_frame.rs:895-923 | `from_level_xy(7, level 500, -80000, -93000)` returns frame 07NC0090, as the test expects |
| BaseMapFrameExamples.FromLevelXy500_07NC0044 | gsjp/src/base_map_frame.rs:895-923 | `from_level_xy(7, level 500, -78400, -91500)` returns frame 07NC0044, as the test expects |
| BaseMapFrameExamples.FromLevelXy500_07NC0045 | gsjp/src/base_map_frame.rs:895-923 | `from_level_xy(7, level 500, -78000, -91500)` returns frame 07NC0045, as the test expects |
| BaseMapFrameExamples.FromLevelXy500_07NC0055 | gsjp/src/base_map_frame.rs:895-923 | `from_level_xy(7, level 500, -78000, -91800)` returns frame 07NC0055, as the test expects |
| BaseMapFrameExamples.FromLevelXy500_07NC0054 | gsjp/src/base_map_frame.rs:895-923 | `from_level_xy(7, level 500, -78400, -91800)` returns frame 07NC0054, as the test expects |
| BaseMapFrameExamples.SystemTwentyPanics | gsjp/src/base_map_frame.rs:127-184 | system 20 is in the range of a `u8` but not of the pattern: as written, level 5000 reports the error and level 2500 panics at the point (0, 0) |

The `MeshExamples.RootAnchor*`/`GsjpAnchor*` and `BaseMapFrameExamples.Frame<level>_<code>` lemmas are helpers: they fix the edges of one test code, or the classification and extent of one test frame, for the example lemmas above.
The `MeshStep.Decimal<dir>Unfold` and `MeshStep.Quadrant<dir>Unfold` lemmas are helpers too: each unfolds one branch of the matching move for the `*Moves` proofs, and the `*Stay`, `*Carry` and `*Moves` rows above carry what is proved about it.

## Left out

- `from_coordinate` (every mesh level) and `contains_coordinate`: these compute a cell from an `f64` latitude and longitude, with casts and `floor`. They are not modelled. The moves are specified instead by geometric displacement (`MeshStep.Moved`): the result is the valid cell one cell size away.
- Mesh codes are character sequences (`string` is `seq<char>`), where the source's `code.len()` counts UTF-8 bytes and `&code[0..2]`, `&code[0..4]`, `&code[0..8]` cut by byte. The byte length and the panic when a slice falls inside a multi-byte character are not modelled: `"3é2"` is four bytes, so the source passes its length check and then panics on `&code[0..2]`, while `Mesh1.NewMesh1` rejects it as three characters long. Every code the source accepts is ASCII, so the accepted codes are the same.
- Edges, corners and centre as `f64` degrees: the model uses exact integer units of 1/8″ (`MeshCode.South`, `MeshCode.West`) and an exact real centre. Rounding of `/ 1.5` and of the sums is not modelled.
- Duplicate per-level code is modelled once. The source repeats the same carry logic in each `meshN.rs`. The model writes it once for levels 2–3 (`MeshStep.Decimal*`) and once for levels 4–6 (`MeshStep.Quadrant*`), indexed by the level.
- The gsjp copies of levels 1, 3 and 4 (`gsjp/src/mesh/mesh1.rs`, `mesh3.rs`, `mesh4.rs`) are not part of this model. The rules of the root crate's files, with `GsjpBounds`, stand in for them.
- Trait signatures: the trait in `src/lib.rs` declares `north_mesh(&self) -> Self`, while the implementations return `Result<Self, GSJPError>`. The model follows the implementations, with `Option` for the result. The diagonal defaults compose two moves; a failure of the first stops.
- `is_neighboring`, under this name, is not among the files modelled. Adjacency is modelled as `is_joining` of `src/lib.rs` (`MeshAdjacency.IsJoining`), comparing the moves' results with the other mesh.
- The `mesh4_is_neighbor_ok` test of `src/mesh4.rs` builds its meshes from level-3 values. It is not restated.
- `validate_mesh1_code`'s bounds are computed from `f64` constants by `as u8` casts and `to_string()`. The model takes the resulting field bounds as the constants `RootCrateBounds` and `GsjpBounds`.
- `MeshCode.Validate`, `MeshCode.ValidateAsWritten`, `MeshCode.New`: these use the digit-checking level-1 validator at the bottom of every level, which is the corrected half of the first Finding. Every source level inherits the string comparison of `validate_mesh1_code`, so the source's `Mesh2::new("3:2200")` succeeds where `MeshCode.New` returns `None`, and the same holds at levels 3–6. `MeshCode.ValidateChainAsWritten` is the chain as written, and `MeshCode.ValidateIsChainOnDigits` proves that the two agree on every code whose first four characters are digits.
- `BaseMapFrames.FromLevelXy`, `BaseMapFrames.FromLevelXyAsWritten`: `from_level_xy` takes `f64` coordinates. The model computes over exact real numbers. Floating-point rounding of the offsets and quotients, at frame boundaries, is not modelled.
- `BaseMapFrames.Times`: models `(v / unit) as u8` only where the quotient is below 256, as it is for every point that passes the range check. The saturation of `as u8` is not modelled.
- `BaseMapFrames.FrameExtent.Width`, `BaseMapFrames.FrameExtent.Height`: the `i32` subtraction `right - left` panics on overflow in debug builds. The model requires the difference to fit in `i32` rather than modelling that panic.
- `BaseMapFrames.BaseMapFrame.Extent`: the `assert!`s of the `level_*_left_top` helpers are modelled as a precondition (`Decodable`). `BaseMapFrames.AcceptedDecodable` proves that every frame `try_from` accepts meets it. The panic on a hand-built frame that does not is left out.
- The `regex` crate: each `LEVEL_*_PATTERN` is written as per-position character classes (`BaseMapFrames.Matches`). The patterns are anchored and contain only single-character classes.
- `left_frame` is `todo!()` at every level in the source. It is left out.
- `FrameExtent::new` and its getters `left`/`bottom`/`right`/`top` are the datatype's constructor and fields.
- `meshshp` (shapefile writer, I/O) is left out.

## Findings

| source | as written | input that shows it | evidently intended | confidence | as-written member | corrected member |
|---|---|---|---|---|---|---|
| src/mesh1.rs:116-131 | `validate_mesh1_code` compares each two-character field with its bounds as strings and never checks that the characters are digits | `"3:22"`: `"3:"` is not below `"30"` (`':'` > `'0'`) nor above `"68"`, so it is accepted; the `parse` in `south()` or `north_mesh()` then fails | accept only four decimal digits whose fields lie within the bounds | not executed | Mesh1.AsWrittenAcceptsNonDigitField | Mesh1.ValidMesh1CodeIsAsWrittenOnDigits |
| src/mesh2.rs:133-150 | every `validate_mesh<k>_code` (levels 2–6) validates its prefix down to `validate_mesh1_code`, so it inherits the missing digit check | `"3:2200"` is accepted at level 2 because `"3:22"` passes the level-1 string comparisons, and `Mesh2::new` succeeds on it | accept only codes whose level-1 fields are decimal digits within the bounds | not executed | MeshCode.AsWrittenChainAcceptsNonDigitField | MeshCode.ValidateIsChainOnDigits |
| gsjp/src/base_map_frame.rs:183 | `from_level_xy` returns `try_from`'s error at levels 50000 and 5000 but `unwrap`s it at levels 2500, 1000 and 500 | system 20 at level 2500 and the point (0, 0): the code `"20JE903"` matches no pattern (`[0-1]` in the first place), so the call panics; at level 5000 it returns `Err(InvalidFrameCode)` | return `Err(InvalidFrameCode)` at every level | not executed | BaseMapFrames.AsWrittenPanicsOnSystem | BaseMapFrames.FromLevelXyRejectsSystem |
