# Move engine of a 2048-style puzzle, modelled and proved in Dafny

This project models the board engine of a terminal 2048-style game written
in Rust (`src/board/mod.rs` and `src/board/tile.rs`). The board is a
row-major vector of 16 tiles on a 4x4 grid, plus a score. The engine has two
public transformations:

- `move_board` slides every tile toward one edge. Each tile walks over empty
  cells and merges with the first equal tile it meets. A merge adds
  `2^(new rank)` to the score. The move is rejected (`None`) when no tile moved.
- `add_tile` puts a tile of rank 1 or 2 on one empty cell, or returns `None`
  on a full board.

It also has helpers:

- `slide`, `slide_next` and `tile_to` work out where one tile lands.
- `space_to`, `to_row_col` and `from_row_col` handle the index arithmetic.
- `Tile` gives the rank step, the face value and the display letter.

## Layout

| file | module | what it holds |
|---|---|---|
| `wrappers.dfy` | `Wrappers` | `Option` |
| `tile.dfy` | `Tiles` | `Tile`, `Next`, `Score`, `CanMerge`, `Finalize`, `Glyph` |
| `geometry.dfy` | `Geometry` | `Direction`, `SIZE`, `LENGTH`, `ToRowCol`, `FromRowCol`, `SpaceTo`, and `Ray` (the cells a tile passes over) |
| `slide.dfy` | `Slides` | `TileTo`, `SlideNext`, `Slide`, and their closed form |
| `tally.dfy` | `Tallies` | sums over the cells: tile count, face value, pending merges |
| `board.dfy` | `Boards` | the `Board` class and its value type `Snapshot` |
| `move_facts.dfy` | `MoveFacts` | what one slide does and what a whole move keeps |
| `spawn_facts.dfy` | `SpawnFacts` | what spawning does, and when the game is over |
| `lines.dfy` | `Lines` | an independent line-at-a-time reference for a move |
| `line_moves.dfy` | `LineMoves` | a proof that the engine matches that reference |
| `board_tests.dfy` | `BoardTests` | the boards of `src/board/tests.rs`, proved move by move |

Pure parts of the source are functions over `seq<Tile>`:

- `slide_next` (recursive), `slide`, `tile_to`, `space_to`;
- the row/column conversions;
- the `finalize` map.

The parts that change state keep their imperative form:

- `Boards.Board` is a class with fields `tiles` and `score`.
- `MoveTile` updates two cells and the score in place, as `move_tile` does.
- `move_board` maps `move_tile` over `0..SIZE*SIZE`, or over its reverse, and
  collects the results into a vector (`mod.rs:65-71`). `MoveAll` writes that
  iteration as a `while` loop over the scan order. Like the source, it
  collects every result before asking whether any tile moved.
- `MoveBoard` and `AddTile` work on a fresh copy and leave `this` alone.

Each method is proved against a specification function on `Snapshot`:

| method | specification function |
|---|---|
| `MoveTile` | `Step` |
| `MoveAll` | `Scan` |
| `MoveBoard` | `Move` |
| `AddTile` | `AddTileSpec` |

The properties are proved about those functions.

### Reconciling the two revisions of the source

`src/board/mod.rs` calls `Tile::can_merge` and `Tile::finalize`. A move
finalizes every tile before it returns, which needs a transient "just merged"
tile state. `src/board/tile.rs` defines none of these. The model therefore
adds the following:

- A third variant, `Tile.Merged(rank)`.
- `Next(Occupied(n)) == Merged(n + 1)`. For `Empty`, `Next` is the identity,
  as `tile.rs` says.
  - `Tiles.NextDoublesScore` shows that `Finalize(Next(Occupied(n)))` is
    `Occupied(n + 1)`. This is exactly what `tile.rs:15` returns.
- `CanMerge(a, b)` holds only for two equal `Occupied` tiles. So a
  just-merged tile never merges again in the same move.
- `Finalize(Merged(r)) == Occupied(r)`.

The `up_and_down` test needs this. Column 2 (`B, A, A, B`) moved up must give
`B, B, B, o`, with the last `B` stopping beside the fresh `B`.
`BoardTests.MergeUp` proves that board.

Some items are used by `src/board/tests.rs` but are not defined in
`mod.rs`. The model defines them the way the tests use them:

- `LENGTH` is 16.
- `empty_tiles` is `Boards.EmptyTiles`: the ascending indices of the empty
  cells, computed as `add_tile` computes them.
- `can_move(d)` is `Boards.Board.CanMove`, which holds exactly when
  `move_board(d)` is `Some`.
- `has_possible_moves` is `Boards.Board.HasPossibleMoves`, which holds when
  some cell is empty or some direction moves.

The score is added per merge inside `move_tile` (`mod.rs:106`). `finalize`
only maps the tiles and copies the score. Adding the merge values in one final
pass instead would give the same total: `MoveFacts.MoveConserves` shows that
the score gained equals the value of the just-merged tiles on the board when
the pass ends.

### The line reference

`Lines` describes a move one line at a time, independently of the engine:

1. `Pack` drops the empty cells of the line.
2. `Combine` merges pairs greedily from the destination edge.
3. `Settle` finalizes the tiles and pads the line back to four cells.
4. `Gain` is the score the line earns.

`LineMoves.MoveByLines` proves the engine equal to this reference:

- Every row (for Left and Right) or column (for Up and Down) of the moved board
  is `Settle` of the old one.
- The score grows by the lines' total `Gain`.
- The move is rejected exactly when every line is already settled.

The test boards in `BoardTests` are proved through this theorem.

## Model

| member | source | states |
|---|---|---|
| Tiles.Next | src/board/tile.rs:13-18 | a settled tile of rank n steps to the just-merged tile of rank n + 1; an empty (or already merged) tile is returned unchanged |
| Tiles.Score | src/board/tile.rs:20-25 | the value is 0 exactly for an empty cell, and 2^rank for any tile |
| Tiles.Finalize | src/board/mod.rs:52-57 | the result is never a merge marker, keeps emptiness and rank, and leaves non-merged tiles as they are |
| Tiles.Glyph | src/board/tile.rs:31-35 | ' ' for an empty cell, the rank-th capital letter for ranks 1 to 27, '?' for rank 0 or above 27 |
| Tiles.GlyphLetters | src/board/tile.rs:10-34 | rank 1 shows as 'A', 2 as 'B', 3 as 'C', 4 as 'D', 11 as 'K', 27 as '['; ranks 0 and 28 show '?'; an empty cell shows ' ' |
| Tiles.GlyphsDistinct | src/board/tile.rs:33 | the letters of ranks 1 to 27 are pairwise distinct and never ' ' or '?' |
| Tiles.NextDoublesScore | src/board/tile.rs:13-25 | the merged tile is worth twice the tile it came from, and settles to Occupied(n + 1) |
| Tiles.NextKeepsOthers | src/board/tile.rs:16 | the rank step leaves every tile that is not settled as it is, with the same score |
| Tiles.CanMerge | src/board/mod.rs:144 | only two settled tiles of the same rank merge, and the merged tile is worth the two tiles together |
| Tiles.MergedNeverMerges | src/board/mod.rs:144 | a just-merged or empty tile merges with nothing, in either role |
| Geometry.ToRowCol | src/board/mod.rs:162-164 | the row and column recombine into i (row * 4 + column), the column is below 4, and for i < 16 so is the row |
| Geometry.FromRowCol | src/board/mod.rs:166-168 | for a column below 4 the index divides back into that row and column; a row and column below 4 give an index below 16 |
| Geometry.RowColRoundTrip | src/board/mod.rs:162-168 | from_row_col(to_row_col(i)) == i, and for i < 16 both parts are below 4 |
| Geometry.FromRowColRoundTrip | src/board/mod.rs:162-168 | a row and column inside the board give an index below 16 that converts back to them |
| Geometry.SpaceTo | src/board/mod.rs:171-182 | None exactly on the edge the direction faces; otherwise the neighbour below 16, in the same column for Up/Down or the same row for Left/Right (no wrap), at index i plus the direction's offset and one step nearer the edge |
| Geometry.Ray | src/board/mod.rs:139-142 | the cells a tile passes over going from i toward the edge: as many as its distance to the edge, each below 16, the k-th at i + (k+1) * offset, all in i's row or column |
| Geometry.RayStart | src/board/mod.rs:140-142 | a cell is not on its own ray; the ray is empty exactly on the edge and otherwise starts at space_to's neighbour |
| Slides.TileTo | src/board/mod.rs:116-118 | None exactly on the edge; otherwise the adjacent index and the tile there |
| Slides.SlideNext | src/board/mod.rs:139-159 | the end cell is below 16; with score 0 the tile is t unchanged and it stops on i or on an empty cell; with a non-zero score it merged with the tile on the end cell (can_merge), becoming next(t) and scoring next(t).score(); the exact end cell is stated by Slides.SlideNextSpec |
| Slides.SlideNextSpec | src/board/mod.rs:139-159 | with k the number of empty cells at the start of the ray, slide_next merges into the next cell when can_merge allows (tile next(t), score next(t).score()), and otherwise stops on the last empty cell reached, or on i, with t and score 0 |
| Slides.Slide | src/board/mod.rs:123-135 | a Some result starts from a non-empty cell and ends on another cell below 16: an empty one with the same tile and score 0, or one the tile merges with, with next(tile) and its score; when it is None is stated by Slides.SlideSpec |
| Slides.SlideSpec | src/board/mod.rs:123-135 | slide is None exactly for an empty cell or a tile blocked by the edge or a tile it cannot merge with; otherwise the tile lands on a different cell on its ray, either an empty one (same tile, score 0) or one it merges with (next tile, its score) |
| Slides.SlidesAlongShape | src/board/mod.rs:129-133 | along a path not containing i, the tile stays exactly when the path is empty or blocked at its first cell, and otherwise lands on a path cell as a plain move or a merge |
| Boards.Step | src/board/mod.rs:102-111 | the board keeps 16 cells and its score does not decrease; without a move the score is unchanged; after a move cell i, which held a tile, is empty; the whole new board is stated by MoveFacts.StepEffect |
| Boards.ScanOrder | src/board/mod.rs:64-69 | 16 indices below 16, strictly ascending for Up and Left and strictly descending for Down and Right (0..16 and its reverse); that each index appears once is stated by MoveFacts.ScanOrderFacts |
| Boards.Scan | src/board/mod.rs:65-71 | the board keeps 16 cells, one result is collected per index visited, and the score does not decrease |
| Boards.ScanStep | src/board/mod.rs:65-71 | the first k + 1 move_tile calls of a move are the first k followed by the call at the k-th index of the order, its result appended |
| Boards.AddTileSpec | src/board/mod.rs:82-99 | None exactly when the board has no empty cell; otherwise the score and the number of cells are kept; which cell changes is stated by SpawnFacts.AddTileEffect |
| Boards.FinalizeBoard | src/board/mod.rs:52-57 | same length and score, no merge marker left, emptiness and ranks kept cell by cell, and a board without markers is left as it is |
| Boards.Move | src/board/mod.rs:74-78 | a successful move returns 16 cells holding no transient merge marker |
| Boards.EmptyTiles | src/board/mod.rs:83-84 | exactly the indices of the empty cells, strictly ascending |
| Boards.ScanExtend | src/board/mod.rs:65-71 | scanning one more index is one more move_tile call after the scan so far, with its result appended |
| Boards.Board.constructor | src/board/mod.rs:45-50 | a new board has 16 empty cells and score 0 |
| Boards.Board.Of | src/board/mod.rs:53-56 | a board holds exactly the tiles and score it is built from |
| Boards.Board.MoveTile | src/board/mod.rs:102-111 | returns whether the slide happened and leaves the board as Step describes: unchanged when slide is None, else cell i emptied, the landing cell set and the score increased |
| Boards.Board.MoveAll | src/board/mod.rs:64-72 | after the loop the board and the collected results are those of sliding every index in scan order, one result per index |
| Boards.Board.MoveBoard | src/board/mod.rs:60-79 | None exactly when Move is None; otherwise a fresh board equal to the moved and finalized copy; this board is not modified |
| Boards.Board.AddTile | src/board/mod.rs:82-99 | None exactly when AddTileSpec is None; otherwise a fresh board equal to AddTileSpec; this board is not modified |
| Boards.Board.CanMove | src/board/tests.rs:167-201 | true exactly when a move in that direction is not rejected |
| Boards.Board.HasPossibleMoves | src/board/tests.rs:203-228 | true exactly when some cell is empty or some direction moves |
| MoveFacts.StepEffect | src/board/mod.rs:102-111 | move_tile reports a move exactly when slide is Some; with None nothing changes; otherwise cell i is Empty, the landing cell holds the slid tile, the score grows by the slide's score and every other cell is unchanged |
| MoveFacts.StepCounts | src/board/mod.rs:102-111 | the score never decreases and the total face value is kept; a plain slide keeps the tile count and a merge lowers it by one; a merge adds one just-merged tile whose value is the score gained |
| MoveFacts.MergedTileStays | src/board/mod.rs:144 | sliding a tile that is not just-merged never changes a just-merged tile |
| MoveFacts.ScanOrderFacts | src/board/mod.rs:64-72 | the scan is ascending for Up/Left and descending for Down/Right, visits each index once, and every cell on a tile's ray is visited before the tile |
| MoveFacts.ScanOrderCovers | src/board/mod.rs:65-71 | every index has its place in the scan |
| MoveFacts.ScanInvariant | src/board/mod.rs:65-71 | after any prefix of the scan, merge markers stand only on visited cells, the score gained equals the markers' value, each marker replaced one tile, and the total face value is kept |
| MoveFacts.MergedTilePersists | src/board/mod.rs:65-75 | a tile merged during a move is unchanged by the rest of the move, so it never merges twice |
| MoveFacts.ScanWithoutEffect | src/board/mod.rs:65-72 | a scan prefix has no true result exactly when every slide it tried was None on the original board, and then the board is unchanged |
| MoveFacts.MoveNoneIff | src/board/mod.rs:60-79 | the move is None exactly when no cell can slide, that is when every tile is blocked; one result is collected per index |
| MoveFacts.MoveConserves | src/board/mod.rs:60-79 | after a move there is no merge marker, no more tiles than before, total face value kept, score not lower and higher exactly when a merge happened; the score gained is the merged tiles' value |
| SpawnFacts.EmptyTilesCount | src/board/mod.rs:83-86 | empty_count plus the number of non-empty cells is the board size |
| SpawnFacts.FullHasNoEmptyTiles | src/board/mod.rs:83-87 | a board without empty cells has no empty indices |
| SpawnFacts.AddTileEffect | src/board/mod.rs:82-99 | None exactly on a full board; otherwise exactly one formerly empty cell becomes Occupied(1) or Occupied(2), the score and all other cells are unchanged, and one empty cell fewer remains |
| SpawnFacts.AddTileCanChooseAny | src/board/mod.rs:89-92 | every empty cell is selected by some random index below empty_count |
| SpawnFacts.AddTilesCount | src/board/mod.rs:82-99 | as many spawns as there are empty cells all succeed, each removing one empty cell and keeping the score |
| SpawnFacts.NewBoardFills | src/board/tests.rs:3-21 | 16 spawns on a new board succeed with the score staying 0, leave no empty cell, and a 17th spawn returns None |
| SpawnFacts.FullBoardMoves | src/board/mod.rs:139-159 | on a full board a direction moves exactly when some tile's neighbour in it can merge with the tile |
| SpawnFacts.FullBoardPairs | src/board/tests.rs:203-228 | on a full board some direction moves exactly when two row or column neighbours are equal |
| SpawnFacts.GameOverIff | src/board/tests.rs:203-228 | has_possible_moves is false exactly when the board is full and no two row or column neighbours are equal |
| Lines.AbsorbAllIsCombine | src/board/mod.rs:139-159 | adding a line's tiles one at a time, each merging with the last placed tile when can_merge allows, is the greedy pairing of its non-empty tiles |
| Lines.CombineSnoc | src/board/mod.rs:143-151 | one more settled tile after a paired line merges with the last tile or is placed after it |
| Lines.LineStateStep | src/board/mod.rs:102-111 | adding cell q changes nothing for an empty cell; otherwise it empties cell q and either replaces the last placed tile by the merged one or places the tile right after the placed tiles |
| Lines.PartialGainStep | src/board/mod.rs:106 | adding cell q earns the merged tile's value when it merges, and nothing otherwise |
| Lines.SettleIsFinalState | src/board/mod.rs:74-75 | once every cell of a line has been added, finalizing the line gives Settle |
| Lines.SettledIsStable | src/board/mod.rs:139-159 | in a line that Settle leaves unchanged, every tile stands after a tile that is different from it |
| LineMoves.RayAlongLine | src/board/mod.rs:171-182 | the cells a tile at cell q of a line passes over are the cells q-1, ..., 0 of the same line |
| LineMoves.SlideOnLine | src/board/mod.rs:123-159 | when a line's first cells hold the placed tiles and the cells up to q are empty, the tile at q merges into the last placed tile when it can, else moves right after them, or stays when it is already there |
| LineMoves.StepOnOwnLine | src/board/mod.rs:102-111 | move_tile on cell q of a line takes the line from its state after q cells to its state after q+1, earning what cell q earns |
| LineMoves.StepOnOtherLine | src/board/mod.rs:102-111 | move_tile leaves every other line unchanged |
| LineMoves.ScanByLines | src/board/mod.rs:64-72 | after k scan steps each line is the reference state after its visited cells, and the score gained is what those cells earned |
| LineMoves.MoveByLines | src/board/mod.rs:60-79 | the move is None exactly when every line is already settled; otherwise every line of the result is Settle of the old line and the score grows by the lines' total Gain |
| LineMoves.SettledLinesBlock | src/board/mod.rs:123-135 | when no line changes on settling, every tile is blocked |
| BoardTests.SimpleMove | src/board/tests.rs:80-93 | the simple_move board moved Right gives the expected board with score 0 |
| BoardTests.SimpleMerge | src/board/tests.rs:95-108 | the simple_merge board moved Right gives o,A,B,D / o,C,B,B / o,o,o,B with score 16 + 4 + 4 |
| BoardTests.TrickyMerge | src/board/tests.rs:110-123 | the tricky_merge board moved Right gives the expected board with score 28 |
| BoardTests.OtherDirection | src/board/tests.rs:125-138 | the same board moved Left gives the expected board with score 28 |
| BoardTests.MergeUp | src/board/tests.rs:140-152 | the up_and_down board moved Up gives the expected board with score 24 |
| BoardTests.MergeDown | src/board/tests.rs:154-164 | the up_and_down board moved Down gives the expected board with score 24 |
| BoardTests.LoneTileCanMove | src/board/tests.rs:167-178 | a lone A in the top left corner can move Down and Right, not Up or Left |
| BoardTests.PairCanMove | src/board/tests.rs:180-189 | a pair A,A in the top row can move Down, Right and Left, not Up |
| BoardTests.FullBoardCanMove | src/board/tests.rs:191-200 | the full board whose only pair is in the top row moves Left and Right, not Down or Up |
| BoardTests.EmptyCellHasMoves | src/board/tests.rs:205-211 | a board with an empty cell has possible moves |
| BoardTests.PairHasMoves | src/board/tests.rs:213-219 | a full board ending in A,A has possible moves |
| BoardTests.GameOver | src/board/tests.rs:221-227 | the full board without equal neighbours has no possible moves |

## Left out

- `src/ui.rs` and `src/main.rs` are not part of this model. They handle terminal raw mode, key reading, drawing and the game loop, all through the termion library.
- The `Display` of `Board` (`src/board/mod.rs:30-42`) is text layout and is not modelled.
- The colour choice of tiles (`src/board/tile.rs:39-61`) and the escape codes around a glyph are not modelled. They are calls into termion. Only the glyph character is modelled, by `Tiles.Glyph`.
- `rand::random` and the `> 0.9` float threshold (`src/board/mod.rs:89-90`) are replaced by two parameters of `AddTile`. `pick` is the random number taken modulo the empty count. `high` says that the float exceeded 0.9 and a rank-2 tile spawns.
- Tiles.Next: the `u8` rank is an unbounded `nat`, so `n + 1` never overflows at 255.
- Tiles.Score: the value is an unbounded `nat`, so `2u32.pow(x)` never overflows for x >= 32.
- Boards.Board.MoveTile: the score is an unbounded `nat`, so the `u32` score never overflows.
- Tiles.Glyph: it gives a just-merged tile the letter of its rank. The source has no glyph for that state, and such a tile never reaches the display.
- Boards.Board.MoveTile and the functions on `Snapshot` require a board of exactly 16 cells and an index below 16. The source assumes a 16-cell vector and would panic on another index. A `Board` whose public `tiles` vector has another length is not modelled.
- The facts about whole moves (`MoveFacts.MoveConserves`, `LineMoves.MoveByLines` and the game-over lemmas) require a board without merge markers. These are exactly the boards a caller of the source can build, since the source's own `Tile` has no such variant.
- The `board_macro` and `tile_macro` tests (`src/board/tests.rs:64-78`) check the test macros, not the engine, and are not transcribed.
