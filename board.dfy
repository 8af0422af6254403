/**
 * The board and its two public transformations (src/board/mod.rs): a move in
 * one direction, which slides and merges every tile, and the spawn of a new
 * tile on an empty cell.
 *
 * `Board` is the mutable object of the source; `Snapshot` is its value (the
 * pair that `==` compares on boards) and is what the specification functions
 * below take and return.
 */
module Boards {
  import opened Wrappers
  import opened Tiles
  import opened Geometry
  import opened Slides

  datatype Snapshot = Snapshot(tiles: seq<Tile>, score: nat)

  /** No cell holds a just-merged tile: the state every board a caller sees is in. */
  predicate NoMerged(tiles: seq<Tile>)
  {
    forall j :: 0 <= j < |tiles| ==> !tiles[j].Merged?
  }

  // ---- One tile: the effect of `move_tile` ----

  datatype StepResult = StepResult(moved: bool, board: Snapshot)

  /** Slides the tile on cell i: the cell is vacated, the tile lands where the
      slide ends, and the slide's score is added. Nothing happens when the slide
      is None. */
  function Step(s: Snapshot, m: Direction, i: nat): (r: StepResult)
    requires |s.tiles| == LENGTH && i < LENGTH
    ensures |r.board.tiles| == LENGTH && r.board.score >= s.score
    ensures !r.moved ==> r.board.score == s.score
    ensures r.moved ==> r.board.tiles[i] == Empty && s.tiles[i] != Empty
  {
    match Slide(s.tiles, m, i)
    case None => StepResult(false, s)
    case Some(sr) => StepResult(true, Snapshot(s.tiles[i := Empty][sr.position := sr.tile], s.score + sr.score))
  }

  // ---- A whole move: `move_board` ----

  /** The order in which a move visits the cells: ascending for Up and Left,
      descending for Down and Right, so that the cells nearer the destination
      edge come first. */
  function ScanOrder(m: Direction): (order: seq<nat>)
    ensures |order| == LENGTH
    ensures forall k :: 0 <= k < LENGTH ==> order[k] < LENGTH
    ensures forall k, l :: 0 <= k < l < LENGTH ==> if m == Up || m == Left then order[k] < order[l] else order[k] > order[l]
  {
    if m == Up || m == Left then seq(LENGTH, k => k) else seq(LENGTH, k => LENGTH - 1 - k)
  }

  /** The board after sliding the cells of order one by one, with the result of
      every slide, in the order they were made. */
  datatype Pass = Pass(board: Snapshot, moves: seq<bool>)

  function Scan(s: Snapshot, m: Direction, order: seq<nat>): (p: Pass)
    requires |s.tiles| == LENGTH
    requires forall k :: 0 <= k < |order| ==> order[k] < LENGTH
    ensures |p.board.tiles| == LENGTH && |p.moves| == |order|
    ensures p.board.score >= s.score
    decreases |order|
  {
    if order == [] then Pass(s, [])
    else
      var p := Scan(s, m, order[..|order| - 1]);
      var st := Step(p.board, m, order[|order| - 1]);
      Pass(st.board, p.moves + [st.moved])
  }

  /** Scanning one more cell of order is one more step after the scan so far. */
  lemma ScanExtend(s: Snapshot, m: Direction, order: seq<nat>, k: nat)
    requires |s.tiles| == LENGTH && k < |order|
    requires forall j :: 0 <= j < |order| ==> order[j] < LENGTH
    ensures var p := Scan(s, m, order[..k]);
            var st := Step(p.board, m, order[k]);
            Scan(s, m, order[..k + 1]) == Pass(st.board, p.moves + [st.moved])
  {
    assert order[..k + 1][..k] == order[..k];
  }

  /** The scan over the first k cells of the order of direction m. */
  function ScanUpTo(s: Snapshot, m: Direction, k: nat): (p: Pass)
    requires |s.tiles| == LENGTH && k <= LENGTH
  {
    Scan(s, m, ScanOrder(m)[..k])
  }

  /** The scan of the first k + 1 cells is the scan of the first k cells
      followed by the step at cell k of the order, its result appended. */
  lemma ScanStep(s: Snapshot, m: Direction, k: nat)
    requires |s.tiles| == LENGTH && k < LENGTH
    ensures |ScanUpTo(s, m, k).board.tiles| == LENGTH
    ensures var p := ScanUpTo(s, m, k); var st := Step(p.board, m, ScanOrder(m)[k]);
            ScanUpTo(s, m, k + 1) == Pass(st.board, p.moves + [st.moved])
  {
    ScanExtend(s, m, ScanOrder(m), k);
  }

  /** The scan of all the cells is the scan in the whole order. */
  lemma ScanUpToAll(s: Snapshot, m: Direction)
    requires |s.tiles| == LENGTH
    ensures ScanUpTo(s, m, LENGTH) == Scan(s, m, ScanOrder(m))
  {
    assert ScanOrder(m)[..LENGTH] == ScanOrder(m);
  }

  /** Settles every just-merged tile; the score is kept. (`Board::finalize`) */
  function FinalizeBoard(s: Snapshot): (r: Snapshot)
    ensures |r.tiles| == |s.tiles| && r.score == s.score
    ensures NoMerged(r.tiles)
    ensures forall j :: 0 <= j < |s.tiles| ==>
              (r.tiles[j].Empty? <==> s.tiles[j].Empty?) && (!s.tiles[j].Empty? ==> r.tiles[j].rank == s.tiles[j].rank)
    ensures NoMerged(s.tiles) ==> r == s
  {
    Snapshot(seq(|s.tiles|, j requires 0 <= j < |s.tiles| => Finalize(s.tiles[j])), s.score)
  }

  /** The board after moving in direction m, or None when no tile moved. */
  function Move(s: Snapshot, m: Direction): (r: Option<Snapshot>)
    requires |s.tiles| == LENGTH
    ensures r.Some? ==> |r.value.tiles| == LENGTH && NoMerged(r.value.tiles)
  {
    var pass := Scan(s, m, ScanOrder(m));
    if true in pass.moves then Some(FinalizeBoard(pass.board)) else None
  }

  // ---- Spawning: `add_tile` ----

  /** The indices of the empty cells, in ascending order. */
  function EmptyTiles(tiles: seq<Tile>): (r: seq<nat>)
    ensures forall k :: 0 <= k < |r| ==> r[k] < |tiles| && tiles[r[k]] == Empty
    ensures forall j :: 0 <= j < |tiles| && tiles[j] == Empty ==> j in r
    ensures forall k, l :: 0 <= k < l < |r| ==> r[k] < r[l]
  {
    if tiles == [] then []
    else
      var rest := EmptyTiles(tiles[..|tiles| - 1]);
      if tiles[|tiles| - 1] == Empty then rest + [|tiles| - 1] else rest
  }

  /** The board with a tile of rank 1 (rank 2 when high) on the empty cell that
      pick selects, or None when no cell is empty. */
  function AddTileSpec(s: Snapshot, pick: nat, high: bool): (r: Option<Snapshot>)
    ensures r.None? <==> EmptyTiles(s.tiles) == []
    ensures r.Some? ==> r.value.score == s.score && |r.value.tiles| == |s.tiles|
  {
    var empty := EmptyTiles(s.tiles);
    if |empty| > 0 then
      Some(Snapshot(s.tiles[empty[pick % |empty|] := Occupied(if high then 2 else 1)], s.score))
    else None
  }

  class Board {
    var tiles: seq<Tile>
    var score: nat

    ghost predicate Valid()
      reads this
    {
      |tiles| == LENGTH
    }

    function Value(): (v: Snapshot)
      reads this
    {
      Snapshot(tiles, score)
    }

    /** `Board::new`: all cells empty, score 0. */
    constructor ()
      ensures Valid() && score == 0
      ensures forall j :: 0 <= j < LENGTH ==> tiles[j] == Empty
    {
      tiles := seq(LENGTH, _ => Empty);
      score := 0;
    }

    /** The literal `Board { tiles, score }`; also how a board is cloned. */
    constructor Of(tiles: seq<Tile>, score: nat)
      ensures this.tiles == tiles && this.score == score
    {
      this.tiles := tiles;
      this.score := score;
    }

    /** Slides the tile on cell i in place; true when it moved. */
    method MoveTile(m: Direction, i: nat) returns (moved: bool)
      requires Valid() && i < LENGTH
      modifies this
      ensures Valid()
      ensures moved == Step(old(Value()), m, i).moved && Value() == Step(old(Value()), m, i).board
    {
      var r := Slide(tiles, m, i);
      if r.Some? {
        tiles := tiles[i := Empty];
        tiles := tiles[r.value.position := r.value.tile];
        score := score + r.value.score;
        moved := true;
      } else {
        moved := false;
      }
    }

    /** Slides the tile on every cell, in the order of `ScanOrder(m)`, in place;
        the result of every slide, in the order they were made. */
    method MoveAll(m: Direction) returns (moves: seq<bool>)
      requires Valid()
      modifies this
      ensures Valid()
      ensures Scan(old(Value()), m, ScanOrder(m)) == Pass(Value(), moves)
    {
      ghost var start := Value();
      var order := ScanOrder(m);
      moves := [];
      var k := 0;
      while k < LENGTH
        invariant k <= LENGTH && Valid()
        invariant ScanUpTo(start, m, k) == Pass(Value(), moves)
      {
        ScanStep(start, m, k);
        var moved := MoveTile(m, order[k]);
        moves := moves + [moved];
        k := k + 1;
      }
      ScanUpToAll(start, m);
    }

    /** Moves every tile in direction m on a copy of this board, which is left
        as it was; None when no tile moved. */
    method MoveBoard(m: Direction) returns (r: Option<Board>)
      requires Valid()
      ensures r.None? <==> Move(Value(), m).None?
      ensures r.Some? ==> fresh(r.value) && r.value.Valid() && r.value.Value() == Move(Value(), m).value
    {
      var board := new Board.Of(tiles, score);
      var moves := board.MoveAll(m);
      var didMove := true in moves;
      if didMove {
        var done := FinalizeBoard(board.Value());
        var result := new Board.Of(done.tiles, done.score);
        r := Some(result);
      } else {
        r := None;
      }
    }

    /** Places a rank-1 tile (rank-2 when high) on the empty cell that pick
        selects, on a copy of this board; None when the board is full. */
    method AddTile(pick: nat, high: bool) returns (r: Option<Board>)
      requires Valid()
      ensures r.None? <==> AddTileSpec(Value(), pick, high).None?
      ensures r.Some? ==> fresh(r.value) && r.value.Valid() && r.value.Value() == AddTileSpec(Value(), pick, high).value
    {
      var empty := EmptyTiles(tiles);
      var count := |empty|;
      if count > 0 {
        var board := new Board.Of(tiles, score);
        var selected := pick % count;
        var rank: nat := if high then 2 else 1;
        board.tiles := board.tiles[empty[selected] := Occupied(rank)];
        r := Some(board);
      } else {
        r := None;
      }
    }

    /** Whether a move in direction m would change the board. */
    method CanMove(m: Direction) returns (b: bool)
      requires Valid()
      ensures b <==> Move(Value(), m).Some?
    {
      var r := MoveBoard(m);
      b := r.Some?;
    }

    /** Whether the game can go on: some cell is empty or some direction moves. */
    method HasPossibleMoves() returns (b: bool)
      requires Valid()
      ensures b <==> |EmptyTiles(tiles)| > 0 || exists d :: Move(Value(), d).Some?
    {
      if |EmptyTiles(tiles)| > 0 {
        return true;
      }
      var up := CanMove(Up);
      var down := CanMove(Down);
      var left := CanMove(Left);
      var right := CanMove(Right);
      b := up || down || left || right;
    }
  }
}
