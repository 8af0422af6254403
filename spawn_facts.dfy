/**
 * What spawning a tile does (src/board/mod.rs, `add_tile`) and when the game
 * is over (`can_move`, `has_possible_moves`).
 */
module SpawnFacts {
  import opened Wrappers
  import opened Tiles
  import opened Geometry
  import opened Slides
  import opened Tallies
  import opened Boards
  import opened MoveFacts

  /** The empty cells and the non-empty cells together are all the cells. */
  lemma {:induction false} EmptyTilesCount(tiles: seq<Tile>)
    ensures |EmptyTiles(tiles)| + Count(tiles) == |tiles|
  {
    if tiles != [] {
      EmptyTilesCount(tiles[..|tiles| - 1]);
    }
  }

  /** A board without empty cells has no empty-cell indices. */
  lemma {:induction false} FullHasNoEmptyTiles(tiles: seq<Tile>)
    requires forall j :: 0 <= j < |tiles| ==> tiles[j] != Empty
    ensures EmptyTiles(tiles) == []
  {
    if tiles != [] {
      FullHasNoEmptyTiles(tiles[..|tiles| - 1]);
    }
  }

  /** Spawning fails exactly on a full board. Otherwise exactly one cell that was
      empty now holds a settled tile of rank 1 (rank 2 when high); every other
      cell and the score are unchanged, and one empty cell fewer remains. */
  lemma AddTileEffect(s: Snapshot, pick: nat, high: bool)
    ensures AddTileSpec(s, pick, high).None? <==> forall j :: 0 <= j < |s.tiles| ==> s.tiles[j] != Empty
    ensures AddTileSpec(s, pick, high).Some? ==>
              var r := AddTileSpec(s, pick, high).value;
              && r.score == s.score
              && (exists j :: 0 <= j < |s.tiles| && s.tiles[j] == Empty
                             && r.tiles == s.tiles[j := Occupied(if high then 2 else 1)])
              && |EmptyTiles(r.tiles)| + 1 == |EmptyTiles(s.tiles)|
              && (NoMerged(s.tiles) ==> NoMerged(r.tiles))
  {
    var empty := EmptyTiles(s.tiles);
    if |empty| > 0 {
      var j := empty[pick % |empty|];
      var t := Occupied(if high then 2 else 1);
      var after := s.tiles[j := t];
      SumOverUpdate(s.tiles, j, t, Present);
      EmptyTilesCount(s.tiles);
      EmptyTilesCount(after);
    }
  }

  /** Every empty cell can receive the spawned tile: some pick selects it. */
  lemma AddTileCanChooseAny(s: Snapshot, j: nat, high: bool)
    requires j < |s.tiles| && s.tiles[j] == Empty
    ensures exists pick: nat :: pick < |EmptyTiles(s.tiles)|
              && AddTileSpec(s, pick, high) == Some(Snapshot(s.tiles[j := Occupied(if high then 2 else 1)], s.score))
  {
    var empty := EmptyTiles(s.tiles);
    var pick :| 0 <= pick < |empty| && empty[pick] == j;
    assert pick % |empty| == pick;
    assert AddTileSpec(s, pick, high) == Some(Snapshot(s.tiles[j := Occupied(if high then 2 else 1)], s.score));
  }

  /** The board after spawning once for every pair of picks and highs, in turn. */
  function AddTiles(s: Snapshot, picks: seq<nat>, highs: seq<bool>): (r: Option<Snapshot>)
    requires |picks| == |highs|
    decreases |picks|
  {
    if picks == [] then Some(s)
    else
      match AddTileSpec(s, picks[0], highs[0])
      case None => None
      case Some(next) => AddTiles(next, picks[1..], highs[1..])
  }

  /** As many spawns as there are empty cells all succeed, whatever is picked;
      each removes one empty cell and none changes the score. */
  lemma {:induction false} AddTilesCount(s: Snapshot, picks: seq<nat>, highs: seq<bool>)
    requires |picks| == |highs| <= |EmptyTiles(s.tiles)|
    ensures AddTiles(s, picks, highs).Some?
    ensures |EmptyTiles(AddTiles(s, picks, highs).value.tiles)| + |picks| == |EmptyTiles(s.tiles)|
    ensures AddTiles(s, picks, highs).value.score == s.score
    ensures |AddTiles(s, picks, highs).value.tiles| == |s.tiles|
    decreases |picks|
  {
    if picks != [] {
      AddTileEffect(s, picks[0], highs[0]);
      var next := AddTileSpec(s, picks[0], highs[0]).value;
      assert |EmptyTiles(next.tiles)| + 1 == |EmptyTiles(s.tiles)|;
      AddTilesCount(next, picks[1..], highs[1..]);
      assert AddTiles(s, picks, highs) == AddTiles(next, picks[1..], highs[1..]);
    }
  }

  /** Sixteen spawns fill a new board, the score staying 0, and a seventeenth
      spawn finds no empty cell. */
  lemma NewBoardFills(s: Snapshot, picks: seq<nat>, highs: seq<bool>, pick: nat, high: bool)
    requires |s.tiles| == LENGTH && s.score == 0
    requires forall j :: 0 <= j < LENGTH ==> s.tiles[j] == Empty
    requires |picks| == |highs| == LENGTH
    ensures AddTiles(s, picks, highs).Some?
    ensures var full := AddTiles(s, picks, highs).value;
            && full.score == 0
            && EmptyTiles(full.tiles) == []
            && AddTileSpec(full, pick, high).None?
  {
    SumOverZero(s.tiles, Present);
    EmptyTilesCount(s.tiles);
    AddTilesCount(s, picks, highs);
  }

  // ---- The end of the game ----

  /** On a board without empty cells, a move in direction m is possible exactly
      when some tile has a neighbour in that direction that it can merge with. */
  lemma FullBoardMoves(s: Snapshot, m: Direction)
    requires |s.tiles| == LENGTH
    requires forall j :: 0 <= j < LENGTH ==> s.tiles[j] != Empty
    ensures Move(s, m).Some? <==>
              exists i :: 0 <= i < LENGTH && SpaceTo(m, i).Some? && CanMerge(s.tiles[i], s.tiles[SpaceTo(m, i).value])
  {
    MoveNoneIff(s, m);
  }

  /** On a full board, a merge in direction d means a pair of equal neighbours in
      a row or in a column. */
  lemma FullBoardPairOf(s: Snapshot, d: Direction)
    requires |s.tiles| == LENGTH && NoMerged(s.tiles)
    requires forall j :: 0 <= j < LENGTH ==> s.tiles[j] != Empty
    requires Move(s, d).Some?
    ensures || (exists i :: 0 <= i < LENGTH && i % SIZE < SIZE - 1 && s.tiles[i] == s.tiles[i + 1])
            || (exists i :: 0 <= i < LENGTH - SIZE && s.tiles[i] == s.tiles[i + SIZE])
  {
    FullBoardMoves(s, d);
    var i :| 0 <= i < LENGTH && SpaceTo(d, i).Some? && CanMerge(s.tiles[i], s.tiles[SpaceTo(d, i).value]);
    var n := SpaceTo(d, i).value;
    match d
    case Up => assert s.tiles[n] == s.tiles[n + SIZE];
    case Down => assert s.tiles[i] == s.tiles[i + SIZE];
    case Left => assert s.tiles[n] == s.tiles[n + 1];
    case Right => assert s.tiles[i] == s.tiles[i + 1];
  }

  /** On a full board, equal neighbours in a row let the board move Right and
      equal neighbours in a column let it move Down. */
  lemma PairMoves(s: Snapshot, i: nat)
    requires |s.tiles| == LENGTH && NoMerged(s.tiles) && i < LENGTH
    requires forall j :: 0 <= j < LENGTH ==> s.tiles[j] != Empty
    ensures i % SIZE < SIZE - 1 && s.tiles[i] == s.tiles[i + 1] ==> Move(s, Right).Some?
    ensures i < LENGTH - SIZE && s.tiles[i] == s.tiles[i + SIZE] ==> Move(s, Down).Some?
  {
    FullBoardMoves(s, Right);
    FullBoardMoves(s, Down);
    if i % SIZE < SIZE - 1 {
      assert SpaceTo(Right, i) == Some(i + 1);
    }
    if i < LENGTH - SIZE {
      assert SpaceTo(Down, i) == Some(i + SIZE);
    }
  }

  /** On a full board, some direction moves exactly when two neighbouring cells
      in a row or a column hold equal tiles. */
  lemma FullBoardPairs(s: Snapshot)
    requires |s.tiles| == LENGTH && NoMerged(s.tiles)
    requires forall j :: 0 <= j < LENGTH ==> s.tiles[j] != Empty
    ensures (exists d :: Move(s, d).Some?) <==>
              || (exists i :: 0 <= i < LENGTH && i % SIZE < SIZE - 1 && s.tiles[i] == s.tiles[i + 1])
              || (exists i :: 0 <= i < LENGTH - SIZE && s.tiles[i] == s.tiles[i + SIZE])
  {
    if exists d :: Move(s, d).Some? {
      var d :| Move(s, d).Some?;
      FullBoardPairOf(s, d);
    }
    if exists i :: 0 <= i < LENGTH && i % SIZE < SIZE - 1 && s.tiles[i] == s.tiles[i + 1] {
      var i :| 0 <= i < LENGTH && i % SIZE < SIZE - 1 && s.tiles[i] == s.tiles[i + 1];
      PairMoves(s, i);
    }
    if exists i :: 0 <= i < LENGTH - SIZE && s.tiles[i] == s.tiles[i + SIZE] {
      var i :| 0 <= i < LENGTH - SIZE && s.tiles[i] == s.tiles[i + SIZE];
      PairMoves(s, i);
    }
  }

  /** The game is over (no empty cell and no direction that moves) exactly when
      the board is full and no two neighbouring cells, in a row or a column,
      hold equal tiles. */
  lemma GameOverIff(s: Snapshot)
    requires |s.tiles| == LENGTH && NoMerged(s.tiles)
    ensures !(|EmptyTiles(s.tiles)| > 0 || exists d :: Move(s, d).Some?) <==>
              && (forall j :: 0 <= j < LENGTH ==> s.tiles[j] != Empty)
              && (forall i :: 0 <= i < LENGTH && i % SIZE < SIZE - 1 ==> s.tiles[i] != s.tiles[i + 1])
              && (forall i :: 0 <= i < LENGTH - SIZE ==> s.tiles[i] != s.tiles[i + SIZE])
  {
    var e := EmptyTiles(s.tiles);
    if forall j :: 0 <= j < LENGTH ==> s.tiles[j] != Empty {
      FullBoardPairs(s);
      FullHasNoEmptyTiles(s.tiles);
    } else {
      var j :| 0 <= j < LENGTH && s.tiles[j] == Empty;
      assert j in e;
    }
  }
}
