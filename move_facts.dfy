/**
 * What a move does to a board (src/board/mod.rs, `move_tile` and
 * `move_board`): the effect of one slide, what the scan over all cells keeps,
 * and when a move is rejected.
 */
module MoveFacts {
  import opened Wrappers
  import opened Tiles
  import opened Geometry
  import opened Slides
  import opened Tallies
  import opened Boards

  // ---- One slide ----

  /** When the slide is None nothing changes; otherwise cell i is vacated, the
      landing cell receives the slid (or merged) tile, the score grows by the
      slide's score and every other cell is as it was. */
  lemma StepEffect(s: Snapshot, m: Direction, i: nat)
    requires |s.tiles| == LENGTH && i < LENGTH
    ensures var st := Step(s, m, i); var sl := Slide(s.tiles, m, i);
            && st.moved == sl.Some?
            && (!st.moved ==> st.board == s)
            && (st.moved ==>
                  && st.board.tiles[i] == Empty
                  && st.board.tiles[sl.value.position] == sl.value.tile
                  && st.board.score == s.score + sl.value.score
                  && forall j :: 0 <= j < LENGTH && j != i && j != sl.value.position ==> st.board.tiles[j] == s.tiles[j])
  {
    SlideSpec(s.tiles, m, i);
  }

  /** A plain slide keeps the number of tiles, a merge lowers it by one, the score
      never decreases, and the total face value of the tiles is kept. When the
      slid tile is settled, a merge leaves exactly one more just-merged tile and
      adds its value to the score. */
  lemma StepCounts(s: Snapshot, m: Direction, i: nat)
    requires |s.tiles| == LENGTH && i < LENGTH
    ensures var st := Step(s, m, i); var sl := Slide(s.tiles, m, i);
            && st.board.score >= s.score
            && SumOver(st.board.tiles, Score) == SumOver(s.tiles, Score)
            && (st.moved && sl.value.score == 0 ==> Count(st.board.tiles) == Count(s.tiles))
            && (st.moved && sl.value.score > 0 ==> Count(st.board.tiles) + 1 == Count(s.tiles))
            && (!s.tiles[i].Merged? ==>
                  && SumOver(st.board.tiles, MergedMark) == SumOver(s.tiles, MergedMark) + (if st.moved && sl.value.score > 0 then 1 else 0)
                  && SumOver(st.board.tiles, MergedValue) + s.score == SumOver(s.tiles, MergedValue) + st.board.score)
  {
    var sl := Slide(s.tiles, m, i);
    SlideSpec(s.tiles, m, i);
    if sl.Some? {
      var r := sl.value;
      var mid := s.tiles[i := Empty];
      var t := s.tiles[i];
      var o := s.tiles[r.position];
      assert mid[r.position] == o;
      SumOverUpdate(s.tiles, i, Empty, Present);
      SumOverUpdate(mid, r.position, r.tile, Present);
      SumOverUpdate(s.tiles, i, Empty, Score);
      SumOverUpdate(mid, r.position, r.tile, Score);
      SumOverUpdate(s.tiles, i, Empty, MergedMark);
      SumOverUpdate(mid, r.position, r.tile, MergedMark);
      SumOverUpdate(s.tiles, i, Empty, MergedValue);
      SumOverUpdate(mid, r.position, r.tile, MergedValue);
      if r.score > 0 {
        NextDoublesScore(t);
      }
    }
  }

  /** A just-merged tile is never moved or merged again by a later slide of a
      tile that is not itself just merged. */
  lemma MergedTileStays(s: Snapshot, m: Direction, i: nat, j: nat)
    requires |s.tiles| == LENGTH && i < LENGTH && j < LENGTH
    requires !s.tiles[i].Merged? && s.tiles[j].Merged?
    ensures Step(s, m, i).board.tiles[j] == s.tiles[j]
  {
    SlideSpec(s.tiles, m, i);
  }

  // ---- The scan order ----

  /** Whether cell j is among the first k cells of the scan for direction m. */
  predicate Visited(m: Direction, k: nat, j: nat)
  {
    if m == Up || m == Left then j < k else LENGTH - k <= j
  }

  /** The scan runs through the indices ascending for Up and Left and descending
      for Down and Right; it visits every cell exactly once, and every cell
      a tile can travel to lies before that tile's own cell in the scan. */
  lemma ScanOrderFacts(m: Direction, k: nat)
    requires k < LENGTH
    ensures ScanOrder(m)[k] == if m == Up || m == Left then k else LENGTH - 1 - k
    ensures forall j :: 0 <= j < LENGTH ==> (j in ScanOrder(m)[..k] <==> Visited(m, k, j))
    ensures !Visited(m, k, ScanOrder(m)[k]) && Visited(m, k + 1, ScanOrder(m)[k])
    ensures forall n :: n in Ray(m, ScanOrder(m)[k]) ==> Visited(m, k, n)
  {
    var order := ScanOrder(m);
    forall j | 0 <= j < LENGTH
      ensures j in order[..k] <==> Visited(m, k, j)
    {
      var q := if m == Up || m == Left then j else LENGTH - 1 - j;
      assert order[q] == j;
      if Visited(m, k, j) {
        assert order[..k][q] == j;
      }
    }
    var path := Ray(m, order[k]);
    forall n | n in path
      ensures Visited(m, k, n)
    {
      var q :| 0 <= q < |path| && path[q] == n;
      assert n as int == order[k] + (q + 1) * Offset(m);
    }
  }

  /** Every index of the board is visited: it stands at this place in the scan. */
  lemma ScanOrderCovers(m: Direction, i: nat)
    requires i < LENGTH
    ensures var k := if m == Up || m == Left then i else LENGTH - 1 - i;
            k < LENGTH && ScanOrder(m)[k] == i
  {
  }

  // ---- The scan over all cells ----

  /** What every prefix of the scan keeps, starting from board s without
      just-merged tiles: just-merged tiles stand only on visited cells; the
      score gained equals the value of the just-merged tiles; every merge
      removed one tile and left one just-merged tile; the total face value is
      kept. */
  ghost predicate PassInvariant(s: Snapshot, m: Direction, k: nat, p: Snapshot)
    requires |s.tiles| == LENGTH && |p.tiles| == LENGTH
  {
    && (forall j :: 0 <= j < LENGTH && p.tiles[j].Merged? ==> Visited(m, k, j))
    && p.score == s.score + SumOver(p.tiles, MergedValue)
    && Count(s.tiles) == Count(p.tiles) + SumOver(p.tiles, MergedMark)
    && SumOver(p.tiles, Score) == SumOver(s.tiles, Score)
  }

  /** The k-th slide of the scan leaves just-merged tiles on visited cells only. */
  lemma StepMergedVisited(p: Snapshot, m: Direction, k: nat)
    requires |p.tiles| == LENGTH && k < LENGTH
    requires forall j :: 0 <= j < LENGTH && p.tiles[j].Merged? ==> Visited(m, k, j)
    ensures var q := Step(p, m, ScanOrder(m)[k]).board;
            forall j :: 0 <= j < LENGTH && q.tiles[j].Merged? ==> Visited(m, k + 1, j)
  {
    var i := ScanOrder(m)[k];
    ScanOrderFacts(m, k);
    StepEffect(p, m, i);
    SlideSpec(p.tiles, m, i);
  }

  lemma StepKeepsInvariant(s: Snapshot, m: Direction, k: nat, p: Snapshot)
    requires |s.tiles| == LENGTH && |p.tiles| == LENGTH && k < LENGTH
    requires PassInvariant(s, m, k, p)
    ensures PassInvariant(s, m, k + 1, Step(p, m, ScanOrder(m)[k]).board)
  {
    var i := ScanOrder(m)[k];
    ScanOrderFacts(m, k);
    assert !p.tiles[i].Merged?;
    StepCounts(p, m, i);
    StepMergedVisited(p, m, k);
  }

  lemma {:induction false} ScanInvariant(s: Snapshot, m: Direction, k: nat)
    requires |s.tiles| == LENGTH && NoMerged(s.tiles) && k <= LENGTH
    ensures PassInvariant(s, m, k, ScanUpTo(s, m, k).board)
  {
    if k == 0 {
      assert ScanOrder(m)[..0] == [];
      SumOverZero(s.tiles, MergedValue);
      SumOverZero(s.tiles, MergedMark);
    } else {
      ScanInvariant(s, m, k - 1);
      ScanStep(s, m, k - 1);
      StepKeepsInvariant(s, m, k - 1, ScanUpTo(s, m, k - 1).board);
    }
  }

  /** A just-merged tile left by the first k slides of a move survives the rest of
      the move unchanged: it takes part in no second merge. */
  lemma {:induction false} MergedTilePersists(s: Snapshot, m: Direction, k: nat, k2: nat, j: nat)
    requires |s.tiles| == LENGTH && NoMerged(s.tiles) && k <= k2 <= LENGTH && j < LENGTH
    requires ScanUpTo(s, m, k).board.tiles[j].Merged?
    ensures ScanUpTo(s, m, k2).board.tiles[j] == ScanUpTo(s, m, k).board.tiles[j]
  {
    if k < k2 {
      MergedTilePersists(s, m, k, k2 - 1, j);
      MergedPersistsStep(s, m, k2 - 1, j);
    }
  }

  /** One more slide leaves a just-merged tile where it is. */
  lemma MergedPersistsStep(s: Snapshot, m: Direction, k: nat, j: nat)
    requires |s.tiles| == LENGTH && NoMerged(s.tiles) && k < LENGTH && j < LENGTH
    requires ScanUpTo(s, m, k).board.tiles[j].Merged?
    ensures ScanUpTo(s, m, k + 1).board.tiles[j] == ScanUpTo(s, m, k).board.tiles[j]
  {
    ScanStep(s, m, k);
    NextCellNotMerged(s, m, k);
    MergedTileStays(ScanUpTo(s, m, k).board, m, ScanOrder(m)[k], j);
  }

  /** The cell the scan visits next holds no just-merged tile. */
  lemma NextCellNotMerged(s: Snapshot, m: Direction, k: nat)
    requires |s.tiles| == LENGTH && NoMerged(s.tiles) && k < LENGTH
    ensures !ScanUpTo(s, m, k).board.tiles[ScanOrder(m)[k]].Merged?
  {
    ScanInvariant(s, m, k);
    ScanOrderFacts(m, k);
  }

  /** A scan stays without effect exactly as long as every slide it tries is
      None on the original board. */
  lemma {:induction false} ScanWithoutEffect(s: Snapshot, m: Direction, k: nat)
    requires |s.tiles| == LENGTH && k <= LENGTH
    ensures var p := ScanUpTo(s, m, k);
            (true !in p.moves <==> forall q :: 0 <= q < k ==> Slide(s.tiles, m, ScanOrder(m)[q]).None?)
    ensures true !in ScanUpTo(s, m, k).moves ==> ScanUpTo(s, m, k).board == s
  {
    var order := ScanOrder(m);
    if k == 0 {
      assert ScanOrder(m)[..0] == [];
    } else {
      ScanWithoutEffect(s, m, k - 1);
      NoEffectStep(s, m, k - 1);
      assert (forall q :: 0 <= q < k ==> Slide(s.tiles, m, order[q]).None?) <==>
             (forall q :: 0 <= q < k - 1 ==> Slide(s.tiles, m, order[q]).None?) && Slide(s.tiles, m, order[k - 1]).None?;
    }
  }

  /** One more slide keeps the scan without effect exactly when it is None on
      the original board. */
  lemma NoEffectStep(s: Snapshot, m: Direction, k: nat)
    requires |s.tiles| == LENGTH && k < LENGTH
    ensures var p := ScanUpTo(s, m, k); var next := ScanUpTo(s, m, k + 1);
            && (true !in next.moves <==> true !in p.moves && !Step(p.board, m, ScanOrder(m)[k]).moved)
            && next.board == Step(p.board, m, ScanOrder(m)[k]).board
  {
    ScanStep(s, m, k);
    var p := ScanUpTo(s, m, k);
    var st := Step(p.board, m, ScanOrder(m)[k]);
    assert true !in p.moves + [st.moved] <==> true !in p.moves && !st.moved;
  }

  // ---- A whole move ----

  /** A move is rejected exactly when no tile of the board can slide: every cell
      is empty or blocked in direction m. Every cell is tried, even after the
      first tile that moved. */
  lemma MoveNoneIff(s: Snapshot, m: Direction)
    requires |s.tiles| == LENGTH
    ensures Move(s, m).None? <==> forall i :: 0 <= i < LENGTH ==> Slide(s.tiles, m, i).None?
    ensures Move(s, m).Some? <==> exists i :: 0 <= i < LENGTH && s.tiles[i] != Empty && !Blocked(s.tiles, m, i)
    ensures |Scan(s, m, ScanOrder(m)).moves| == LENGTH
  {
    var order := ScanOrder(m);
    ScanUpToAll(s, m);
    ScanWithoutEffect(s, m, LENGTH);
    if forall q :: 0 <= q < LENGTH ==> Slide(s.tiles, m, order[q]).None? {
      forall i | 0 <= i < LENGTH
        ensures Slide(s.tiles, m, i).None?
      {
        ScanOrderCovers(m, i);
      }
    }
    forall i | 0 <= i < LENGTH
      ensures Slide(s.tiles, m, i).None? <==> s.tiles[i] == Empty || Blocked(s.tiles, m, i)
    {
      SlideSpec(s.tiles, m, i);
    }
  }

  /** After a move, no cell holds a just-merged tile, the board has no more tiles
      than before, the score has not decreased, the score grew exactly when some
      tiles merged, and the total face value of the tiles is the same. The score
      gained is the value of the tiles the merges produced. */
  lemma MoveConserves(s: Snapshot, m: Direction)
    requires |s.tiles| == LENGTH && NoMerged(s.tiles) && Move(s, m).Some?
    ensures var after := Move(s, m).value;
            && NoMerged(after.tiles)
            && Count(after.tiles) <= Count(s.tiles)
            && after.score >= s.score
            && (after.score == s.score <==> Count(after.tiles) == Count(s.tiles))
            && SumOver(after.tiles, Score) == SumOver(s.tiles, Score)
    ensures var p := Scan(s, m, ScanOrder(m)).board;
            && Move(s, m).value.score == s.score + SumOver(p.tiles, MergedValue)
            && Count(s.tiles) - Count(Move(s, m).value.tiles) == SumOver(p.tiles, MergedMark)
  {
    ScanUpToAll(s, m);
    ScanInvariant(s, m, LENGTH);
    var p := Scan(s, m, ScanOrder(m)).board;
    var after := Move(s, m).value;
    assert after == FinalizeBoard(p);
    SumOverPointwise(after.tiles, p.tiles, Present, Present);
    SumOverPointwise(after.tiles, p.tiles, Score, Score);
    if SumOver(p.tiles, MergedValue) == 0 {
      if j :| 0 <= j < LENGTH && MergedMark(p.tiles[j]) > 0 {
        SumOverPositive(p.tiles, MergedValue, j);
      }
      SumOverZero(p.tiles, MergedMark);
    } else {
      if forall j :: 0 <= j < LENGTH ==> MergedMark(p.tiles[j]) == 0 {
        SumOverZero(p.tiles, MergedValue);
      }
      var j :| 0 <= j < LENGTH && MergedMark(p.tiles[j]) > 0;
      SumOverPositive(p.tiles, MergedMark, j);
    }
  }
}
