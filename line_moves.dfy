/**
 * The cell-by-cell engine of src/board/mod.rs (`move_board` scanning with
 * `move_tile` and `slide`) agrees with the line reference of module Lines:
 * after a move, every row (for Left and Right) or column (for Up and Down)
 * holds `Settle` of what it held before, the score grows by the lines'
 * `Gain`, and the move is rejected exactly when every line is already settled.
 */
module LineMoves {
  import opened Wrappers
  import opened Tiles
  import opened Geometry
  import opened Slides
  import opened Tallies
  import opened Boards
  import opened Lines
  import opened MoveFacts

  // ---- Lines of the board ----

  /** The index of cell q of line L for direction m, counting q from the edge
      the tiles move toward; a line is a row for Left and Right and a column
      for Up and Down. */
  function LineCell(m: Direction, l: nat, q: nat): (j: nat)
    requires l < SIZE && q < SIZE
    ensures j < LENGTH
  {
    match m
    case Left => l * SIZE + q
    case Right => l * SIZE + (SIZE - 1 - q)
    case Up => q * SIZE + l
    case Down => (SIZE - 1 - q) * SIZE + l
  }

  /** The line that cell j belongs to for direction m. */
  function LineOf(m: Direction, j: nat): (l: nat)
  {
    if m == Left || m == Right then j / SIZE else j % SIZE
  }

  /** Every cell is a cell of its own line, at its distance from the edge. */
  lemma CellOnLine(m: Direction, j: nat)
    requires j < LENGTH
    ensures LineOf(m, j) < SIZE && Distance(m, j) < SIZE
    ensures LineCell(m, LineOf(m, j), Distance(m, j)) == j
  {
  }

  /** Cell q of line L lies on line L at distance q from the edge. */
  lemma LineOfCell(m: Direction, l: nat, q: nat)
    requires l < SIZE && q < SIZE
    ensures LineOf(m, LineCell(m, l, q)) == l && Distance(m, LineCell(m, l, q)) == q
  {
  }

  /** The cells a tile at cell q of a line passes on its way to the edge are the
      cells q - 1, q - 2, ..., 0 of the same line. */
  lemma RayAlongLine(m: Direction, l: nat, q: nat)
    requires l < SIZE && q < SIZE
    ensures var path := Ray(m, LineCell(m, l, q));
            |path| == q && forall u :: 0 <= u < q ==> path[u] == LineCell(m, l, q - 1 - u)
  {
    LineOfCell(m, l, q);
  }

  /** The tiles of line L of a board, from the edge outward. */
  function Line(tiles: seq<Tile>, m: Direction, l: nat): (r: seq<Tile>)
    requires |tiles| == LENGTH && l < SIZE
    ensures |r| == SIZE
  {
    seq(SIZE, q requires 0 <= q < SIZE => tiles[LineCell(m, l, q)])
  }

  /** Two boards that agree on every line are the same board. */
  lemma SameLines(a: seq<Tile>, b: seq<Tile>, m: Direction)
    requires |a| == LENGTH && |b| == LENGTH
    requires forall l :: 0 <= l < SIZE ==> Line(a, m, l) == Line(b, m, l)
    ensures a == b
  {
    forall j | 0 <= j < LENGTH
      ensures a[j] == b[j]
    {
      CellOnLine(m, j);
      assert Line(a, m, LineOf(m, j))[Distance(m, j)] == Line(b, m, LineOf(m, j))[Distance(m, j)];
    }
  }

  /** Changing one cell changes one cell of its own line and no other line. */
  lemma LineUpdate(tiles: seq<Tile>, m: Direction, j: nat, t: Tile, l: nat)
    requires |tiles| == LENGTH && j < LENGTH && l < SIZE
    ensures LineOf(m, j) == l ==> Line(tiles[j := t], m, l) == Line(tiles, m, l)[Distance(m, j) := t]
    ensures LineOf(m, j) != l ==> Line(tiles[j := t], m, l) == Line(tiles, m, l)
  {
    CellOnLine(m, j);
    var before := Line(tiles, m, l);
    var after := Line(tiles[j := t], m, l);
    if LineOf(m, j) == l {
      forall q | 0 <= q < SIZE
        ensures after[q] == before[Distance(m, j) := t][q]
      {
        LineOfCell(m, l, q);
      }
    } else {
      forall q | 0 <= q < SIZE
        ensures after[q] == before[q]
      {
        LineOfCell(m, l, q);
      }
    }
  }

  // ---- How far the scan has got along each line ----

  /** How many cells of line L the first k steps of the scan have visited. */
  function Processed(m: Direction, k: nat, l: nat): (p: nat)
    requires l < SIZE
    ensures p <= SIZE
  {
    var done: int := match m
      case Left => k - l * SIZE
      case Right => k - (SIZE - 1 - l) * SIZE
      case Up => (k - l + SIZE - 1) / SIZE
      case Down => (k + l) / SIZE;
    if done < 0 then 0 else if done > SIZE then SIZE else done
  }

  /** The scan visits each line from the edge outward: the visited cells of a
      line are the first Processed of them. */
  lemma VisitedPrefix(m: Direction, k: nat, l: nat, q: nat)
    requires l < SIZE && q < SIZE
    ensures Visited(m, k, LineCell(m, l, q)) <==> q < Processed(m, k, l)
  {
  }

  /** Step k of the scan adds exactly its own cell to the visited ones. */
  lemma VisitedStep(m: Direction, k: nat, j: nat)
    requires k < LENGTH
    ensures Visited(m, k + 1, j) <==> Visited(m, k, j) || j == ScanOrder(m)[k]
  {
    ScanOrderFacts(m, k);
  }

  /** Step k of the scan visits the next cell of the line of its own cell. */
  lemma ProcessedOwnLine(m: Direction, k: nat)
    requires k < LENGTH
    ensures var i := ScanOrder(m)[k];
            && LineOf(m, i) < SIZE
            && Processed(m, k, LineOf(m, i)) == Distance(m, i)
            && Processed(m, k + 1, LineOf(m, i)) == Distance(m, i) + 1
  {
    ScanOrderFacts(m, k);
    var i := ScanOrder(m)[k];
    var l, q := LineOf(m, i), Distance(m, i);
    CellOnLine(m, i);
    VisitedPrefix(m, k, l, q);
    VisitedPrefix(m, k + 1, l, q);
    var p := Processed(m, k, l);
    if p < q {
      VisitedPrefix(m, k, l, p);
      VisitedPrefix(m, k + 1, l, p);
      VisitedStep(m, k, LineCell(m, l, p));
      LineOfCell(m, l, p);
    }
  }

  /** Step k of the scan visits no cell of the other lines. */
  lemma ProcessedOtherLine(m: Direction, k: nat, l: nat)
    requires k < LENGTH && l < SIZE && l != LineOf(m, ScanOrder(m)[k])
    ensures Processed(m, k + 1, l) == Processed(m, k, l)
  {
    var p0, p1 := Processed(m, k, l), Processed(m, k + 1, l);
    if p0 < p1 {
      VisitedPrefix(m, k, l, p0);
      VisitedPrefix(m, k + 1, l, p0);
      VisitedStep(m, k, LineCell(m, l, p0));
      LineOfCell(m, l, p0);
    } else if p1 < p0 {
      VisitedPrefix(m, k, l, p1);
      VisitedPrefix(m, k + 1, l, p1);
      VisitedStep(m, k, LineCell(m, l, p1));
    }
  }

  /** Before the scan no cell is visited; after it every cell is. */
  lemma ProcessedEnds(m: Direction, l: nat)
    requires l < SIZE
    ensures Processed(m, 0, l) == 0 && Processed(m, LENGTH, l) == SIZE
  {
  }

  // ---- One slide, seen along its line ----

  /** When the first |acc| cells of line L hold the non-empty tiles acc and the
      cells from there up to q are empty, a tile travelling from cell q along
      path (the cells q - 1, ..., 0 of the line) crosses q - |acc| empty cells,
      and the next cell on its way is the last of acc. */
  lemma GapOnLine(tiles: seq<Tile>, m: Direction, l: nat, q: nat, acc: seq<Tile>, path: seq<nat>)
    requires |tiles| == LENGTH && l < SIZE && q < SIZE && |acc| <= q
    requires forall u :: 0 <= u < |acc| ==> Line(tiles, m, l)[u] == acc[u] && acc[u] != Empty
    requires forall u :: |acc| <= u < q ==> Line(tiles, m, l)[u] == Empty
    requires |path| == q && forall u :: 0 <= u < q ==> path[u] < LENGTH && path[u] == LineCell(m, l, q - 1 - u)
    ensures LeadingEmpty(tiles, path) == q - |acc|
    ensures |acc| > 0 ==> tiles[path[q - |acc|]] == acc[|acc| - 1]
  {
    var a := |acc|;
    forall u | 0 <= u < q - a
      ensures tiles[path[u]] == Empty
    {
      assert tiles[path[u]] == Line(tiles, m, l)[q - 1 - u];
    }
    if a > 0 {
      assert tiles[path[q - a]] == Line(tiles, m, l)[a - 1];
    }
  }

  /** When the first |acc| cells of line L hold the non-empty tiles acc and the
      cells from there up to q are empty, a tile t travelling from cell q merges
      into the last of acc when it can, and otherwise stops right after acc. */
  lemma SlideNextOnLine(tiles: seq<Tile>, m: Direction, l: nat, q: nat, acc: seq<Tile>, t: Tile)
    requires |tiles| == LENGTH && l < SIZE && q < SIZE && |acc| <= q
    requires forall u :: 0 <= u < |acc| ==> Line(tiles, m, l)[u] == acc[u] && acc[u] != Empty
    requires forall u :: |acc| <= u < q ==> Line(tiles, m, l)[u] == Empty
    ensures var a := |acc|;
            SlideNext(tiles, m, LineCell(m, l, q), t) ==
              if a > 0 && CanMerge(t, acc[a - 1]) then SlideResult(Next(t), LineCell(m, l, a - 1), Score(Next(t)))
              else SlideResult(t, LineCell(m, l, a), 0)
  {
    var i := LineCell(m, l, q);
    var path := Ray(m, i);
    RayAlongLine(m, l, q);
    GapOnLine(tiles, m, l, q, acc, path);
    SlideNextSpec(tiles, m, i, t);
    var k := q - |acc|;
    assert k > 0 ==> path[k - 1] == LineCell(m, l, |acc|);
    assert |acc| > 0 ==> path[k] == LineCell(m, l, |acc| - 1);
  }

  /** When the first |acc| cells of line L hold the non-empty tiles acc and the
      cells from there up to q are empty, the slide of the tile at cell q merges
      it into the last of acc when it can, and otherwise moves it right after
      acc, or not at all when it is already there. */
  lemma SlideOnLine(tiles: seq<Tile>, m: Direction, l: nat, q: nat, acc: seq<Tile>)
    requires |tiles| == LENGTH && l < SIZE && q < SIZE && |acc| <= q
    requires forall u :: 0 <= u < |acc| ==> Line(tiles, m, l)[u] == acc[u] && acc[u] != Empty
    requires forall u :: |acc| <= u < q ==> Line(tiles, m, l)[u] == Empty
    ensures var i := LineCell(m, l, q); var t := tiles[i]; var a := |acc|;
            Slide(tiles, m, i) ==
              if t == Empty then None
              else if a > 0 && CanMerge(t, acc[a - 1]) then Some(SlideResult(Next(t), LineCell(m, l, a - 1), Score(Next(t))))
              else if a == q then None
              else Some(SlideResult(t, LineCell(m, l, a), 0))
  {
    var i := LineCell(m, l, q);
    var t := tiles[i];
    if t != Empty {
      SlideNextOnLine(tiles, m, l, q, acc, t);
      LineOfCell(m, l, q);
      if |acc| > 0 {
        LineOfCell(m, l, |acc| - 1);
      }
      LineOfCell(m, l, |acc|);
    }
  }

  // ---- The scan, line by line ----

  /** The sum of f over the first n lines. */
  function SumLines(f: nat -> nat, n: nat): (total: nat)
  {
    if n == 0 then 0 else SumLines(f, n - 1) + f(n - 1)
  }

  /** Two sums over lines that differ in line l0 only differ by that line's terms. */
  lemma {:induction false} SumLinesStep(f: nat -> nat, g: nat -> nat, l0: nat, n: nat)
    requires forall l :: 0 <= l < n && l != l0 ==> f(l) == g(l)
    ensures SumLines(g, n) + (if l0 < n then f(l0) else 0) == SumLines(f, n) + (if l0 < n then g(l0) else 0)
  {
    if n > 0 {
      SumLinesStep(f, g, l0, n - 1);
    }
  }

  /** The score earned by line L of board tiles after k steps of the scan. */
  function LineGainSoFar(tiles: seq<Tile>, m: Direction, k: nat, l: nat): (g: nat)
    requires |tiles| == LENGTH
  {
    if l < SIZE then PartialGain(Line(tiles, m, l), Processed(m, k, l)) else 0
  }

  /** The score earned by all lines of board tiles after k steps of the scan. */
  function GainSoFar(tiles: seq<Tile>, m: Direction, k: nat): (g: nat)
    requires |tiles| == LENGTH
  {
    SumLines(l => LineGainSoFar(tiles, m, k, l), SIZE)
  }

  /** After k steps of the scan from board s, every line of the board is the
      state of its own original line with its processed cells added one by
      one, and the score gained is what those cells earned. */
  ghost predicate LinesAgree(s: Snapshot, m: Direction, k: nat, p: Snapshot)
    requires |s.tiles| == LENGTH && |p.tiles| == LENGTH
  {
    && (forall l :: 0 <= l < SIZE ==> Line(p.tiles, m, l) == LineState(Line(s.tiles, m, l), Processed(m, k, l)))
    && p.score == s.score + GainSoFar(s.tiles, m, k)
  }

  /** The step at cell i = LineCell(m, L, q) turns line L from the state after
      q of its cells into the state after q + 1, and earns what cell q earns. */
  lemma StepOnOwnLine(p: Snapshot, m: Direction, l: nat, q: nat, line: seq<Tile>)
    requires |p.tiles| == LENGTH && l < SIZE && q < SIZE && |line| == SIZE && !line[q].Merged?
    requires Line(p.tiles, m, l) == LineState(line, q)
    ensures var st := Step(p, m, LineCell(m, l, q));
            && Line(st.board.tiles, m, l) == LineState(line, q + 1)
            && st.board.score + PartialGain(line, q) == p.score + PartialGain(line, q + 1)
  {
    var i := LineCell(m, l, q);
    var acc := AbsorbAll(line[..q]);
    var cur := Line(p.tiles, m, l);
    LineStateShape(line, q);
    SlideOnLine(p.tiles, m, l, q, acc);
    LineStateStep(line, q);
    PartialGainStep(line, q);
    LineOfCell(m, l, q);
    if line[q] == Empty {
      assert Step(p, m, i).board == p;
    } else if |acc| > 0 && CanMerge(line[q], acc[|acc| - 1]) {
      LineOfCell(m, l, |acc| - 1);
      StepAlongLine(p, m, i);
    } else if |acc| == q {
      assert Step(p, m, i).board == p;
      assert cur[q := Empty][|acc| := line[q]] == cur;
    } else {
      LineOfCell(m, l, |acc|);
      StepAlongLine(p, m, i);
    }
  }

  /** A step that moves the tile of cell i vacates its cell and fills the
      landing cell, on the line of i. */
  lemma StepAlongLine(p: Snapshot, m: Direction, i: nat)
    requires |p.tiles| == LENGTH && i < LENGTH
    requires Slide(p.tiles, m, i).Some?
    ensures var sl := Slide(p.tiles, m, i).value; var l := LineOf(m, i);
            l < SIZE &&
            Line(Step(p, m, i).board.tiles, m, l) == Line(p.tiles, m, l)[Distance(m, i) := Empty][Distance(m, sl.position) := sl.tile]
  {
    var sl := Slide(p.tiles, m, i).value;
    var l := LineOf(m, i);
    CellOnLine(m, i);
    SlideStaysOnLine(p.tiles, m, i);
    LineUpdate(p.tiles, m, i, Empty, l);
    LineUpdate(p.tiles[i := Empty], m, sl.position, sl.tile, l);
  }

  /** A tile slides along its own line. */
  lemma SlideStaysOnLine(tiles: seq<Tile>, m: Direction, i: nat)
    requires |tiles| == LENGTH && i < LENGTH
    ensures Slide(tiles, m, i).Some? ==> LineOf(m, Slide(tiles, m, i).value.position) == LineOf(m, i)
  {
    var sl := Slide(tiles, m, i);
    if sl.Some? {
      SlideSpec(tiles, m, i);
      var path := Ray(m, i);
      var u :| 0 <= u < |path| && path[u] == sl.value.position;
    }
  }

  /** The step at cell i leaves every line but that of i as it was. */
  lemma StepOnOtherLine(p: Snapshot, m: Direction, i: nat, l: nat)
    requires |p.tiles| == LENGTH && i < LENGTH && l < SIZE && l != LineOf(m, i)
    ensures Line(Step(p, m, i).board.tiles, m, l) == Line(p.tiles, m, l)
  {
    var sl := Slide(p.tiles, m, i);
    SlideStaysOnLine(p.tiles, m, i);
    if sl.Some? {
      LineUpdate(p.tiles, m, i, Empty, l);
      LineUpdate(p.tiles[i := Empty], m, sl.value.position, sl.value.tile, l);
    }
  }

  /** Every step of the scan keeps the lines in agreement with the reference. */
  lemma StepKeepsLines(s: Snapshot, m: Direction, k: nat, p: Snapshot)
    requires |s.tiles| == LENGTH && |p.tiles| == LENGTH && NoMerged(s.tiles) && k < LENGTH
    requires LinesAgree(s, m, k, p)
    ensures LinesAgree(s, m, k + 1, Step(p, m, ScanOrder(m)[k]).board)
  {
    StepKeepsLineStates(s, m, k, p);
    StepGain(s.tiles, m, k, LineOf(m, ScanOrder(m)[k]));
  }

  /** Every step of the scan keeps each line in its reference state, and the
      score grows by what the step's own line earns. */
  lemma StepKeepsLineStates(s: Snapshot, m: Direction, k: nat, p: Snapshot)
    requires |s.tiles| == LENGTH && |p.tiles| == LENGTH && NoMerged(s.tiles) && k < LENGTH
    requires forall l :: 0 <= l < SIZE ==> Line(p.tiles, m, l) == LineState(Line(s.tiles, m, l), Processed(m, k, l))
    ensures var i := ScanOrder(m)[k]; var next := Step(p, m, i).board;
            && (forall l :: 0 <= l < SIZE ==> Line(next.tiles, m, l) == LineState(Line(s.tiles, m, l), Processed(m, k + 1, l)))
            && next.score + LineGainSoFar(s.tiles, m, k, LineOf(m, i)) == p.score + LineGainSoFar(s.tiles, m, k + 1, LineOf(m, i))
  {
    StepKeepsOwnLine(s, m, k, p);
    StepKeepsOtherLines(s, m, k, p);
  }

  /** Step k of the scan moves its own line to its next reference state and
      earns what that line's cell earns. */
  lemma StepKeepsOwnLine(s: Snapshot, m: Direction, k: nat, p: Snapshot)
    requires |s.tiles| == LENGTH && |p.tiles| == LENGTH && NoMerged(s.tiles) && k < LENGTH
    requires forall l :: 0 <= l < SIZE ==> Line(p.tiles, m, l) == LineState(Line(s.tiles, m, l), Processed(m, k, l))
    ensures var i := ScanOrder(m)[k]; var next := Step(p, m, i).board; var l := LineOf(m, i);
            && l < SIZE
            && Line(next.tiles, m, l) == LineState(Line(s.tiles, m, l), Processed(m, k + 1, l))
            && next.score + LineGainSoFar(s.tiles, m, k, l) == p.score + LineGainSoFar(s.tiles, m, k + 1, l)
  {
    var i := ScanOrder(m)[k];
    ProcessedOwnLine(m, k);
    CellOnLine(m, i);
    var l, q := LineOf(m, i), Distance(m, i);
    var line := Line(s.tiles, m, l);
    assert !line[q].Merged?;
    assert Line(p.tiles, m, l) == LineState(line, q);
    StepOnOwnLine(p, m, l, q, line);
  }

  /** Step k of the scan leaves every other line in its reference state. */
  lemma StepKeepsOtherLines(s: Snapshot, m: Direction, k: nat, p: Snapshot)
    requires |s.tiles| == LENGTH && |p.tiles| == LENGTH && k < LENGTH
    requires forall l :: 0 <= l < SIZE ==> Line(p.tiles, m, l) == LineState(Line(s.tiles, m, l), Processed(m, k, l))
    ensures var i := ScanOrder(m)[k]; var next := Step(p, m, i).board;
            forall l :: 0 <= l < SIZE && l != LineOf(m, i) ==>
              Line(next.tiles, m, l) == LineState(Line(s.tiles, m, l), Processed(m, k + 1, l))
  {
    var i := ScanOrder(m)[k];
    var next := Step(p, m, i).board;
    forall l | 0 <= l < SIZE && l != LineOf(m, i)
      ensures Line(next.tiles, m, l) == LineState(Line(s.tiles, m, l), Processed(m, k + 1, l))
    {
      ProcessedOtherLine(m, k, l);
      StepOnOtherLine(p, m, i, l);
    }
  }

  /** Step k of the scan changes the score earned so far by its own line's
      part only. */
  lemma StepGain(tiles: seq<Tile>, m: Direction, k: nat, l: nat)
    requires |tiles| == LENGTH && k < LENGTH && l == LineOf(m, ScanOrder(m)[k])
    ensures l < SIZE
    ensures GainSoFar(tiles, m, k + 1) + LineGainSoFar(tiles, m, k, l) == GainSoFar(tiles, m, k) + LineGainSoFar(tiles, m, k + 1, l)
  {
    CellOnLine(m, ScanOrder(m)[k]);
    var before := (l': nat) => LineGainSoFar(tiles, m, k, l');
    var after := (l': nat) => LineGainSoFar(tiles, m, k + 1, l');
    forall l' | 0 <= l' < SIZE && l' != l
      ensures before(l') == after(l')
    {
      ProcessedOtherLine(m, k, l');
    }
    SumLinesStep(before, after, l, SIZE);
  }

  /** After k steps of the scan from a board without just-merged tiles, every
      line is the reference state of its original line after its processed
      cells, and the score gained is what those cells earned. */
  lemma {:induction false} ScanByLines(s: Snapshot, m: Direction, k: nat)
    requires |s.tiles| == LENGTH && NoMerged(s.tiles) && k <= LENGTH
    ensures LinesAgree(s, m, k, ScanUpTo(s, m, k).board)
  {
    if k == 0 {
      assert ScanOrder(m)[..0] == [];
      ScanStart(s, m);
    } else {
      ScanByLines(s, m, k - 1);
      ScanStep(s, m, k - 1);
      StepKeepsLines(s, m, k - 1, ScanUpTo(s, m, k - 1).board);
    }
  }

  /** Before the scan every line is in its starting state. */
  lemma ScanStart(s: Snapshot, m: Direction)
    requires |s.tiles| == LENGTH
    ensures LinesAgree(s, m, 0, s)
  {
    forall l | 0 <= l < SIZE
      ensures Line(s.tiles, m, l) == LineState(Line(s.tiles, m, l), Processed(m, 0, l))
    {
      ProcessedEnds(m, l);
      LineStateStart(Line(s.tiles, m, l));
    }
    ZeroGain(s.tiles, m, SIZE);
  }

  /** Before the scan no line has earned anything. */
  lemma {:induction false} ZeroGain(tiles: seq<Tile>, m: Direction, n: nat)
    requires |tiles| == LENGTH && n <= SIZE
    ensures SumLines(l => LineGainSoFar(tiles, m, 0, l), n) == 0
  {
    if n > 0 {
      ZeroGain(tiles, m, n - 1);
      ProcessedEnds(m, n - 1);
      assert Line(tiles, m, n - 1)[..0] == [];
    }
  }

  // ---- A whole move ----

  /** The score line L of board tiles earns by a move in direction m. */
  function LineGain(tiles: seq<Tile>, m: Direction, l: nat): (g: nat)
    requires |tiles| == LENGTH
  {
    if l < SIZE then Gain(Line(tiles, m, l)) else 0
  }

  /** The score all lines of board s earn by a move in direction m. */
  function TotalGain(s: Snapshot, m: Direction): (g: nat)
    requires |s.tiles| == LENGTH
  {
    SumLines(l => LineGain(s.tiles, m, l), SIZE)
  }

  /** Once the scan is over, what the lines earned so far is their total gain. */
  lemma GainAtEnd(s: Snapshot, m: Direction)
    requires |s.tiles| == LENGTH && NoMerged(s.tiles)
    ensures GainSoFar(s.tiles, m, LENGTH) == TotalGain(s, m)
  {
    var done := (l: nat) => LineGainSoFar(s.tiles, m, LENGTH, l);
    var total := (l: nat) => LineGain(s.tiles, m, l);
    forall l | 0 <= l < SIZE
      ensures done(l) == total(l)
    {
      ProcessedEnds(m, l);
      var line := Line(s.tiles, m, l);
      assert line[..SIZE] == line;
      AbsorbAllIsCombine(line);
    }
    SumLinesStep(done, total, SIZE, SIZE);
  }

  /** At the end of the scan, every line holds its final reference state and the
      score gained is the lines' total gain. */
  lemma ScanEnd(s: Snapshot, m: Direction)
    requires |s.tiles| == LENGTH && NoMerged(s.tiles)
    ensures var pass := Scan(s, m, ScanOrder(m)).board;
            && (forall l :: 0 <= l < SIZE ==> Line(pass.tiles, m, l) == LineState(Line(s.tiles, m, l), SIZE))
            && pass.score == s.score + TotalGain(s, m)
  {
    ScanUpToAll(s, m);
    ScanByLines(s, m, LENGTH);
    forall l | 0 <= l < SIZE
      ensures Processed(m, LENGTH, l) == SIZE
    {
      ProcessedEnds(m, l);
    }
    GainAtEnd(s, m);
  }

  /** A move of a board without just-merged tiles does what the line reference
      does: every line of the new board is `Settle` of the same line of the old
      board, and the score grows by the lines' total gain. The move is rejected
      exactly when settling would leave every line as it is. */
  lemma MoveByLines(s: Snapshot, m: Direction)
    requires |s.tiles| == LENGTH && NoMerged(s.tiles)
    ensures Move(s, m).None? <==> forall l :: 0 <= l < SIZE ==> Settle(Line(s.tiles, m, l)) == Line(s.tiles, m, l)
    ensures Move(s, m).Some? ==>
              && (forall l :: 0 <= l < SIZE ==> Line(Move(s, m).value.tiles, m, l) == Settle(Line(s.tiles, m, l)))
              && Move(s, m).value.score == s.score + TotalGain(s, m)
  {
    SettledScan(s, m);
    if Move(s, m).None? {
      MoveRejectedKeepsLines(s, m);
    } else if forall l :: 0 <= l < SIZE ==> Settle(Line(s.tiles, m, l)) == Line(s.tiles, m, l) {
      SettledLinesBlock(s, m);
      MoveNoneIff(s, m);
    }
  }

  /** A rejected move leaves the scan's board as it was, so settling changes
      no line. */
  lemma MoveRejectedKeepsLines(s: Snapshot, m: Direction)
    requires |s.tiles| == LENGTH && NoMerged(s.tiles) && Move(s, m).None?
    ensures forall l :: 0 <= l < SIZE ==> Settle(Line(s.tiles, m, l)) == Line(s.tiles, m, l)
  {
    ScanUpToAll(s, m);
    ScanWithoutEffect(s, m, LENGTH);
    ScanEnd(s, m);
    forall l | 0 <= l < SIZE
      ensures Settle(Line(s.tiles, m, l)) == Line(s.tiles, m, l)
    {
      LineNoMerged(s.tiles, m, l);
      SettledWhenFinal(Line(s.tiles, m, l));
    }
  }

  /** The lines of a board without just-merged tiles hold none either. */
  lemma LineNoMerged(tiles: seq<Tile>, m: Direction, l: nat)
    requires |tiles| == LENGTH && NoMerged(tiles) && l < SIZE
    ensures forall q :: 0 <= q < SIZE ==> !Line(tiles, m, l)[q].Merged?
  {
  }

  /** When settling changes no line, every tile is blocked. */
  lemma SettledLinesBlock(s: Snapshot, m: Direction)
    requires |s.tiles| == LENGTH && NoMerged(s.tiles)
    requires forall l :: 0 <= l < SIZE ==> Settle(Line(s.tiles, m, l)) == Line(s.tiles, m, l)
    ensures forall i :: 0 <= i < LENGTH && s.tiles[i] != Empty ==> Blocked(s.tiles, m, i)
  {
    forall i | 0 <= i < LENGTH && s.tiles[i] != Empty
      ensures Blocked(s.tiles, m, i)
    {
      CellOnLine(m, i);
      SettledCellBlocked(s.tiles, m, i);
    }
  }

  /** A tile on a settled line cannot leave its cell. */
  lemma SettledCellBlocked(tiles: seq<Tile>, m: Direction, i: nat)
    requires |tiles| == LENGTH && i < LENGTH && tiles[i] != Empty
    requires LineOf(m, i) < SIZE && Settle(Line(tiles, m, LineOf(m, i))) == Line(tiles, m, LineOf(m, i))
    ensures Blocked(tiles, m, i)
  {
    CellOnLine(m, i);
    var l, q := LineOf(m, i), Distance(m, i);
    if q > 0 {
      RayAlongLine(m, l, q);
      SettledIsStable(Line(tiles, m, l), q);
      assert Ray(m, i)[0] == LineCell(m, l, q - 1);
    }
  }

  /** Settling the board the scan leaves gives every line its reference result. */
  lemma SettledScan(s: Snapshot, m: Direction)
    requires |s.tiles| == LENGTH && NoMerged(s.tiles)
    ensures var after := FinalizeBoard(Scan(s, m, ScanOrder(m)).board);
            && (forall l :: 0 <= l < SIZE ==> Line(after.tiles, m, l) == Settle(Line(s.tiles, m, l)))
            && after.score == s.score + TotalGain(s, m)
  {
    var pass := Scan(s, m, ScanOrder(m)).board;
    ScanEnd(s, m);
    forall l | 0 <= l < SIZE
      ensures Line(FinalizeBoard(pass).tiles, m, l) == Settle(Line(s.tiles, m, l))
    {
      SettledLine(s.tiles, pass, m, l);
    }
  }

  /** A line in its final reference state settles to the line's reference result. */
  lemma SettledLine(tiles: seq<Tile>, b: Snapshot, m: Direction, l: nat)
    requires |tiles| == LENGTH && |b.tiles| == LENGTH && NoMerged(tiles) && l < SIZE
    requires Line(b.tiles, m, l) == LineState(Line(tiles, m, l), SIZE)
    ensures Line(FinalizeBoard(b).tiles, m, l) == Settle(Line(tiles, m, l))
  {
    SettleIsFinalState(Line(tiles, m, l));
    FinalizedLine(b, m, l);
  }

  /** Settling a board settles every cell of each of its lines. */
  lemma FinalizedLine(b: Snapshot, m: Direction, l: nat)
    requires |b.tiles| == LENGTH && l < SIZE
    ensures forall q :: 0 <= q < SIZE ==> Line(FinalizeBoard(b).tiles, m, l)[q] == Finalize(Line(b.tiles, m, l)[q])
  {
  }
}
