/**
 * The test boards of src/board/tests.rs, checked against the model: moves of
 * whole boards (`simple_move`, `simple_merge`, `tricky_merge`,
 * `other_direction`, `up_and_down`), `can_move` and `has_possible_moves` on
 * the boards those tests use. Each board move follows from the line
 * reference (LineMoves.MoveByLines) and the settled form of each of its lines.
 */
module BoardTests {
  import opened Wrappers
  import opened Tiles
  import opened Tallies
  import opened Geometry
  import opened Slides
  import opened Boards
  import opened Lines
  import opened LineMoves
  import opened MoveFacts
  import opened SpawnFacts

  // The tile names of the tests: o is an empty cell, A to K the ranks 1 to 11.
  const o := Empty
  const A := Occupied(1)
  const B := Occupied(2)
  const C := Occupied(3)
  const D := Occupied(4)
  const E := Occupied(5)
  const F := Occupied(6)
  const G := Occupied(7)
  const H := Occupied(8)
  const I := Occupied(9)
  const J := Occupied(10)
  const K := Occupied(11)

  // ---- Unfolding the reference on four cells ----

  /** A row of four cells holding no merge marker. */
  predicate Plain(r: seq<Tile>)
    requires |r| == SIZE
  {
    !r[0].Merged? && !r[1].Merged? && !r[2].Merged? && !r[3].Merged?
  }

  /** The board made of four rows has sixteen cells, and no merge marker when its rows have none. */
  lemma BoardOfRows(r0: seq<Tile>, r1: seq<Tile>, r2: seq<Tile>, r3: seq<Tile>)
    requires |r0| == |r1| == |r2| == |r3| == SIZE
    requires Plain(r0) && Plain(r1) && Plain(r2) && Plain(r3)
    ensures |r0 + r1 + r2 + r3| == LENGTH && NoMerged(r0 + r1 + r2 + r3)
  {
    var b := r0 + r1 + r2 + r3;
    forall j | 0 <= j < LENGTH
      ensures !b[j].Merged?
    {
      var r := if j < SIZE then r0 else if j < 2 * SIZE then r1 else if j < 3 * SIZE then r2 else r3;
      assert b[j] == r[j % SIZE];
      assert j % SIZE == 0 || j % SIZE == 1 || j % SIZE == 2 || j % SIZE == 3;
    }
  }

  /** The rows of a board read from the left and from the right. */
  lemma RowLinesOfRows(r0: seq<Tile>, r1: seq<Tile>, r2: seq<Tile>, r3: seq<Tile>)
    requires |r0| == |r1| == |r2| == |r3| == SIZE
    ensures var b := r0 + r1 + r2 + r3;
            && Line(b, Left, 0) == r0 && Line(b, Left, 1) == r1 && Line(b, Left, 2) == r2 && Line(b, Left, 3) == r3
            && Line(b, Right, 0) == Reversed(r0) && Line(b, Right, 1) == Reversed(r1)
            && Line(b, Right, 2) == Reversed(r2) && Line(b, Right, 3) == Reversed(r3)
  {
    var b := r0 + r1 + r2 + r3;
    assert forall q :: 0 <= q < SIZE ==> b[q] == r0[q] && b[SIZE + q] == r1[q] && b[2 * SIZE + q] == r2[q] && b[3 * SIZE + q] == r3[q];
  }

  /** The columns of a board read from the top and from the bottom. */
  lemma ColumnLinesOfRows(r0: seq<Tile>, r1: seq<Tile>, r2: seq<Tile>, r3: seq<Tile>)
    requires |r0| == |r1| == |r2| == |r3| == SIZE
    ensures var b := r0 + r1 + r2 + r3;
            && (forall l :: 0 <= l < SIZE ==> Line(b, Up, l) == [r0[l], r1[l], r2[l], r3[l]])
            && (forall l :: 0 <= l < SIZE ==> Line(b, Down, l) == [r3[l], r2[l], r1[l], r0[l]])
  {
    var b := r0 + r1 + r2 + r3;
    forall l | 0 <= l < SIZE
      ensures Line(b, Up, l) == [r0[l], r1[l], r2[l], r3[l]] && Line(b, Down, l) == [r3[l], r2[l], r1[l], r0[l]]
    {
      assert b[l] == r0[l] && b[SIZE + l] == r1[l] && b[2 * SIZE + l] == r2[l] && b[3 * SIZE + l] == r3[l];
    }
  }

  /** A board with a line that is not settled yet moves. */
  lemma Moves(s: Snapshot, m: Direction, l: nat)
    requires |s.tiles| == LENGTH && NoMerged(s.tiles) && l < SIZE
    requires Settle(Line(s.tiles, m, l)) != Line(s.tiles, m, l)
    ensures Move(s, m).Some?
  {
    MoveByLines(s, m);
  }

  /** A board that moves, whose four lines settle to the lines of e, moves to e. */
  lemma MovedTiles(s: Snapshot, m: Direction, e: seq<Tile>)
    requires |s.tiles| == LENGTH && NoMerged(s.tiles) && |e| == LENGTH && Move(s, m).Some?
    requires Settle(Line(s.tiles, m, 0)) == Line(e, m, 0) && Settle(Line(s.tiles, m, 1)) == Line(e, m, 1)
    requires Settle(Line(s.tiles, m, 2)) == Line(e, m, 2) && Settle(Line(s.tiles, m, 3)) == Line(e, m, 3)
    ensures Move(s, m).value.tiles == e
  {
    MoveByLines(s, m);
    SameFourLines(Move(s, m).value.tiles, e, m);
  }

  /** A board that moves gains the four lines' gains. */
  lemma MovedScore(s: Snapshot, m: Direction, gain: nat)
    requires |s.tiles| == LENGTH && NoMerged(s.tiles) && Move(s, m).Some?
    requires Gain(Line(s.tiles, m, 0)) + Gain(Line(s.tiles, m, 1))
           + Gain(Line(s.tiles, m, 2)) + Gain(Line(s.tiles, m, 3)) == gain
    ensures Move(s, m).value.score == s.score + gain
  {
    MoveByLines(s, m);
    TotalGainOf(s, m);
  }

  /** A board whose four lines are all settled does not move. */
  lemma Stuck(s: Snapshot, m: Direction)
    requires |s.tiles| == LENGTH && NoMerged(s.tiles)
    requires Settle(Line(s.tiles, m, 0)) == Line(s.tiles, m, 0) && Settle(Line(s.tiles, m, 1)) == Line(s.tiles, m, 1)
    requires Settle(Line(s.tiles, m, 2)) == Line(s.tiles, m, 2) && Settle(Line(s.tiles, m, 3)) == Line(s.tiles, m, 3)
    ensures Move(s, m).None?
  {
    forall l | 0 <= l < SIZE
      ensures Settle(Line(s.tiles, m, l)) == Line(s.tiles, m, l)
    {
      assert l == 0 || l == 1 || l == 2 || l == 3;
    }
    MoveByLines(s, m);
  }

  /** A row of four occupied cells. */
  predicate Filled(r: seq<Tile>)
    requires |r| == SIZE
  {
    r[0] != Empty && r[1] != Empty && r[2] != Empty && r[3] != Empty
  }

  /** The board made of four filled rows has no empty cell. */
  lemma FilledBoard(r0: seq<Tile>, r1: seq<Tile>, r2: seq<Tile>, r3: seq<Tile>)
    requires |r0| == |r1| == |r2| == |r3| == SIZE
    requires Filled(r0) && Filled(r1) && Filled(r2) && Filled(r3)
    ensures forall j :: 0 <= j < LENGTH ==> (r0 + r1 + r2 + r3)[j] != Empty
  {
    var b := r0 + r1 + r2 + r3;
    forall j | 0 <= j < LENGTH
      ensures b[j] != Empty
    {
      var r := if j < SIZE then r0 else if j < 2 * SIZE then r1 else if j < 3 * SIZE then r2 else r3;
      assert b[j] == r[j % SIZE];
      assert j % SIZE == 0 || j % SIZE == 1 || j % SIZE == 2 || j % SIZE == 3;
    }
  }

  /** Two boards whose four lines agree are the same board. */
  lemma SameFourLines(a: seq<Tile>, b: seq<Tile>, m: Direction)
    requires |a| == LENGTH && |b| == LENGTH
    requires Line(a, m, 0) == Line(b, m, 0) && Line(a, m, 1) == Line(b, m, 1)
    requires Line(a, m, 2) == Line(b, m, 2) && Line(a, m, 3) == Line(b, m, 3)
    ensures a == b
  {
    forall l | 0 <= l < SIZE
      ensures Line(a, m, l) == Line(b, m, l)
    {
      assert l == 0 || l == 1 || l == 2 || l == 3;
    }
    SameLines(a, b, m);
  }

  /** The cells of a row in the opposite order. */
  function Reversed(r: seq<Tile>): (v: seq<Tile>)
    requires |r| == SIZE
    ensures |v| == SIZE && forall q :: 0 <= q < SIZE ==> v[q] == r[SIZE - 1 - q]
  {
    [r[3], r[2], r[1], r[0]]
  }

  /** A cell as it contributes to a packed line. */
  function Keep(t: Tile): (r: seq<Tile>)
  {
    if t == Empty then [] else [t]
  }

  /** Packing four cells keeps the non-empty ones in order. */
  lemma PackFour(line: seq<Tile>)
    requires |line| == 4
    ensures Pack(line) == Keep(line[0]) + Keep(line[1]) + Keep(line[2]) + Keep(line[3])
  {
    assert line[..3][..2] == line[..2];
    assert line[..2][..1] == line[..1];
    assert line[..1][..0] == [];
    assert Pack(line[..1]) == Keep(line[0]);
    assert Pack(line[..2]) == Keep(line[0]) + Keep(line[1]);
    assert Pack(line[..3]) == Keep(line[0]) + Keep(line[1]) + Keep(line[2]);
  }

  /** Four packed tiles: the first two pair up or the first one stays alone. */
  lemma CombineFour(a: Tile, b: Tile, c: Tile, d: Tile)
    ensures Combine([a, b, c, d]) == if CanMerge(a, b) then [Next(a)] + Combine([c, d]) else [a] + Combine([b, c, d])
  {
    assert [a, b, c, d][2..] == [c, d];
    assert [a, b, c, d][1..] == [b, c, d];
  }

  /** Three packed tiles: the first two pair up or the first one stays alone. */
  lemma CombineThree(a: Tile, b: Tile, c: Tile)
    ensures Combine([a, b, c]) == if CanMerge(a, b) then [Next(a)] + Combine([c]) else [a] + Combine([b, c])
  {
    assert [a, b, c][2..] == [c];
    assert [a, b, c][1..] == [b, c];
  }

  /** Two packed tiles: they pair up or both stay. */
  lemma CombineTwo(a: Tile, b: Tile)
    ensures Combine([a, b]) == if CanMerge(a, b) then [Next(a)] else [a] + Combine([b])
  {
    assert [a, b][2..] == [];
    assert [a, b][1..] == [b];
  }

  /** A single tile stays alone. */
  lemma CombineOne(a: Tile)
    ensures Combine([a]) == [a]
  {
    assert [a][1..] == [];
  }

  /** A sum over at most four tiles, term by term. */
  lemma SumOverSmall(ts: seq<Tile>, f: Tile -> nat)
    requires |ts| <= 4
    ensures SumOver(ts, f) == (if |ts| > 0 then f(ts[0]) else 0) + (if |ts| > 1 then f(ts[1]) else 0)
                              + (if |ts| > 2 then f(ts[2]) else 0) + (if |ts| > 3 then f(ts[3]) else 0)
  {
    if |ts| > 0 {
      var init := ts[..|ts| - 1];
      if |init| > 0 {
        var init2 := init[..|init| - 1];
        if |init2| > 0 {
          assert init2[..|init2| - 1] == ts[..|init2| - 1];
        }
      }
    }
  }

  /** The total gain of a move, line by line. */
  lemma TotalGainOf(s: Snapshot, m: Direction)
    requires |s.tiles| == LENGTH
    ensures TotalGain(s, m) == Gain(Line(s.tiles, m, 0)) + Gain(Line(s.tiles, m, 1)) + Gain(Line(s.tiles, m, 2)) + Gain(Line(s.tiles, m, 3))
  {
  }

  // ---- Lines of the test boards ----

  /** The line o, o, o, o settles to o, o, o, o and earns 0 (it is already settled). */
  lemma Settleoooo()
    ensures Settle([o, o, o, o]) == [o, o, o, o] && Gain([o, o, o, o]) == 0
  {
    PackFour([o, o, o, o]);
    assert Pack([o, o, o, o]) == [];
    assert Combine(Pack([o, o, o, o])) == [];
    SumOverSmall([], MergedValue);
  }

  /** The line o, C, B, A settles to C, B, A, o and earns 0. */
  lemma SettleoCBA()
    ensures Settle([o, C, B, A]) == [C, B, A, o] && Gain([o, C, B, A]) == 0
  {
    PackFour([o, C, B, A]);
    assert Pack([o, C, B, A]) == [C, B, A];
    CombineThree(C, B, A);
    CombineTwo(B, A);
    CombineOne(A);
    assert Combine(Pack([o, C, B, A])) == [C, B, A];
    SumOverSmall([C, B, A], MergedValue);
  }

  /** The line B, o, A, C settles to B, A, C, o and earns 0. */
  lemma SettleBoAC()
    ensures Settle([B, o, A, C]) == [B, A, C, o] && Gain([B, o, A, C]) == 0
  {
    PackFour([B, o, A, C]);
    assert Pack([B, o, A, C]) == [B, A, C];
    CombineThree(B, A, C);
    CombineTwo(A, C);
    CombineOne(C);
    assert Combine(Pack([B, o, A, C])) == [B, A, C];
    SumOverSmall([B, A, C], MergedValue);
  }

  /** The line o, o, o, A settles to A, o, o, o and earns 0. */
  lemma SettleoooA()
    ensures Settle([o, o, o, A]) == [A, o, o, o] && Gain([o, o, o, A]) == 0
  {
    PackFour([o, o, o, A]);
    assert Pack([o, o, o, A]) == [A];
    CombineOne(A);
    assert Combine(Pack([o, o, o, A])) == [A];
    SumOverSmall([A], MergedValue);
  }

  /** The line C, C, B, A settles to D, B, A, o and earns 16. */
  lemma SettleCCBA()
    ensures Settle([C, C, B, A]) == [D, B, A, o] && Gain([C, C, B, A]) == 16
  {
    PackFour([C, C, B, A]);
    assert Pack([C, C, B, A]) == [C, C, B, A];
    CombineFour(C, C, B, A);
    CombineTwo(B, A);
    CombineOne(A);
    assert Combine(Pack([C, C, B, A])) == [Merged(4), B, A];
    SumOverSmall([Merged(4), B, A], MergedValue);
  }

  /** The line B, A, A, C settles to B, B, C, o and earns 4. */
  lemma SettleBAAC()
    ensures Settle([B, A, A, C]) == [B, B, C, o] && Gain([B, A, A, C]) == 4
  {
    PackFour([B, A, A, C]);
    assert Pack([B, A, A, C]) == [B, A, A, C];
    CombineFour(B, A, A, C);
    CombineThree(A, A, C);
    CombineOne(C);
    assert Combine(Pack([B, A, A, C])) == [B, Merged(2), C];
    SumOverSmall([B, Merged(2), C], MergedValue);
  }

  /** The line A, o, o, A settles to B, o, o, o and earns 4. */
  lemma SettleAooA()
    ensures Settle([A, o, o, A]) == [B, o, o, o] && Gain([A, o, o, A]) == 4
  {
    PackFour([A, o, o, A]);
    assert Pack([A, o, o, A]) == [A, A];
    CombineTwo(A, A);
    assert Combine(Pack([A, o, o, A])) == [Merged(2)];
    SumOverSmall([Merged(2)], MergedValue);
  }

  /** The line B, B, A, A settles to C, B, o, o and earns 12. */
  lemma SettleBBAA()
    ensures Settle([B, B, A, A]) == [C, B, o, o] && Gain([B, B, A, A]) == 12
  {
    PackFour([B, B, A, A]);
    assert Pack([B, B, A, A]) == [B, B, A, A];
    CombineFour(B, B, A, A);
    CombineTwo(A, A);
    assert Combine(Pack([B, B, A, A])) == [Merged(3), Merged(2)];
    SumOverSmall([Merged(3), Merged(2)], MergedValue);
  }

  /** The line B, A, B, A settles to B, A, B, A and earns 0 (it is already settled). */
  lemma SettleBABA()
    ensures Settle([B, A, B, A]) == [B, A, B, A] && Gain([B, A, B, A]) == 0
  {
    PackFour([B, A, B, A]);
    assert Pack([B, A, B, A]) == [B, A, B, A];
    CombineFour(B, A, B, A);
    CombineThree(A, B, A);
    CombineTwo(B, A);
    CombineOne(A);
    assert Combine(Pack([B, A, B, A])) == [B, A, B, A];
    SumOverSmall([B, A, B, A], MergedValue);
  }

  /** The line A, A, A, A settles to B, B, o, o and earns 8. */
  lemma SettleAAAA()
    ensures Settle([A, A, A, A]) == [B, B, o, o] && Gain([A, A, A, A]) == 8
  {
    PackFour([A, A, A, A]);
    assert Pack([A, A, A, A]) == [A, A, A, A];
    CombineFour(A, A, A, A);
    CombineTwo(A, A);
    assert Combine(Pack([A, A, A, A])) == [Merged(2), Merged(2)];
    SumOverSmall([Merged(2), Merged(2)], MergedValue);
  }

  /** The line A, B, B, A settles to A, C, A, o and earns 8. */
  lemma SettleABBA()
    ensures Settle([A, B, B, A]) == [A, C, A, o] && Gain([A, B, B, A]) == 8
  {
    PackFour([A, B, B, A]);
    assert Pack([A, B, B, A]) == [A, B, B, A];
    CombineFour(A, B, B, A);
    CombineThree(B, B, A);
    CombineOne(A);
    assert Combine(Pack([A, B, B, A])) == [A, Merged(3), A];
    SumOverSmall([A, Merged(3), A], MergedValue);
  }

  /** The line A, A, B, B settles to B, C, o, o and earns 12. */
  lemma SettleAABB()
    ensures Settle([A, A, B, B]) == [B, C, o, o] && Gain([A, A, B, B]) == 12
  {
    PackFour([A, A, B, B]);
    assert Pack([A, A, B, B]) == [A, A, B, B];
    CombineFour(A, A, B, B);
    CombineTwo(B, B);
    assert Combine(Pack([A, A, B, B])) == [Merged(2), Merged(3)];
    SumOverSmall([Merged(2), Merged(3)], MergedValue);
  }

  /** The line A, B, A, B settles to A, B, A, B and earns 0 (it is already settled). */
  lemma SettleABAB()
    ensures Settle([A, B, A, B]) == [A, B, A, B] && Gain([A, B, A, B]) == 0
  {
    PackFour([A, B, A, B]);
    assert Pack([A, B, A, B]) == [A, B, A, B];
    CombineFour(A, B, A, B);
    CombineThree(B, A, B);
    CombineTwo(A, B);
    CombineOne(B);
    assert Combine(Pack([A, B, A, B])) == [A, B, A, B];
    SumOverSmall([A, B, A, B], MergedValue);
  }

  /** The line B, A, A, B settles to B, B, B, o and earns 4. */
  lemma SettleBAAB()
    ensures Settle([B, A, A, B]) == [B, B, B, o] && Gain([B, A, A, B]) == 4
  {
    PackFour([B, A, A, B]);
    assert Pack([B, A, A, B]) == [B, A, A, B];
    CombineFour(B, A, A, B);
    CombineThree(A, A, B);
    CombineOne(B);
    assert Combine(Pack([B, A, A, B])) == [B, Merged(2), B];
    SumOverSmall([B, Merged(2), B], MergedValue);
  }

  /** The line A, o, o, o settles to A, o, o, o and earns 0 (it is already settled). */
  lemma SettleAooo()
    ensures Settle([A, o, o, o]) == [A, o, o, o] && Gain([A, o, o, o]) == 0
  {
    PackFour([A, o, o, o]);
    assert Pack([A, o, o, o]) == [A];
    CombineOne(A);
    assert Combine(Pack([A, o, o, o])) == [A];
    SumOverSmall([A], MergedValue);
  }

  /** The line o, o, A, A settles to B, o, o, o and earns 4. */
  lemma SettleooAA()
    ensures Settle([o, o, A, A]) == [B, o, o, o] && Gain([o, o, A, A]) == 4
  {
    PackFour([o, o, A, A]);
    assert Pack([o, o, A, A]) == [A, A];
    CombineTwo(A, A);
    assert Combine(Pack([o, o, A, A])) == [Merged(2)];
    SumOverSmall([Merged(2)], MergedValue);
  }

  /** The line A, A, o, o settles to B, o, o, o and earns 4. */
  lemma SettleAAoo()
    ensures Settle([A, A, o, o]) == [B, o, o, o] && Gain([A, A, o, o]) == 4
  {
    PackFour([A, A, o, o]);
    assert Pack([A, A, o, o]) == [A, A];
    CombineTwo(A, A);
    assert Combine(Pack([A, A, o, o])) == [Merged(2)];
    SumOverSmall([Merged(2)], MergedValue);
  }

  /** The line A, A, B, C settles to B, B, C, o and earns 4. */
  lemma SettleAABC()
    ensures Settle([A, A, B, C]) == [B, B, C, o] && Gain([A, A, B, C]) == 4
  {
    PackFour([A, A, B, C]);
    assert Pack([A, A, B, C]) == [A, A, B, C];
    CombineFour(A, A, B, C);
    CombineTwo(B, C);
    CombineOne(C);
    assert Combine(Pack([A, A, B, C])) == [Merged(2), B, C];
    SumOverSmall([Merged(2), B, C], MergedValue);
  }

  /** The line C, B, A, A settles to C, B, B, o and earns 4. */
  lemma SettleCBAA()
    ensures Settle([C, B, A, A]) == [C, B, B, o] && Gain([C, B, A, A]) == 4
  {
    PackFour([C, B, A, A]);
    assert Pack([C, B, A, A]) == [C, B, A, A];
    CombineFour(C, B, A, A);
    CombineThree(B, A, A);
    CombineTwo(A, A);
    assert Combine(Pack([C, B, A, A])) == [C, B, Merged(2)];
    SumOverSmall([C, B, Merged(2)], MergedValue);
  }

  /** The line J, H, D, A settles to J, H, D, A and earns 0 (it is already settled). */
  lemma SettleJHDA()
    ensures Settle([J, H, D, A]) == [J, H, D, A] && Gain([J, H, D, A]) == 0
  {
    PackFour([J, H, D, A]);
    assert Pack([J, H, D, A]) == [J, H, D, A];
    CombineFour(J, H, D, A);
    CombineThree(H, D, A);
    CombineTwo(D, A);
    CombineOne(A);
    assert Combine(Pack([J, H, D, A])) == [J, H, D, A];
    SumOverSmall([J, H, D, A], MergedValue);
  }

  /** The line K, I, E, A settles to K, I, E, A and earns 0 (it is already settled). */
  lemma SettleKIEA()
    ensures Settle([K, I, E, A]) == [K, I, E, A] && Gain([K, I, E, A]) == 0
  {
    PackFour([K, I, E, A]);
    assert Pack([K, I, E, A]) == [K, I, E, A];
    CombineFour(K, I, E, A);
    CombineThree(I, E, A);
    CombineTwo(E, A);
    CombineOne(A);
    assert Combine(Pack([K, I, E, A])) == [K, I, E, A];
    SumOverSmall([K, I, E, A], MergedValue);
  }

  /** The line I, J, F, B settles to I, J, F, B and earns 0 (it is already settled). */
  lemma SettleIJFB()
    ensures Settle([I, J, F, B]) == [I, J, F, B] && Gain([I, J, F, B]) == 0
  {
    PackFour([I, J, F, B]);
    assert Pack([I, J, F, B]) == [I, J, F, B];
    CombineFour(I, J, F, B);
    CombineThree(J, F, B);
    CombineTwo(F, B);
    CombineOne(B);
    assert Combine(Pack([I, J, F, B])) == [I, J, F, B];
    SumOverSmall([I, J, F, B], MergedValue);
  }

  /** The line H, K, G, C settles to H, K, G, C and earns 0 (it is already settled). */
  lemma SettleHKGC()
    ensures Settle([H, K, G, C]) == [H, K, G, C] && Gain([H, K, G, C]) == 0
  {
    PackFour([H, K, G, C]);
    assert Pack([H, K, G, C]) == [H, K, G, C];
    CombineFour(H, K, G, C);
    CombineThree(K, G, C);
    CombineTwo(G, C);
    CombineOne(C);
    assert Combine(Pack([H, K, G, C])) == [H, K, G, C];
    SumOverSmall([H, K, G, C], MergedValue);
  }

  /** The line A, D, H, J settles to A, D, H, J and earns 0 (it is already settled). */
  lemma SettleADHJ()
    ensures Settle([A, D, H, J]) == [A, D, H, J] && Gain([A, D, H, J]) == 0
  {
    PackFour([A, D, H, J]);
    assert Pack([A, D, H, J]) == [A, D, H, J];
    CombineFour(A, D, H, J);
    CombineThree(D, H, J);
    CombineTwo(H, J);
    CombineOne(J);
    assert Combine(Pack([A, D, H, J])) == [A, D, H, J];
    SumOverSmall([A, D, H, J], MergedValue);
  }

  /** The line A, E, I, K settles to A, E, I, K and earns 0 (it is already settled). */
  lemma SettleAEIK()
    ensures Settle([A, E, I, K]) == [A, E, I, K] && Gain([A, E, I, K]) == 0
  {
    PackFour([A, E, I, K]);
    assert Pack([A, E, I, K]) == [A, E, I, K];
    CombineFour(A, E, I, K);
    CombineThree(E, I, K);
    CombineTwo(I, K);
    CombineOne(K);
    assert Combine(Pack([A, E, I, K])) == [A, E, I, K];
    SumOverSmall([A, E, I, K], MergedValue);
  }

  /** The line B, F, J, I settles to B, F, J, I and earns 0 (it is already settled). */
  lemma SettleBFJI()
    ensures Settle([B, F, J, I]) == [B, F, J, I] && Gain([B, F, J, I]) == 0
  {
    PackFour([B, F, J, I]);
    assert Pack([B, F, J, I]) == [B, F, J, I];
    CombineFour(B, F, J, I);
    CombineThree(F, J, I);
    CombineTwo(J, I);
    CombineOne(I);
    assert Combine(Pack([B, F, J, I])) == [B, F, J, I];
    SumOverSmall([B, F, J, I], MergedValue);
  }

  /** The line C, G, K, H settles to C, G, K, H and earns 0 (it is already settled). */
  lemma SettleCGKH()
    ensures Settle([C, G, K, H]) == [C, G, K, H] && Gain([C, G, K, H]) == 0
  {
    PackFour([C, G, K, H]);
    assert Pack([C, G, K, H]) == [C, G, K, H];
    CombineFour(C, G, K, H);
    CombineThree(G, K, H);
    CombineTwo(K, H);
    CombineOne(H);
    assert Combine(Pack([C, G, K, H])) == [C, G, K, H];
    SumOverSmall([C, G, K, H], MergedValue);
  }

  /** The line H, I, A, A settles to H, I, B, o and earns 4. */
  lemma SettleHIAA()
    ensures Settle([H, I, A, A]) == [H, I, B, o] && Gain([H, I, A, A]) == 4
  {
    PackFour([H, I, A, A]);
    assert Pack([H, I, A, A]) == [H, I, A, A];
    CombineFour(H, I, A, A);
    CombineThree(I, A, A);
    CombineTwo(A, A);
    assert Combine(Pack([H, I, A, A])) == [H, I, Merged(2)];
    SumOverSmall([H, I, Merged(2)], MergedValue);
  }

  /** The line A, B, C, D settles to A, B, C, D and earns 0 (it is already settled). */
  lemma SettleABCD()
    ensures Settle([A, B, C, D]) == [A, B, C, D] && Gain([A, B, C, D]) == 0
  {
    PackFour([A, B, C, D]);
    assert Pack([A, B, C, D]) == [A, B, C, D];
    CombineFour(A, B, C, D);
    CombineThree(B, C, D);
    CombineTwo(C, D);
    CombineOne(D);
    assert Combine(Pack([A, B, C, D])) == [A, B, C, D];
    SumOverSmall([A, B, C, D], MergedValue);
  }

  /** The line E, F, G, H settles to E, F, G, H and earns 0 (it is already settled). */
  lemma SettleEFGH()
    ensures Settle([E, F, G, H]) == [E, F, G, H] && Gain([E, F, G, H]) == 0
  {
    PackFour([E, F, G, H]);
    assert Pack([E, F, G, H]) == [E, F, G, H];
    CombineFour(E, F, G, H);
    CombineThree(F, G, H);
    CombineTwo(G, H);
    CombineOne(H);
    assert Combine(Pack([E, F, G, H])) == [E, F, G, H];
    SumOverSmall([E, F, G, H], MergedValue);
  }

  /** The line I, J, K, J settles to I, J, K, J and earns 0 (it is already settled). */
  lemma SettleIJKJ()
    ensures Settle([I, J, K, J]) == [I, J, K, J] && Gain([I, J, K, J]) == 0
  {
    PackFour([I, J, K, J]);
    assert Pack([I, J, K, J]) == [I, J, K, J];
    CombineFour(I, J, K, J);
    CombineThree(J, K, J);
    CombineTwo(K, J);
    CombineOne(J);
    assert Combine(Pack([I, J, K, J])) == [I, J, K, J];
    SumOverSmall([I, J, K, J], MergedValue);
  }

  /** The line H, I, B, A settles to H, I, B, A and earns 0 (it is already settled). */
  lemma SettleHIBA()
    ensures Settle([H, I, B, A]) == [H, I, B, A] && Gain([H, I, B, A]) == 0
  {
    PackFour([H, I, B, A]);
    assert Pack([H, I, B, A]) == [H, I, B, A];
    CombineFour(H, I, B, A);
    CombineThree(I, B, A);
    CombineTwo(B, A);
    CombineOne(A);
    assert Combine(Pack([H, I, B, A])) == [H, I, B, A];
    SumOverSmall([H, I, B, A], MergedValue);
  }

  /** The line D, C, B, A settles to D, C, B, A and earns 0 (it is already settled). */
  lemma SettleDCBA()
    ensures Settle([D, C, B, A]) == [D, C, B, A] && Gain([D, C, B, A]) == 0
  {
    PackFour([D, C, B, A]);
    assert Pack([D, C, B, A]) == [D, C, B, A];
    CombineFour(D, C, B, A);
    CombineThree(C, B, A);
    CombineTwo(B, A);
    CombineOne(A);
    assert Combine(Pack([D, C, B, A])) == [D, C, B, A];
    SumOverSmall([D, C, B, A], MergedValue);
  }

  /** The line H, G, F, E settles to H, G, F, E and earns 0 (it is already settled). */
  lemma SettleHGFE()
    ensures Settle([H, G, F, E]) == [H, G, F, E] && Gain([H, G, F, E]) == 0
  {
    PackFour([H, G, F, E]);
    assert Pack([H, G, F, E]) == [H, G, F, E];
    CombineFour(H, G, F, E);
    CombineThree(G, F, E);
    CombineTwo(F, E);
    CombineOne(E);
    assert Combine(Pack([H, G, F, E])) == [H, G, F, E];
    SumOverSmall([H, G, F, E], MergedValue);
  }

  /** The line J, K, J, I settles to J, K, J, I and earns 0 (it is already settled). */
  lemma SettleJKJI()
    ensures Settle([J, K, J, I]) == [J, K, J, I] && Gain([J, K, J, I]) == 0
  {
    PackFour([J, K, J, I]);
    assert Pack([J, K, J, I]) == [J, K, J, I];
    CombineFour(J, K, J, I);
    CombineThree(K, J, I);
    CombineTwo(J, I);
    CombineOne(I);
    assert Combine(Pack([J, K, J, I])) == [J, K, J, I];
    SumOverSmall([J, K, J, I], MergedValue);
  }

  /** The line A, B, I, H settles to A, B, I, H and earns 0 (it is already settled). */
  lemma SettleABIH()
    ensures Settle([A, B, I, H]) == [A, B, I, H] && Gain([A, B, I, H]) == 0
  {
    PackFour([A, B, I, H]);
    assert Pack([A, B, I, H]) == [A, B, I, H];
    CombineFour(A, B, I, H);
    CombineThree(B, I, H);
    CombineTwo(I, H);
    CombineOne(H);
    assert Combine(Pack([A, B, I, H])) == [A, B, I, H];
    SumOverSmall([A, B, I, H], MergedValue);
  }

  /** The line A, E, I, H settles to A, E, I, H and earns 0 (it is already settled). */
  lemma SettleAEIH()
    ensures Settle([A, E, I, H]) == [A, E, I, H] && Gain([A, E, I, H]) == 0
  {
    PackFour([A, E, I, H]);
    assert Pack([A, E, I, H]) == [A, E, I, H];
    CombineFour(A, E, I, H);
    CombineThree(E, I, H);
    CombineTwo(I, H);
    CombineOne(H);
    assert Combine(Pack([A, E, I, H])) == [A, E, I, H];
    SumOverSmall([A, E, I, H], MergedValue);
  }

  /** The line C, G, K, B settles to C, G, K, B and earns 0 (it is already settled). */
  lemma SettleCGKB()
    ensures Settle([C, G, K, B]) == [C, G, K, B] && Gain([C, G, K, B]) == 0
  {
    PackFour([C, G, K, B]);
    assert Pack([C, G, K, B]) == [C, G, K, B];
    CombineFour(C, G, K, B);
    CombineThree(G, K, B);
    CombineTwo(K, B);
    CombineOne(B);
    assert Combine(Pack([C, G, K, B])) == [C, G, K, B];
    SumOverSmall([C, G, K, B], MergedValue);
  }

  /** The line D, H, J, A settles to D, H, J, A and earns 0 (it is already settled). */
  lemma SettleDHJA()
    ensures Settle([D, H, J, A]) == [D, H, J, A] && Gain([D, H, J, A]) == 0
  {
    PackFour([D, H, J, A]);
    assert Pack([D, H, J, A]) == [D, H, J, A];
    CombineFour(D, H, J, A);
    CombineThree(H, J, A);
    CombineTwo(J, A);
    CombineOne(A);
    assert Combine(Pack([D, H, J, A])) == [D, H, J, A];
    SumOverSmall([D, H, J, A], MergedValue);
  }

  /** The line H, I, E, A settles to H, I, E, A and earns 0 (it is already settled). */
  lemma SettleHIEA()
    ensures Settle([H, I, E, A]) == [H, I, E, A] && Gain([H, I, E, A]) == 0
  {
    PackFour([H, I, E, A]);
    assert Pack([H, I, E, A]) == [H, I, E, A];
    CombineFour(H, I, E, A);
    CombineThree(I, E, A);
    CombineTwo(E, A);
    CombineOne(A);
    assert Combine(Pack([H, I, E, A])) == [H, I, E, A];
    SumOverSmall([H, I, E, A], MergedValue);
  }

  /** The line B, K, G, C settles to B, K, G, C and earns 0 (it is already settled). */
  lemma SettleBKGC()
    ensures Settle([B, K, G, C]) == [B, K, G, C] && Gain([B, K, G, C]) == 0
  {
    PackFour([B, K, G, C]);
    assert Pack([B, K, G, C]) == [B, K, G, C];
    CombineFour(B, K, G, C);
    CombineThree(K, G, C);
    CombineTwo(G, C);
    CombineOne(C);
    assert Combine(Pack([B, K, G, C])) == [B, K, G, C];
    SumOverSmall([B, K, G, C], MergedValue);
  }

  /** The line A, J, H, D settles to A, J, H, D and earns 0 (it is already settled). */
  lemma SettleAJHD()
    ensures Settle([A, J, H, D]) == [A, J, H, D] && Gain([A, J, H, D]) == 0
  {
    PackFour([A, J, H, D]);
    assert Pack([A, J, H, D]) == [A, J, H, D];
    CombineFour(A, J, H, D);
    CombineThree(J, H, D);
    CombineTwo(H, D);
    CombineOne(D);
    assert Combine(Pack([A, J, H, D])) == [A, J, H, D];
    SumOverSmall([A, J, H, D], MergedValue);
  }

  // ---- Whole boards ----

  /** `simple_move`: every row slides to the right without a merge and the score stays 0. */
  lemma SimpleMove()
    ensures Move(Snapshot([o, o, o, o] +
                      [A, B, C, o] +
                      [C, A, o, B] +
                      [A, o, o, o], 0), Right)
         == Some(Snapshot([o, o, o, o] +
                           [o, A, B, C] +
                           [o, C, A, B] +
                           [o, o, o, A], 0))
  {
    var s := Snapshot([o, o, o, o] + [A, B, C, o] + [C, A, o, B] + [A, o, o, o], 0);
    var e := [o, o, o, o] + [o, A, B, C] + [o, C, A, B] + [o, o, o, A];
    BoardOfRows([o, o, o, o], [A, B, C, o], [C, A, o, B], [A, o, o, o]);
    RowLinesOfRows([o, o, o, o], [A, B, C, o], [C, A, o, B], [A, o, o, o]);
    RowLinesOfRows([o, o, o, o], [o, A, B, C], [o, C, A, B], [o, o, o, A]);
    Settleoooo();
    SettleoCBA();
    SettleBoAC();
    SettleoooA();
    Moves(s, Right, 1);
    MovedTiles(s, Right, e);
    MovedScore(s, Right, 0);
  }

  /** `simple_merge`: three rows merge once each, for 16 + 4 + 4 points. */
  lemma SimpleMerge()
    ensures Move(Snapshot([o, o, o, o] +
                      [A, B, C, C] +
                      [C, A, A, B] +
                      [A, o, o, A], 0), Right)
         == Some(Snapshot([o, o, o, o] +
                           [o, A, B, D] +
                           [o, C, B, B] +
                           [o, o, o, B], 24))
  {
    var s := Snapshot([o, o, o, o] + [A, B, C, C] + [C, A, A, B] + [A, o, o, A], 0);
    var e := [o, o, o, o] + [o, A, B, D] + [o, C, B, B] + [o, o, o, B];
    BoardOfRows([o, o, o, o], [A, B, C, C], [C, A, A, B], [A, o, o, A]);
    RowLinesOfRows([o, o, o, o], [A, B, C, C], [C, A, A, B], [A, o, o, A]);
    RowLinesOfRows([o, o, o, o], [o, A, B, D], [o, C, B, B], [o, o, o, B]);
    Settleoooo();
    SettleCCBA();
    SettleBAAC();
    SettleAooA();
    Moves(s, Right, 1);
    MovedTiles(s, Right, e);
    MovedScore(s, Right, 24);
  }

  /** `tricky_merge`: a merged tile does not merge again in the same move, and pairs form from the right edge. */
  lemma TrickyMerge()
    ensures Move(Snapshot([A, A, B, B] +
                      [A, B, A, B] +
                      [A, A, A, A] +
                      [A, B, B, A], 0), Right)
         == Some(Snapshot([o, o, B, C] +
                           [A, B, A, B] +
                           [o, o, B, B] +
                           [o, A, C, A], 28))
  {
    var s := Snapshot([A, A, B, B] + [A, B, A, B] + [A, A, A, A] + [A, B, B, A], 0);
    var e := [o, o, B, C] + [A, B, A, B] + [o, o, B, B] + [o, A, C, A];
    BoardOfRows([A, A, B, B], [A, B, A, B], [A, A, A, A], [A, B, B, A]);
    RowLinesOfRows([A, A, B, B], [A, B, A, B], [A, A, A, A], [A, B, B, A]);
    RowLinesOfRows([o, o, B, C], [A, B, A, B], [o, o, B, B], [o, A, C, A]);
    SettleBBAA();
    SettleBABA();
    SettleAAAA();
    SettleABBA();
    Moves(s, Right, 0);
    MovedTiles(s, Right, e);
    MovedScore(s, Right, 28);
  }

  /** `other_direction`: the same board moved to the left pairs its tiles from the left edge. */
  lemma OtherDirection()
    ensures Move(Snapshot([A, A, B, B] +
                      [A, B, A, B] +
                      [A, A, A, A] +
                      [A, B, B, A], 0), Left)
         == Some(Snapshot([B, C, o, o] +
                           [A, B, A, B] +
                           [B, B, o, o] +
                           [A, C, A, o], 28))
  {
    var s := Snapshot([A, A, B, B] + [A, B, A, B] + [A, A, A, A] + [A, B, B, A], 0);
    var e := [B, C, o, o] + [A, B, A, B] + [B, B, o, o] + [A, C, A, o];
    BoardOfRows([A, A, B, B], [A, B, A, B], [A, A, A, A], [A, B, B, A]);
    RowLinesOfRows([A, A, B, B], [A, B, A, B], [A, A, A, A], [A, B, B, A]);
    RowLinesOfRows([B, C, o, o], [A, B, A, B], [B, B, o, o], [A, C, A, o]);
    SettleAABB();
    SettleABAB();
    SettleAAAA();
    SettleABBA();
    Moves(s, Left, 0);
    MovedTiles(s, Left, e);
    MovedScore(s, Left, 28);
  }

  /** `up_and_down`, first half: the board moved up. */
  lemma MergeUp()
    ensures Move(Snapshot([A, A, B, B] +
                      [A, B, A, B] +
                      [A, A, A, A] +
                      [A, B, B, A], 0), Up)
         == Some(Snapshot([B, A, B, C] +
                           [B, B, B, B] +
                           [o, A, B, o] +
                           [o, B, o, o], 24))
  {
    var s := Snapshot([A, A, B, B] + [A, B, A, B] + [A, A, A, A] + [A, B, B, A], 0);
    var e := [B, A, B, C] + [B, B, B, B] + [o, A, B, o] + [o, B, o, o];
    BoardOfRows([A, A, B, B], [A, B, A, B], [A, A, A, A], [A, B, B, A]);
    ColumnLinesOfRows([A, A, B, B], [A, B, A, B], [A, A, A, A], [A, B, B, A]);
    ColumnLinesOfRows([B, A, B, C], [B, B, B, B], [o, A, B, o], [o, B, o, o]);
    SettleAAAA();
    SettleABAB();
    SettleBAAB();
    SettleBBAA();
    Moves(s, Up, 0);
    MovedTiles(s, Up, e);
    MovedScore(s, Up, 24);
  }

  /** `up_and_down`, second half: the board moved down. */
  lemma MergeDown()
    ensures Move(Snapshot([A, A, B, B] +
                      [A, B, A, B] +
                      [A, A, A, A] +
                      [A, B, B, A], 0), Down)
         == Some(Snapshot([o, A, o, o] +
                           [o, B, B, o] +
                           [B, A, B, C] +
                           [B, B, B, B], 24))
  {
    var s := Snapshot([A, A, B, B] + [A, B, A, B] + [A, A, A, A] + [A, B, B, A], 0);
    var e := [o, A, o, o] + [o, B, B, o] + [B, A, B, C] + [B, B, B, B];
    BoardOfRows([A, A, B, B], [A, B, A, B], [A, A, A, A], [A, B, B, A]);
    ColumnLinesOfRows([A, A, B, B], [A, B, A, B], [A, A, A, A], [A, B, B, A]);
    ColumnLinesOfRows([o, A, o, o], [o, B, B, o], [B, A, B, C], [B, B, B, B]);
    SettleAAAA();
    SettleBABA();
    SettleBAAB();
    SettleAABB();
    Moves(s, Down, 0);
    MovedTiles(s, Down, e);
    MovedScore(s, Down, 24);
  }

  // ---- can_move ----

  /** `can_move`, first board: a lone tile in the top left corner moves down and right, not up or left. */
  lemma LoneTileCanMove()
    ensures var s := Snapshot([A, o, o, o] +
                             [o, o, o, o] +
                             [o, o, o, o] +
                             [o, o, o, o], 0);
            Move(s, Down).Some? && Move(s, Right).Some? && Move(s, Up).None? && Move(s, Left).None?
  {
    var s := Snapshot([A, o, o, o] + [o, o, o, o] + [o, o, o, o] + [o, o, o, o], 0);
    BoardOfRows([A, o, o, o], [o, o, o, o], [o, o, o, o], [o, o, o, o]);
    RowLinesOfRows([A, o, o, o], [o, o, o, o], [o, o, o, o], [o, o, o, o]);
    ColumnLinesOfRows([A, o, o, o], [o, o, o, o], [o, o, o, o], [o, o, o, o]);
    SettleoooA();
    Moves(s, Down, 0);
    SettleoooA();
    Moves(s, Right, 0);
    SettleAooo(); Settleoooo();
    Stuck(s, Up);
    SettleAooo(); Settleoooo();
    Stuck(s, Left);
  }

  /** `can_move`, second board: a pair in the top row moves down, right and left, not up. */
  lemma PairCanMove()
    ensures var s := Snapshot([A, A, o, o] +
                             [o, o, o, o] +
                             [o, o, o, o] +
                             [o, o, o, o], 0);
            Move(s, Down).Some? && Move(s, Right).Some? && Move(s, Left).Some? && Move(s, Up).None?
  {
    var s := Snapshot([A, A, o, o] + [o, o, o, o] + [o, o, o, o] + [o, o, o, o], 0);
    BoardOfRows([A, A, o, o], [o, o, o, o], [o, o, o, o], [o, o, o, o]);
    RowLinesOfRows([A, A, o, o], [o, o, o, o], [o, o, o, o], [o, o, o, o]);
    ColumnLinesOfRows([A, A, o, o], [o, o, o, o], [o, o, o, o], [o, o, o, o]);
    SettleoooA();
    Moves(s, Down, 0);
    SettleooAA();
    Moves(s, Right, 0);
    SettleAAoo();
    Moves(s, Left, 0);
    SettleAooo(); Settleoooo();
    Stuck(s, Up);
  }

  /** `can_move`, third board: a full board whose only pair is in the top row moves left and right, not down or up. */
  lemma FullBoardCanMove()
    ensures var s := Snapshot([A, A, B, C] +
                             [D, E, F, G] +
                             [H, I, J, K] +
                             [J, K, I, H], 0);
            Move(s, Left).Some? && Move(s, Right).Some? && Move(s, Down).None? && Move(s, Up).None?
  {
    var s := Snapshot([A, A, B, C] + [D, E, F, G] + [H, I, J, K] + [J, K, I, H], 0);
    BoardOfRows([A, A, B, C], [D, E, F, G], [H, I, J, K], [J, K, I, H]);
    RowLinesOfRows([A, A, B, C], [D, E, F, G], [H, I, J, K], [J, K, I, H]);
    ColumnLinesOfRows([A, A, B, C], [D, E, F, G], [H, I, J, K], [J, K, I, H]);
    SettleAABC();
    Moves(s, Left, 0);
    SettleCBAA();
    Moves(s, Right, 0);
    SettleHKGC(); SettleIJFB(); SettleJHDA(); SettleKIEA();
    Stuck(s, Down);
    SettleADHJ(); SettleAEIK(); SettleBFJI(); SettleCGKH();
    Stuck(s, Up);
  }

  // ---- has_possible_moves ----

  /** `has_possible_moves`, first board: a board with an empty cell has a possible move. */
  lemma EmptyCellHasMoves()
    ensures var s := Snapshot([A, B, C, D] +
                             [E, F, G, H] +
                             [I, J, K, J] +
                             [H, I, J, o], 0);
            (|EmptyTiles(s.tiles)| > 0 || exists d :: Move(s, d).Some?)
  {
    var s := Snapshot([A, B, C, D] + [E, F, G, H] + [I, J, K, J] + [H, I, J, o], 0);
    assert s.tiles[15] == Empty;
  }

  /** `has_possible_moves`, second board: a full board with a pair has a possible move. */
  lemma PairHasMoves()
    ensures var s := Snapshot([A, B, C, D] +
                             [E, F, G, H] +
                             [I, J, K, J] +
                             [H, I, A, A], 0);
            (|EmptyTiles(s.tiles)| > 0 || exists d :: Move(s, d).Some?)
  {
    var s := Snapshot([A, B, C, D] + [E, F, G, H] + [I, J, K, J] + [H, I, A, A], 0);
    BoardOfRows([A, B, C, D], [E, F, G, H], [I, J, K, J], [H, I, A, A]);
    RowLinesOfRows([A, B, C, D], [E, F, G, H], [I, J, K, J], [H, I, A, A]);
    SettleHIAA();
    Moves(s, Left, 3);
  }

  /** `has_possible_moves`, third board: no row moves. */
  lemma GameOverRows()
    ensures var s := Snapshot([A, B, C, D] +
                             [E, F, G, H] +
                             [I, J, K, J] +
                             [H, I, B, A], 0);
            Move(s, Left).None? && Move(s, Right).None?
  {
    var s := Snapshot([A, B, C, D] + [E, F, G, H] + [I, J, K, J] + [H, I, B, A], 0);
    BoardOfRows([A, B, C, D], [E, F, G, H], [I, J, K, J], [H, I, B, A]);
    RowLinesOfRows([A, B, C, D], [E, F, G, H], [I, J, K, J], [H, I, B, A]);
    SettleABCD(); SettleEFGH(); SettleHIBA(); SettleIJKJ();
    Stuck(s, Left);
    SettleABIH(); SettleDCBA(); SettleHGFE(); SettleJKJI();
    Stuck(s, Right);
  }

  /** `has_possible_moves`, third board: no column moves. */
  lemma GameOverColumns()
    ensures var s := Snapshot([A, B, C, D] +
                             [E, F, G, H] +
                             [I, J, K, J] +
                             [H, I, B, A], 0);
            Move(s, Up).None? && Move(s, Down).None?
  {
    var s := Snapshot([A, B, C, D] + [E, F, G, H] + [I, J, K, J] + [H, I, B, A], 0);
    BoardOfRows([A, B, C, D], [E, F, G, H], [I, J, K, J], [H, I, B, A]);
    ColumnLinesOfRows([A, B, C, D], [E, F, G, H], [I, J, K, J], [H, I, B, A]);
    SettleAEIH(); SettleBFJI(); SettleCGKB(); SettleDHJA();
    Stuck(s, Up);
    SettleAJHD(); SettleBKGC(); SettleHIEA(); SettleIJFB();
    Stuck(s, Down);
  }

  /** `has_possible_moves`, third board: a full board without neighbouring equal tiles has none. */
  lemma GameOver()
    ensures var s := Snapshot([A, B, C, D] +
                             [E, F, G, H] +
                             [I, J, K, J] +
                             [H, I, B, A], 0);
            !(|EmptyTiles(s.tiles)| > 0 || exists d :: Move(s, d).Some?)
  {
    GameOverRows();
    GameOverColumns();
    var s := Snapshot([A, B, C, D] + [E, F, G, H] + [I, J, K, J] + [H, I, B, A], 0);
    FilledBoard([A, B, C, D], [E, F, G, H], [I, J, K, J], [H, I, B, A]);
    FullHasNoEmptyTiles(s.tiles);
    forall d: Direction
      ensures Move(s, d).None?
    {
      assert d == Left || d == Right || d == Up || d == Down;
    }
  }
}
