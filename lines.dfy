/**
 * The classic description of a move, one line at a time: read a row or a
 * column starting from the edge the tiles move toward, drop its empty cells,
 * merge equal neighbours pairwise from that edge (a merged tile does not merge
 * again) and pad with empty cells. This is the reference the cell-by-cell
 * engine of src/board/mod.rs is proved equal to, in module LineMoves.
 */
module Lines {
  import opened Tiles
  import opened Tallies

  /** The non-empty tiles of a line, in order. */
  function Pack(line: seq<Tile>): (r: seq<Tile>)
    ensures |r| <= |line|
    ensures forall j :: 0 <= j < |r| ==> r[j] != Empty
    ensures (forall j :: 0 <= j < |line| ==> !line[j].Merged?) ==> forall j :: 0 <= j < |r| ==> r[j].Occupied?
  {
    if line == [] then []
    else if line[|line| - 1] == Empty then Pack(line[..|line| - 1])
    else Pack(line[..|line| - 1]) + [line[|line| - 1]]
  }

  /** Greedy pairing from the front: two equal settled tiles become one
      just-merged tile of the next rank, which pairs with nothing. */
  function Combine(ts: seq<Tile>): (r: seq<Tile>)
    ensures |r| <= |ts|
    ensures ts != [] ==> r != []
    ensures (forall j :: 0 <= j < |ts| ==> ts[j].Occupied?) ==> forall j :: 0 <= j < |r| ==> !r[j].Empty?
  {
    if |ts| >= 2 && CanMerge(ts[0], ts[1]) then [Next(ts[0])] + Combine(ts[2..])
    else if ts != [] then [ts[0]] + Combine(ts[1..])
    else []
  }

  /** The merged line with every tile settled, padded with empty cells to the
      length of the line. */
  function Settle(line: seq<Tile>): (r: seq<Tile>)
    ensures |r| == |line|
  {
    var c := Combine(Pack(line));
    seq(|line|, q requires 0 <= q < |line| => if q < |c| then Finalize(c[q]) else Empty)
  }

  /** The score a line earns: the value of the tiles its merges produce. */
  function Gain(line: seq<Tile>): (g: nat)
  {
    SumOver(Combine(Pack(line)), MergedValue)
  }

  // ---- The same, one tile at a time ----

  /** Adds tile t after the tiles acc already placed: it merges with the last of
      them when it can, and otherwise goes next to it. */
  function Absorb(acc: seq<Tile>, t: Tile): (r: seq<Tile>)
    ensures t != Empty && (forall j :: 0 <= j < |acc| ==> acc[j] != Empty) ==> forall j :: 0 <= j < |r| ==> r[j] != Empty
  {
    if acc != [] && CanMerge(t, acc[|acc| - 1]) then acc[..|acc| - 1] + [Next(t)] else acc + [t]
  }

  /** The tiles placed after the tiles of line have been added one by one. */
  function AbsorbAll(line: seq<Tile>): (r: seq<Tile>)
    ensures |r| <= |line|
    ensures forall j :: 0 <= j < |r| ==> r[j] != Empty
  {
    if line == [] then []
    else
      var acc := AbsorbAll(line[..|line| - 1]);
      var t := line[|line| - 1];
      if t == Empty then acc else Absorb(acc, t)
  }

  /** Adding one more settled tile to a paired line pairs it with the last tile
      when that one is settled and equal, and places it after it otherwise. */
  lemma {:induction false} CombineSnoc(ts: seq<Tile>, x: Tile)
    requires forall j :: 0 <= j < |ts| ==> ts[j].Occupied?
    requires x.Occupied?
    ensures Combine(ts + [x]) == Absorb(Combine(ts), x)
    decreases |ts|
  {
    if |ts| == 0 {
      assert ts + [x] == [x];
    } else if |ts| == 1 {
      assert ts + [x] == [ts[0], x];
      assert [ts[0], x][2..] == [];
      assert [ts[0], x][1..] == [x];
    } else if CanMerge(ts[0], ts[1]) {
      assert (ts + [x])[2..] == ts[2..] + [x];
      CombineSnoc(ts[2..], x);
      AbsorbCons(Next(ts[0]), Combine(ts[2..]), x);
    } else {
      assert (ts + [x])[1..] == ts[1..] + [x];
      CombineSnoc(ts[1..], x);
      AbsorbCons(ts[0], Combine(ts[1..]), x);
    }
  }

  /** Adding a tile after a fixed first tile h leaves h in front, unless h is
      the only tile and the new one merges with it. */
  lemma AbsorbCons(h: Tile, c: seq<Tile>, x: Tile)
    requires c != [] || !CanMerge(x, h)
    ensures Absorb([h] + c, x) == [h] + Absorb(c, x)
  {
    if c != [] {
      assert ([h] + c)[..|c|] == [h] + c[..|c| - 1];
    }
  }

  /** Adding the tiles of a line one by one gives the greedy pairing of its
      non-empty tiles. */
  lemma {:induction false} AbsorbAllIsCombine(line: seq<Tile>)
    requires forall j :: 0 <= j < |line| ==> !line[j].Merged?
    ensures AbsorbAll(line) == Combine(Pack(line))
  {
    if line != [] {
      var init := line[..|line| - 1];
      AbsorbAllIsCombine(init);
      if line[|line| - 1] != Empty {
        CombineSnoc(Pack(init), line[|line| - 1]);
      }
    }
  }

  /** Adding a tile raises the value of the just-merged tiles by the value of
      the merge it makes, if any. */
  lemma AbsorbGain(acc: seq<Tile>, t: Tile)
    requires t.Occupied?
    ensures var merges := acc != [] && CanMerge(t, acc[|acc| - 1]);
            SumOver(Absorb(acc, t), MergedValue) == SumOver(acc, MergedValue) + (if merges then Score(Next(t)) else 0)
  {
    var r := Absorb(acc, t);
    if acc != [] && CanMerge(t, acc[|acc| - 1]) {
      assert r[..|r| - 1] == acc[..|acc| - 1];
    } else {
      assert r[..|r| - 1] == acc;
    }
  }

  /** The line after its first p cells have been added one by one: the tiles
      placed so far from the edge, then empty cells, then the cells not yet
      reached. */
  function LineState(line: seq<Tile>, p: nat): (r: seq<Tile>)
    requires p <= |line|
    ensures |r| == |line|
  {
    var acc := AbsorbAll(line[..p]);
    acc + seq(p - |acc|, _ => Empty) + line[p..]
  }

  /** Cell by cell, the state after p cells: the placed tiles, which are not
      empty, then empty cells up to p, then the original cells. */
  lemma LineStateShape(line: seq<Tile>, p: nat)
    requires p <= |line|
    ensures var acc := AbsorbAll(line[..p]); var r := LineState(line, p);
            && (forall u :: 0 <= u < |acc| ==> r[u] == acc[u] && r[u] != Empty)
            && (forall u :: |acc| <= u < p ==> r[u] == Empty)
            && (forall u :: p <= u < |line| ==> r[u] == line[u])
  {
  }

  /** Before any cell is added the state is the line itself. */
  lemma LineStateStart(line: seq<Tile>)
    ensures LineState(line, 0) == line
  {
    assert line[..0] == [];
  }

  /** Adding cell q of the line: an empty cell changes nothing; a tile that can
      merge with the last placed tile leaves its cell and replaces that tile by
      the merged one; any other tile leaves its cell and goes right after the
      placed tiles (which may be its own cell). */
  lemma LineStateStep(line: seq<Tile>, q: nat)
    requires q < |line|
    ensures var acc := AbsorbAll(line[..q]); var a := |acc|; var t := line[q]; var cur := LineState(line, q);
            && (t == Empty ==> LineState(line, q + 1) == cur)
            && (t != Empty && a > 0 && CanMerge(t, acc[a - 1]) ==>
                  LineState(line, q + 1) == cur[q := Empty][a - 1 := Next(t)])
            && (t != Empty && !(a > 0 && CanMerge(t, acc[a - 1])) ==>
                  LineState(line, q + 1) == cur[q := Empty][a := t])
  {
    var acc := AbsorbAll(line[..q]);
    if line[q] == Empty {
      LineStateSkip(line, q);
    } else if |acc| > 0 && CanMerge(line[q], acc[|acc| - 1]) {
      LineStateMerge(line, q);
    } else {
      LineStatePlace(line, q);
    }
  }

  /** An empty cell leaves the state as it is. */
  lemma LineStateSkip(line: seq<Tile>, q: nat)
    requires q < |line| && line[q] == Empty
    ensures LineState(line, q + 1) == LineState(line, q)
  {
    assert line[..q + 1][..q] == line[..q];
    var next := LineState(line, q + 1);
    var cur := LineState(line, q);
    LineStateShape(line, q);
    LineStateShape(line, q + 1);
    forall u | 0 <= u < |line|
      ensures next[u] == cur[u]
    {
    }
  }

  /** A tile that merges with the last placed tile leaves its cell and replaces
      that tile by the merged one. */
  lemma LineStateMerge(line: seq<Tile>, q: nat)
    requires q < |line| && line[q] != Empty
    requires var acc := AbsorbAll(line[..q]); |acc| > 0 && CanMerge(line[q], acc[|acc| - 1])
    ensures var acc := AbsorbAll(line[..q]);
            LineState(line, q + 1) == LineState(line, q)[q := Empty][|acc| - 1 := Next(line[q])]
  {
    var acc := AbsorbAll(line[..q]);
    var a := |acc|;
    var t := line[q];
    assert line[..q + 1][..q] == line[..q];
    var next := LineState(line, q + 1);
    var cur := LineState(line, q);
    LineStateShape(line, q);
    LineStateShape(line, q + 1);
    var acc' := acc[..a - 1] + [Next(t)];
    assert AbsorbAll(line[..q + 1]) == acc';
    var want := cur[q := Empty][a - 1 := Next(t)];
    forall u | 0 <= u < |line|
      ensures next[u] == want[u]
    {
      if u < a - 1 {
        assert acc'[u] == acc[u];
      }
    }
    assert next == want;
  }

  /** Any other tile leaves its cell and goes right after the placed tiles. */
  lemma LineStatePlace(line: seq<Tile>, q: nat)
    requires q < |line| && line[q] != Empty
    requires var acc := AbsorbAll(line[..q]); !(|acc| > 0 && CanMerge(line[q], acc[|acc| - 1]))
    ensures LineState(line, q + 1) == LineState(line, q)[q := Empty][|AbsorbAll(line[..q])| := line[q]]
  {
    var acc := AbsorbAll(line[..q]);
    var a := |acc|;
    var t := line[q];
    assert line[..q + 1][..q] == line[..q];
    var next := LineState(line, q + 1);
    var cur := LineState(line, q);
    LineStateShape(line, q);
    LineStateShape(line, q + 1);
    var acc' := acc + [t];
    assert AbsorbAll(line[..q + 1]) == acc';
    var want := cur[q := Empty][a := t];
    forall u | 0 <= u < |line|
      ensures next[u] == want[u]
    {
      if u < a {
        assert acc'[u] == acc[u];
      }
    }
    assert next == want;
  }

  /** The score earned by the first p cells of the line. */
  function PartialGain(line: seq<Tile>, p: nat): (g: nat)
    requires p <= |line|
  {
    SumOver(AbsorbAll(line[..p]), MergedValue)
  }

  /** Adding cell q of the line earns the value of the merge it makes, if any. */
  lemma PartialGainStep(line: seq<Tile>, q: nat)
    requires q < |line| && !line[q].Merged?
    ensures var acc := AbsorbAll(line[..q]); var t := line[q];
            PartialGain(line, q + 1) == PartialGain(line, q)
              + (if t != Empty && |acc| > 0 && CanMerge(t, acc[|acc| - 1]) then Score(Next(t)) else 0)
  {
    assert line[..q + 1][..q] == line[..q];
    if line[q] != Empty {
      AbsorbGain(AbsorbAll(line[..q]), line[q]);
    }
  }

  /** Once every cell has been added, the line settled cell by cell is the
      reference result. */
  lemma SettleIsFinalState(line: seq<Tile>)
    requires forall j :: 0 <= j < |line| ==> !line[j].Merged?
    ensures forall q :: 0 <= q < |line| ==> Settle(line)[q] == Finalize(LineState(line, |line|)[q])
  {
    assert line[..|line|] == line;
    AbsorbAllIsCombine(line);
    LineStateShape(line, |line|);
  }

  /** A line that adding every cell leaves as it was is already settled. */
  lemma SettledWhenFinal(line: seq<Tile>)
    requires forall j :: 0 <= j < |line| ==> !line[j].Merged?
    requires LineState(line, |line|) == line
    ensures Settle(line) == line
  {
    SettleIsFinalState(line);
  }

  /** A line whose tiles all stand before its empty cells packs to those tiles. */
  lemma {:induction false} PackFront(line: seq<Tile>, c: nat)
    requires c <= |line|
    requires forall u :: 0 <= u < c ==> line[u] != Empty
    requires forall u :: c <= u < |line| ==> line[u] == Empty
    ensures Pack(line) == line[..c]
  {
    if line != [] {
      var init := line[..|line| - 1];
      if c == |line| {
        PackFront(init, c - 1);
        assert init[..c - 1] + [line[c - 1]] == line[..c];
      } else {
        PackFront(init, c);
        assert init[..c] == line[..c];
      }
    }
  }

  /** The pairing keeps every tile exactly when no two neighbours can merge. */
  lemma {:induction false} CombineKeepsAll(ts: seq<Tile>, u: nat)
    requires |Combine(ts)| == |ts| && 0 < u < |ts|
    ensures !CanMerge(ts[u - 1], ts[u])
  {
    if !CanMerge(ts[0], ts[1]) && u > 1 {
      CombineKeepsAll(ts[1..], u - 1);
    }
  }

  /** A line that settling leaves as it is has its tiles in front of its empty
      cells, and no two neighbouring tiles are equal. */
  lemma SettledIsStable(line: seq<Tile>, q: nat)
    requires forall j :: 0 <= j < |line| ==> !line[j].Merged?
    requires Settle(line) == line && 0 < q < |line| && line[q] != Empty
    ensures line[q - 1] != Empty && line[q - 1] != line[q]
  {
    var ts := Pack(line);
    var c := Combine(ts);
    assert q < |c|;
    assert line[q - 1] == Finalize(c[q - 1]);
    forall u | 0 <= u < |c|
      ensures line[u] != Empty
    {
      assert line[u] == Finalize(c[u]);
    }
    PackFront(line, |c|);
    CombineKeepsAll(ts, q);
  }
}
