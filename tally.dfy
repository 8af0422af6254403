/**
 * Sums over the cells of a board, used to state what a move conserves:
 * how many tiles there are, their total face value, and the merges pending.
 */
module Tallies {
  import opened Tiles

  /** The sum of f over the cells of s. */
  function SumOver(s: seq<Tile>, f: Tile -> nat): (total: nat)
  {
    if s == [] then 0 else SumOver(s[..|s| - 1], f) + f(s[|s| - 1])
  }

  function Present(t: Tile): (v: nat) { if t.Empty? then 0 else 1 }
  function MergedMark(t: Tile): (v: nat) { if t.Merged? then 1 else 0 }
  function MergedValue(t: Tile): (v: nat) { if t.Merged? then Score(t) else 0 }

  /** The number of non-empty cells. */
  function Count(s: seq<Tile>): (n: nat) { SumOver(s, Present) }

  /** Replacing one cell changes a sum by the difference of the two terms. */
  lemma {:induction false} SumOverUpdate(s: seq<Tile>, i: nat, t: Tile, f: Tile -> nat)
    requires i < |s|
    ensures SumOver(s[i := t], f) + f(s[i]) == SumOver(s, f) + f(t)
  {
    var n := |s| - 1;
    if i < n {
      assert s[i := t][..n] == s[..n][i := t];
      SumOverUpdate(s[..n], i, t, f);
    } else {
      assert s[i := t][..n] == s[..n];
    }
  }

  /** A sum is zero when every term is. */
  lemma {:induction false} SumOverZero(s: seq<Tile>, f: Tile -> nat)
    requires forall j :: 0 <= j < |s| ==> f(s[j]) == 0
    ensures SumOver(s, f) == 0
  {
    if s != [] {
      SumOverZero(s[..|s| - 1], f);
    }
  }

  /** Two sums agree when their terms agree cell by cell. */
  lemma {:induction false} SumOverPointwise(s: seq<Tile>, u: seq<Tile>, f: Tile -> nat, g: Tile -> nat)
    requires |s| == |u|
    requires forall j :: 0 <= j < |s| ==> f(s[j]) == g(u[j])
    ensures SumOver(s, f) == SumOver(u, g)
  {
    if s != [] {
      SumOverPointwise(s[..|s| - 1], u[..|u| - 1], f, g);
    }
  }

  /** A sum over a board with at least one non-empty cell of a positive term is positive. */
  lemma {:induction false} SumOverPositive(s: seq<Tile>, f: Tile -> nat, j: nat)
    requires j < |s| && f(s[j]) > 0
    ensures SumOver(s, f) > 0
  {
    if j < |s| - 1 {
      SumOverPositive(s[..|s| - 1], f, j);
    }
  }
}
