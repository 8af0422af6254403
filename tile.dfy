/**
 * The content of one board cell (src/board/tile.rs).
 *
 * `Merged` is the transient "just merged" state that the move engine needs:
 * a tile produced by a merge during a move carries it until the end of the
 * move, so that it cannot merge a second time in the same move.
 */
module Tiles {

  datatype Tile = Empty | Occupied(rank: nat) | Merged(rank: nat)

  /** 2^n. */
  function Pow2(n: nat): (r: nat)
    ensures r >= 1
    ensures n > 0 ==> r % 2 == 0
  {
    if n == 0 then 1 else 2 * Pow2(n - 1)
  }

  /** The rank step applied when a tile merges: a settled tile of rank n becomes a
      just-merged tile of rank n + 1; every other tile is left as it is. */
  function Next(t: Tile): (r: Tile)
    ensures t.Occupied? ==> r.Merged? && r.rank == t.rank + 1
    ensures !t.Occupied? ==> r == t
  {
    match t
    case Occupied(n) => Merged(n + 1)
    case _ => t
  }

  /** The face value of a tile: 2^rank, and 0 for an empty cell. */
  function Score(t: Tile): (r: nat)
    ensures r == 0 <==> t.Empty?
    ensures !t.Empty? ==> r == Pow2(t.rank)
  {
    match t
    case Empty => 0
    case Occupied(x) => Pow2(x)
    case Merged(x) => Pow2(x)
  }

  /** Merging is defined only between two settled tiles of the same rank. */
  predicate CanMerge(a: Tile, b: Tile)
    ensures CanMerge(a, b) ==> a.Occupied? && b.Occupied? && a.rank == b.rank
    ensures CanMerge(a, b) ==> Score(Next(a)) == Score(a) + Score(b)
  {
    a.Occupied? && a == b
  }

  /** Settles a just-merged tile at the end of a move. */
  function Finalize(t: Tile): (r: Tile)
    ensures !r.Merged?
    ensures r.Empty? <==> t.Empty?
    ensures !t.Empty? ==> r.rank == t.rank
    ensures !t.Merged? ==> r == t
  {
    match t
    case Merged(x) => Occupied(x)
    case _ => t
  }

  /** The code of 'A' minus one: rank c is shown as the c-th capital letter. */
  const ASCII_START: nat := 'A' as nat - 1

  /** The glyph shown for a tile. A just-merged tile never reaches the display;
      it is shown as the settled tile it becomes. */
  function Glyph(t: Tile): (c: char)
    ensures t.Empty? ==> c == ' '
    ensures !t.Empty? && 1 <= t.rank <= 27 ==> c as nat - 'A' as nat + 1 == t.rank
    ensures !t.Empty? && (t.rank == 0 || t.rank > 27) ==> c == '?'
  {
    match t
    case Empty => ' '
    case _ => if 0 < t.rank <= 27 then (ASCII_START + t.rank) as char else '?'
  }

  // ---- Properties of the rank step and the score ----

  /** A merge doubles the value: the merged tile is worth two of the tiles it
      combines, and settling it gives the tile of the next rank. */
  lemma NextDoublesScore(t: Tile)
    requires t.Occupied?
    ensures Score(Next(t)) == 2 * Score(t)
    ensures Score(Next(t)) == Score(t) + Score(t)
    ensures Finalize(Next(t)) == Occupied(t.rank + 1)
  {
  }

  /** Nothing but a settled tile changes under the rank step. */
  lemma NextKeepsOthers(t: Tile)
    requires !t.Occupied?
    ensures Next(t) == t && Score(Next(t)) == Score(t)
  {
  }

  /** A just-merged tile merges with nothing, in either role. */
  lemma MergedNeverMerges(r: nat, other: Tile)
    ensures !CanMerge(Merged(r), other) && !CanMerge(other, Merged(r))
    ensures !CanMerge(Empty, other) && !CanMerge(other, Empty)
  {
  }

  /** The letters of the ranks 1 to 27 are distinct and never the blank or the
      placeholder glyph. */
  lemma GlyphsDistinct(a: nat, b: nat)
    requires 1 <= a <= 27 && 1 <= b <= 27
    ensures Glyph(Occupied(a)) != ' ' && Glyph(Occupied(a)) != '?'
    ensures a != b ==> Glyph(Occupied(a)) != Glyph(Occupied(b))
  {
  }

  /** The letter naming used for boards: rank 1 is 'A', 2 is 'B', up to 11, 'K'. */
  lemma GlyphLetters()
    ensures Glyph(Occupied(1)) == 'A' && Glyph(Occupied(2)) == 'B'
    ensures Glyph(Occupied(3)) == 'C' && Glyph(Occupied(4)) == 'D'
    ensures Glyph(Occupied(11)) == 'K' && Glyph(Occupied(27)) == '['
    ensures Glyph(Occupied(0)) == '?' && Glyph(Occupied(28)) == '?'
    ensures Glyph(Empty) == ' '
  {
  }
}
