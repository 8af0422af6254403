/**
 * Cell indexing of the 4x4 board (src/board/mod.rs): row-major indices,
 * the row/column conversions and the step from a cell to its neighbour in a
 * direction.
 */
module Geometry {
  import opened Wrappers

  const SIZE: nat := 4
  const LENGTH: nat := SIZE * SIZE

  datatype Direction = Up | Down | Left | Right

  function ToRowCol(i: nat): (rc: (nat, nat))
    ensures rc.0 * SIZE + rc.1 == i && rc.1 < SIZE
    ensures i < LENGTH ==> rc.0 < SIZE
  {
    (i / SIZE, i % SIZE)
  }

  function FromRowCol(r: nat, c: nat): (i: nat)
    ensures c < SIZE ==> i / SIZE == r && i % SIZE == c
    ensures r < SIZE && c < SIZE ==> i < LENGTH
  {
    r * SIZE + c
  }

  /** Converting an index to (row, column) and back gives the index again. */
  lemma RowColRoundTrip(i: nat)
    ensures FromRowCol(ToRowCol(i).0, ToRowCol(i).1) == i
    ensures i < LENGTH ==> ToRowCol(i).0 < SIZE && ToRowCol(i).1 < SIZE
  {
  }

  /** Every (row, column) inside the board is the conversion of exactly one index. */
  lemma FromRowColRoundTrip(r: nat, c: nat)
    requires r < SIZE && c < SIZE
    ensures FromRowCol(r, c) < LENGTH
    ensures ToRowCol(FromRowCol(r, c)) == (r, c)
  {
  }

  /** i lies on the edge of the board that direction dir faces. */
  predicate OnEdge(dir: Direction, i: nat)
  {
    match dir
    case Up => i < SIZE
    case Down => LENGTH - SIZE <= i
    case Left => i % SIZE == 0
    case Right => i % SIZE == SIZE - 1
  }

  /** n is the cell next to i in direction dir: the same column one row away for
      Up and Down, the same row one column away for Left and Right. */
  predicate Adjacent(dir: Direction, i: nat, n: nat)
  {
    match dir
    case Up => n + SIZE == i
    case Down => n == i + SIZE
    case Left => n + 1 == i && n / SIZE == i / SIZE
    case Right => n == i + 1 && n / SIZE == i / SIZE
  }

  /** The number of steps from i to the edge that dir faces. */
  function Distance(dir: Direction, i: nat): (d: nat)
    requires i < LENGTH
  {
    match dir
    case Up => i / SIZE
    case Down => SIZE - 1 - i / SIZE
    case Left => i % SIZE
    case Right => SIZE - 1 - i % SIZE
  }

  /** The signed index step of one move in direction dir. */
  function Offset(dir: Direction): (step: int)
  {
    match dir
    case Up => -(SIZE as int)
    case Down => SIZE
    case Left => -1
    case Right => 1
  }

  /** The neighbour of cell i in direction dir, or None at the edge. */
  function SpaceTo(dir: Direction, i: nat): (r: Option<nat>)
    ensures i < LENGTH ==> (r.None? <==> OnEdge(dir, i))
    ensures i < LENGTH && r.Some? ==> r.value < LENGTH && Adjacent(dir, i, r.value)
    ensures i < LENGTH && r.Some? ==> r.value as int == i + Offset(dir)
    ensures i < LENGTH && r.Some? ==> Distance(dir, r.value) + 1 == Distance(dir, i)
    ensures i < LENGTH && r.None? ==> Distance(dir, i) == 0
  {
    var (row, col) := ToRowCol(i);
    match dir
    case Up => if row == 0 then None else Some(FromRowCol(row - 1, col))
    case Down => if row == SIZE - 1 then None else Some(FromRowCol(row + 1, col))
    case Left => if col == 0 then None else Some(FromRowCol(row, col - 1))
    case Right => if col == SIZE - 1 then None else Some(FromRowCol(row, col + 1))
  }

  /** The cells a tile at i passes over when it travels in direction dir, nearest
      first, up to and including the cell on the edge. */
  function Ray(dir: Direction, i: nat): (r: seq<nat>)
    requires i < LENGTH
    ensures |r| == Distance(dir, i)
    ensures forall k :: 0 <= k < |r| ==> r[k] < LENGTH && r[k] as int == i + (k + 1) * Offset(dir)
    ensures forall k :: 0 <= k < |r| ==> (dir.Left? || dir.Right? ==> r[k] / SIZE == i / SIZE)
    ensures forall k :: 0 <= k < |r| ==> r[k] % SIZE == i % SIZE || dir.Left? || dir.Right?
    decreases Distance(dir, i)
  {
    match SpaceTo(dir, i)
    case None => []
    case Some(n) => [n] + Ray(dir, n)
  }

  /** The ray of a cell never returns to it, is empty exactly on the edge, and
      otherwise starts with the neighbouring cell. */
  lemma RayStart(dir: Direction, i: nat)
    requires i < LENGTH
    ensures i !in Ray(dir, i)
    ensures Ray(dir, i) == [] <==> SpaceTo(dir, i).None?
    ensures SpaceTo(dir, i).Some? ==> Ray(dir, i)[0] == SpaceTo(dir, i).value
  {
  }
}
