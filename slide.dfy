/**
 * Where a single tile ends up when it slides (src/board/mod.rs, `tile_to`,
 * `slide_next` and `slide`). These read the board's tiles and change nothing.
 */
module Slides {
  import opened Wrappers
  import opened Tiles
  import opened Geometry

  /** The outcome of sliding one tile: the tile that lands, where, and the score
      the landing earns. */
  datatype SlideResult = SlideResult(tile: Tile, position: nat, score: nat)

  /** The neighbour of cell i in direction dir and the tile on it, or None at the edge. */
  function TileTo(tiles: seq<Tile>, dir: Direction, i: nat): (r: Option<(nat, Tile)>)
    requires |tiles| == LENGTH && i < LENGTH
    ensures r.None? <==> OnEdge(dir, i)
    ensures r.Some? ==> r.value.0 < LENGTH && Adjacent(dir, i, r.value.0) && r.value.1 == tiles[r.value.0]
  {
    match SpaceTo(dir, i)
    case None => None
    case Some(n) => Some((n, tiles[n]))
  }

  /** How many cells at the start of path are empty. */
  function LeadingEmpty(tiles: seq<Tile>, path: seq<nat>): (k: nat)
    requires forall j :: 0 <= j < |path| ==> path[j] < |tiles|
    ensures k <= |path|
    ensures forall j :: 0 <= j < k ==> tiles[path[j]] == Empty
    ensures k < |path| ==> tiles[path[k]] != Empty
  {
    if path == [] || tiles[path[0]] != Empty then 0 else 1 + LeadingEmpty(tiles, path[1..])
  }

  /** Tile t, travelling from cell i in direction dir, slides over empty cells;
      it merges into the first occupied cell it meets when `CanMerge` allows,
      and otherwise stops on the last empty cell it reached (possibly i itself). */
  function SlideNext(tiles: seq<Tile>, dir: Direction, i: nat, t: Tile): (r: SlideResult)
    requires |tiles| == LENGTH && i < LENGTH
    ensures r.position < LENGTH
    ensures r.score == 0 ==> r.tile == t && (r.position == i || tiles[r.position] == Empty)
    ensures r.score != 0 ==> CanMerge(t, tiles[r.position]) && r.tile == Next(t) && r.score == Score(Next(t))
    decreases Distance(dir, i)
  {
    match TileTo(tiles, dir, i)
    case Some((n, Empty)) => SlideNext(tiles, dir, n, t)
    case Some((n, o)) =>
      if CanMerge(t, o) then
        var newTile := Next(t);
        SlideResult(newTile, n, Score(newTile))
      else
        SlideResult(t, i, 0)
    case None => SlideResult(t, i, 0)
  }

  /** The tile on cell i cannot leave it: i is on the edge that dir faces, or its
      neighbour there holds a tile it cannot merge with. */
  predicate Blocked(tiles: seq<Tile>, dir: Direction, i: nat)
    requires |tiles| == LENGTH && i < LENGTH
  {
    match SpaceTo(dir, i)
    case None => true
    case Some(n) => tiles[n] != Empty && !CanMerge(tiles[i], tiles[n])
  }

  /** The slide of the tile on cell i, or None when the cell is empty or the
      tile would stay where it is. */
  function Slide(tiles: seq<Tile>, dir: Direction, i: nat): (r: Option<SlideResult>)
    requires |tiles| == LENGTH && i < LENGTH
    ensures r.Some? ==> r.value.position < LENGTH && r.value.position != i && tiles[i] != Empty
    ensures r.Some? && r.value.score == 0 ==> r.value.tile == tiles[i] && tiles[r.value.position] == Empty
    ensures r.Some? && r.value.score != 0 ==>
              CanMerge(tiles[i], tiles[r.value.position]) && r.value.tile == Next(tiles[i]) && r.value.score == Score(Next(tiles[i]))
  {
    var c := tiles[i];
    if c == Empty then None
    else
      var r := SlideNext(tiles, dir, i, c);
      if r.position == i then None else Some(r)
  }

  /** The closed form of a slide of tile t from cell i along path: with k the
      number of empty cells at the start of the path, the tile merges into the
      (k+1)-th cell when that cell exists and holds a tile it can merge with,
      and otherwise stops on the k-th cell (on cell i itself when k is 0). */
  predicate SlidesAlong(tiles: seq<Tile>, i: nat, t: Tile, path: seq<nat>, r: SlideResult)
    requires forall j :: 0 <= j < |path| ==> path[j] < |tiles|
  {
    var k := LeadingEmpty(tiles, path);
    if k < |path| && CanMerge(t, tiles[path[k]])
    then r == SlideResult(Next(t), path[k], Score(Next(t)))
    else r == SlideResult(t, if k == 0 then i else path[k - 1], 0)
  }

  /** A tile that slides from an empty cell n along rest slides from a cell
      just behind n along n followed by rest. */
  lemma SlidesAlongEmpty(tiles: seq<Tile>, i: nat, n: nat, t: Tile, rest: seq<nat>, r: SlideResult)
    requires n < |tiles| && tiles[n] == Empty
    requires forall j :: 0 <= j < |rest| ==> rest[j] < |tiles|
    requires SlidesAlong(tiles, n, t, rest, r)
    ensures SlidesAlong(tiles, i, t, [n] + rest, r)
  {
    assert ([n] + rest)[1..] == rest;
    assert LeadingEmpty(tiles, [n] + rest) == 1 + LeadingEmpty(tiles, rest);
  }

  /** A tile whose path starts with an occupied cell n merges into it or stays. */
  lemma SlidesAlongOccupied(tiles: seq<Tile>, i: nat, n: nat, t: Tile, rest: seq<nat>)
    requires n < |tiles| && tiles[n] != Empty
    requires forall j :: 0 <= j < |rest| ==> rest[j] < |tiles|
    ensures SlidesAlong(tiles, i, t, [n] + rest,
                        if CanMerge(t, tiles[n]) then SlideResult(Next(t), n, Score(Next(t))) else SlideResult(t, i, 0))
  {
    assert ([n] + rest)[0] == n;
  }

  /** SlideNext follows the closed form along the ray of cell i. The recursion
      takes one step per cell. */
  lemma {:induction false} SlideNextSpec(tiles: seq<Tile>, dir: Direction, i: nat, t: Tile)
    requires |tiles| == LENGTH && i < LENGTH
    ensures SlidesAlong(tiles, i, t, Ray(dir, i), SlideNext(tiles, dir, i, t))
    decreases Distance(dir, i)
  {
    match SpaceTo(dir, i)
    case None =>
    case Some(n) =>
      var rest := Ray(dir, n);
      assert Ray(dir, i) == [n] + rest;
      if tiles[n] == Empty {
        SlideNextSpec(tiles, dir, n, t);
        SlidesAlongEmpty(tiles, i, n, t, rest, SlideNext(tiles, dir, n, t));
      } else {
        SlidesAlongOccupied(tiles, i, n, t, rest);
      }
  }

  /** A slide is None exactly for an empty cell or a blocked tile. Otherwise the
      tile leaves cell i for a cell on its path: an empty cell, keeping its tile
      and scoring nothing, or a cell whose tile it merges with, scoring the value
      of the merged tile. Every cell it passes over is empty. */
  lemma SlideSpec(tiles: seq<Tile>, dir: Direction, i: nat)
    requires |tiles| == LENGTH && i < LENGTH
    ensures var r := Slide(tiles, dir, i);
            && (r.None? <==> tiles[i] == Empty || Blocked(tiles, dir, i))
            && (r.Some? ==>
                  && r.value.position != i
                  && r.value.position in Ray(dir, i)
                  && (if r.value.score == 0
                      then r.value.tile == tiles[i] && tiles[r.value.position] == Empty
                      else CanMerge(tiles[i], tiles[r.value.position])
                           && r.value.tile == Next(tiles[i])
                           && r.value.score == Score(Next(tiles[i]))))
  {
    if tiles[i] != Empty {
      SlideNextSpec(tiles, dir, i, tiles[i]);
      RayStart(dir, i);
      SlidesAlongShape(tiles, i, tiles[i], Ray(dir, i), SlideNext(tiles, dir, i, tiles[i]));
    }
  }

  /** Where a tile ends up along a path that does not contain its own cell: it
      stays exactly when the path is empty or starts with a tile it cannot merge
      with, and otherwise lands on a cell of the path, moving onto an empty cell
      without scoring or merging with an equal tile and scoring the merged value. */
  lemma SlidesAlongShape(tiles: seq<Tile>, i: nat, t: Tile, path: seq<nat>, r: SlideResult)
    requires forall j :: 0 <= j < |path| ==> path[j] < |tiles|
    requires i !in path && SlidesAlong(tiles, i, t, path, r)
    ensures r.position == i <==> path == [] || (tiles[path[0]] != Empty && !CanMerge(t, tiles[path[0]]))
    ensures r.position != i ==>
              && r.position in path
              && (if r.score == 0
                  then r.tile == t && tiles[r.position] == Empty
                  else CanMerge(t, tiles[r.position]) && r.tile == Next(t) && r.score == Score(Next(t)))
  {
    var k := LeadingEmpty(tiles, path);
    if k < |path| && CanMerge(t, tiles[path[k]]) {
      assert path[k] in path;
    } else if k > 0 {
      assert path[k - 1] in path;
    }
  }

}
