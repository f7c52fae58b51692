/** Reshaping a flat row-major tile array into rows (src/engine/tileMap/tileMapConverter.ts). */
module TileMapConverter {

  /** A cell read from a tile array: a tile code, or JavaScript's `undefined` for a read
      past the end of the array. */
  datatype Slot = Tile(code: int) | Undefined

  function SlotAt(tiles: seq<int>, i: int): Slot {
    if 0 <= i < |tiles| then Tile(tiles[i]) else Undefined
  }

  /** The grid the nested loops build. */
  function Reshape(tiles: seq<int>, width: nat, height: nat): seq<seq<Slot>> {
    seq(height, y requires 0 <= y < height => seq(width, x requires 0 <= x < width => SlotAt(tiles, y * width + x)))
  }

  /** The rows of a grid, concatenated. */
  function Flatten(g: seq<seq<Slot>>): seq<Slot>
    decreases |g|
  {
    if g == [] then [] else Flatten(g[..|g| - 1]) + g[|g| - 1]
  }

  /** Tile codes read as defined slots. */
  function Tiles(s: seq<int>): seq<Slot> {
    seq(|s|, i requires 0 <= i < |s| => Tile(s[i]))
  }

  lemma TilesAppend(a: seq<int>, b: seq<int>)
    ensures Tiles(a + b) == Tiles(a) + Tiles(b)
  {
    assert Tiles(a + b) == Tiles(a) + Tiles(b);
  }

  /** Round trip: when the array covers the grid, the rows put back together are exactly
      the first width * height tiles. */
  lemma {:induction false} FlattenReshape(tiles: seq<int>, width: nat, height: nat)
    requires |tiles| >= width * height
    ensures Flatten(Reshape(tiles, width, height)) == Tiles(tiles[..width * height])
    decreases height
  {
    var g := Reshape(tiles, width, height);
    if height > 0 {
      var h := height - 1;
      assert h * width + width == width * height;
      assert g[..h] == Reshape(tiles, width, h);
      FlattenReshape(tiles, width, h);
      var last := tiles[h * width .. h * width + width];
      forall x | 0 <= x < width
        ensures g[h][x] == Tiles(last)[x]
      {
        assert h * width + x < |tiles|;
      }
      assert g[h] == Tiles(last);
      TilesAppend(tiles[..h * width], last);
      assert tiles[..h * width] + last == tiles[..width * height];
    }
  }

  /** Returns exactly `height` rows of `width` cells, cell (x, y) being tile
      y * width + x of the array. */
  method Convert1DTo2DTiles(tiles1d: seq<int>, width: nat, height: nat)
    returns (tiles2d: seq<seq<Slot>>)
    ensures |tiles2d| == height
    ensures forall y :: 0 <= y < height ==> |tiles2d[y]| == width
    ensures forall y, x :: 0 <= y < height && 0 <= x < width ==>
              tiles2d[y][x] == SlotAt(tiles1d, y * width + x)
    ensures tiles2d == Reshape(tiles1d, width, height)
    ensures |tiles1d| >= width * height ==> Flatten(tiles2d) == Tiles(tiles1d[..width * height])
  {
    tiles2d := [];
    for y := 0 to height
      invariant |tiles2d| == y
      invariant forall yy :: 0 <= yy < y ==> |tiles2d[yy]| == width
      invariant forall yy, x :: 0 <= yy < y && 0 <= x < width ==>
                  tiles2d[yy][x] == SlotAt(tiles1d, yy * width + x)
    {
      var row: seq<Slot> := [];
      for x := 0 to width
        invariant |row| == x
        invariant forall xx :: 0 <= xx < x ==> row[xx] == SlotAt(tiles1d, y * width + xx)
      {
        row := row + [SlotAt(tiles1d, y * width + x)];
      }
      tiles2d := tiles2d + [row];
    }
    var g := Reshape(tiles1d, width, height);
    assert |g| == |tiles2d|;
    forall y | 0 <= y < height
      ensures tiles2d[y] == g[y]
    {
      assert |g[y]| == width;
    }
    if |tiles1d| >= width * height {
      FlattenReshape(tiles1d, width, height);
    }
  }
}
