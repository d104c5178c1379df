/**
 * The integer geometry of the super-resolution preprocessor in
 * js/processors/enhance-processor.js: the size guard, the overlapping tile
 * grid, the planar tensor index, and the in-place edge padding of a tile
 * tensor (`padTensor`).
 */
module TileGeometry {
  import opened Wrappers

  /** The model's square input, in pixels. */
  const TileSize: nat := 256
  const TileOverlap: nat := 8
  /** Successive tile origins are `TileSize - TileOverlap` apart. */
  const Stride: nat := 248
  /** The largest accepted frame area, 2048 * 2048 pixels. */
  const MaxSize: nat := 4194304
  /** Three planes of TileSize * TileSize values. */
  const TensorLength: nat := 196608

  /** The planar index `c * T * T + h * T + w` of channel c, row h, column w. */
  function Idx(c: int, h: int, w: int): int {
    c * 65536 + h * 256 + w
  }

  predicate InTile(c: int, h: int, w: int) {
    0 <= c < 3 && 0 <= h < TileSize && 0 <= w < TileSize
  }

  function Min(a: int, b: int): int {
    if a <= b then a else b
  }

  /** The index `Idx` lands in the tensor and no two cells share one. */
  lemma IdxInjective(c: int, h: int, w: int, c': int, h': int, w': int)
    requires InTile(c, h, w) && InTile(c', h', w')
    ensures 0 <= Idx(c, h, w) < TensorLength
    ensures Idx(c, h, w) == Idx(c', h', w') ==> c == c' && h == h' && w == w'
  {
  }

  // ---------------------------------------------------------------- padTensor

  /** Width padding of one row: columns aW .. T-1 take the value at column aW-1. */
  method PadRowTail(tensor: array<real>, c: int, h: int, actualWidth: int)
    requires tensor.Length == TensorLength
    requires 0 <= c < 3 && 0 <= h < TileSize && 1 <= actualWidth <= TileSize
    modifies tensor
    ensures forall w :: actualWidth <= w < TileSize ==>
              tensor[Idx(c, h, w)] == old(tensor[Idx(c, h, actualWidth - 1)])
    ensures forall k :: 0 <= k < tensor.Length && !(Idx(c, h, actualWidth) <= k < Idx(c, h + 1, 0)) ==>
              tensor[k] == old(tensor[k])
  {
    for w := actualWidth to TileSize
      invariant forall w' :: actualWidth <= w' < w ==>
                  tensor[Idx(c, h, w')] == old(tensor[Idx(c, h, actualWidth - 1)])
      invariant forall k :: 0 <= k < tensor.Length && !(Idx(c, h, actualWidth) <= k < Idx(c, h, w)) ==>
                  tensor[k] == old(tensor[k])
    {
      var edgeIdx := Idx(c, h, actualWidth - 1);
      var padIdx := Idx(c, h, w);
      tensor[padIdx] := tensor[edgeIdx];
    }
  }

  /**
   * The width-padding loop of one channel, rows 0 .. aH-1: the valid columns
   * keep their values, the padded ones repeat column aW-1 of their row.
   */
  method PadWidth(tensor: array<real>, c: int, actualWidth: int, actualHeight: int)
    requires tensor.Length == TensorLength
    requires 0 <= c < 3 && 1 <= actualWidth <= TileSize && 1 <= actualHeight <= TileSize
    modifies tensor
    ensures forall h, w :: 0 <= h < actualHeight && 0 <= w < actualWidth ==>
              tensor[Idx(c, h, w)] == old(tensor[Idx(c, h, w)])
    ensures forall h, w :: 0 <= h < actualHeight && actualWidth <= w < TileSize ==>
              tensor[Idx(c, h, w)] == old(tensor[Idx(c, h, actualWidth - 1)])
    ensures forall k :: 0 <= k < tensor.Length && !(Idx(c, 0, 0) <= k < Idx(c, actualHeight, 0)) ==>
              tensor[k] == old(tensor[k])
  {
    for h := 0 to actualHeight
      invariant forall h', w :: 0 <= h' < h && 0 <= w < actualWidth ==>
                  tensor[Idx(c, h', w)] == old(tensor[Idx(c, h', w)])
      invariant forall h', w :: 0 <= h' < h && actualWidth <= w < TileSize ==>
                  tensor[Idx(c, h', w)] == old(tensor[Idx(c, h', actualWidth - 1)])
      invariant forall k :: 0 <= k < tensor.Length && !(Idx(c, 0, 0) <= k < Idx(c, h, 0)) ==>
                  tensor[k] == old(tensor[k])
    {
      ghost var before := tensor[..];
      PadRowTail(tensor, c, h, actualWidth);
      forall h', w | 0 <= h' <= h && actualWidth <= w < TileSize
        ensures tensor[Idx(c, h', w)] == old(tensor[Idx(c, h', actualWidth - 1)])
      {
        if h' < h {
          assert tensor[Idx(c, h', w)] == before[Idx(c, h', w)];
        } else {
          assert before[Idx(c, h, actualWidth - 1)] == old(tensor[Idx(c, h, actualWidth - 1)]);
        }
      }
    }
  }

  /** Height padding of one row: row `h` becomes a copy of row `edge`. */
  method CopyRow(tensor: array<real>, c: int, edge: int, h: int)
    requires tensor.Length == TensorLength
    requires 0 <= c < 3 && 0 <= edge < h < TileSize
    modifies tensor
    ensures forall w :: 0 <= w < TileSize ==> tensor[Idx(c, h, w)] == old(tensor[Idx(c, edge, w)])
    ensures forall k :: 0 <= k < tensor.Length && !(Idx(c, h, 0) <= k < Idx(c, h + 1, 0)) ==>
              tensor[k] == old(tensor[k])
  {
    for w := 0 to TileSize
      invariant forall w' :: 0 <= w' < w ==> tensor[Idx(c, h, w')] == old(tensor[Idx(c, edge, w')])
      invariant forall k :: 0 <= k < tensor.Length && !(Idx(c, h, 0) <= k < Idx(c, h, w)) ==>
                  tensor[k] == old(tensor[k])
    {
      var edgeIdx := Idx(c, edge, w);
      var padIdx := Idx(c, h, w);
      tensor[padIdx] := tensor[edgeIdx];
    }
  }

  /** The height-padding loop of one channel, rows aH .. T-1. */
  method PadHeight(tensor: array<real>, c: int, actualHeight: int)
    requires tensor.Length == TensorLength
    requires 0 <= c < 3 && 1 <= actualHeight <= TileSize
    modifies tensor
    ensures forall h, w :: actualHeight <= h < TileSize && 0 <= w < TileSize ==>
              tensor[Idx(c, h, w)] == old(tensor[Idx(c, actualHeight - 1, w)])
    ensures forall k :: 0 <= k < tensor.Length && !(Idx(c, actualHeight, 0) <= k < Idx(c + 1, 0, 0)) ==>
              tensor[k] == old(tensor[k])
  {
    for h := actualHeight to TileSize
      invariant forall h', w :: actualHeight <= h' < h && 0 <= w < TileSize ==>
                  tensor[Idx(c, h', w)] == old(tensor[Idx(c, actualHeight - 1, w)])
      invariant forall k :: 0 <= k < tensor.Length && !(Idx(c, actualHeight, 0) <= k < Idx(c, h, 0)) ==>
                  tensor[k] == old(tensor[k])
    {
      CopyRow(tensor, c, actualHeight - 1, h);
    }
  }

  /**
   * Channel c of `after` is channel c of `before` padded to the edge of its
   * aW x aH valid region: the valid cells keep their values, padded columns
   * of valid rows repeat column aW-1, padded rows repeat row aH-1, and the
   * corner repeats the cell (aH-1, aW-1).
   */
  ghost predicate ChannelPadded(before: seq<real>, after: seq<real>, c: int, actualWidth: int, actualHeight: int) {
    && |before| == |after| == TensorLength
    && 0 <= c < 3 && 1 <= actualWidth <= TileSize && 1 <= actualHeight <= TileSize
    && (forall h, w :: 0 <= h < actualHeight && 0 <= w < actualWidth ==>
          after[Idx(c, h, w)] == before[Idx(c, h, w)])
    && (forall h, w :: 0 <= h < actualHeight && actualWidth <= w < TileSize ==>
          after[Idx(c, h, w)] == before[Idx(c, h, actualWidth - 1)])
    && (forall h, w :: actualHeight <= h < TileSize && 0 <= w < actualWidth ==>
          after[Idx(c, h, w)] == before[Idx(c, actualHeight - 1, w)])
    && (forall h, w :: actualHeight <= h < TileSize && actualWidth <= w < TileSize ==>
          after[Idx(c, h, w)] == before[Idx(c, actualHeight - 1, actualWidth - 1)])
  }

  /** Both padding passes over channel c, which alone changes. */
  method PadChannel(tensor: array<real>, c: int, actualWidth: int, actualHeight: int)
    requires tensor.Length == TensorLength
    requires 0 <= c < 3 && 1 <= actualWidth <= TileSize && 1 <= actualHeight <= TileSize
    modifies tensor
    ensures ChannelPadded(old(tensor[..]), tensor[..], c, actualWidth, actualHeight)
    ensures tensor[..Idx(c, 0, 0)] == old(tensor[..Idx(c, 0, 0)])
    ensures tensor[Idx(c + 1, 0, 0)..] == old(tensor[Idx(c + 1, 0, 0)..])
  {
    PadWidth(tensor, c, actualWidth, actualHeight);
    PadHeight(tensor, c, actualHeight);
  }

  /** Padding channel c survives changes confined to later channels. */
  lemma KeepPadded(original: seq<real>, padded: seq<real>, later: seq<real>, c: int,
                   actualWidth: int, actualHeight: int, changedFrom: int)
    requires |original| == |padded| == |later| == TensorLength
    requires 0 <= c < 3 && 1 <= actualWidth <= TileSize && 1 <= actualHeight <= TileSize
    requires ChannelPadded(original, padded, c, actualWidth, actualHeight)
    requires Idx(c + 1, 0, 0) <= changedFrom <= TensorLength
    requires later[..changedFrom] == padded[..changedFrom]
    ensures ChannelPadded(original, later, c, actualWidth, actualHeight)
  {
    forall h, w | 0 <= h < TileSize && 0 <= w < TileSize
      ensures later[Idx(c, h, w)] == padded[Idx(c, h, w)]
    {
      assert later[Idx(c, h, w)] == later[..changedFrom][Idx(c, h, w)];
    }
  }

  /** Padding channel c of an array whose channel c is still the original one pads the original. */
  lemma RebasePadded(original: seq<real>, before: seq<real>, after: seq<real>, c: int,
                     actualWidth: int, actualHeight: int)
    requires |original| == |before| == |after| == TensorLength
    requires 0 <= c < 3 && 1 <= actualWidth <= TileSize && 1 <= actualHeight <= TileSize
    requires ChannelPadded(before, after, c, actualWidth, actualHeight)
    requires forall k :: Idx(c, 0, 0) <= k < TensorLength ==> before[k] == original[k]
    ensures ChannelPadded(original, after, c, actualWidth, actualHeight)
  {
    forall h, w | 0 <= h < TileSize && 0 <= w < TileSize
      ensures before[Idx(c, h, w)] == original[Idx(c, h, w)]
    {
    }
  }

  /** One turn of the channel loop: channels 0 .. c are now padded, the later ones still original. */
  lemma NextChannelPadded(original: seq<real>, before: seq<real>, after: seq<real>, c: int,
                          actualWidth: int, actualHeight: int)
    requires |original| == |before| == |after| == TensorLength
    requires 0 <= c < 3 && 1 <= actualWidth <= TileSize && 1 <= actualHeight <= TileSize
    requires forall c' :: 0 <= c' < c ==> ChannelPadded(original, before, c', actualWidth, actualHeight)
    requires forall k :: Idx(c, 0, 0) <= k < TensorLength ==> before[k] == original[k]
    requires ChannelPadded(before, after, c, actualWidth, actualHeight)
    requires after[..Idx(c, 0, 0)] == before[..Idx(c, 0, 0)]
    requires after[Idx(c + 1, 0, 0)..] == before[Idx(c + 1, 0, 0)..]
    ensures forall c' :: 0 <= c' <= c ==> ChannelPadded(original, after, c', actualWidth, actualHeight)
    ensures forall k :: Idx(c + 1, 0, 0) <= k < TensorLength ==> after[k] == original[k]
  {
    forall k | Idx(c + 1, 0, 0) <= k < TensorLength
      ensures after[k] == original[k]
    {
      assert after[k] == after[Idx(c + 1, 0, 0)..][k - Idx(c + 1, 0, 0)];
    }
    forall c' | 0 <= c' <= c
      ensures ChannelPadded(original, after, c', actualWidth, actualHeight)
    {
      if c' < c {
        KeepPadded(original, before, after, c', actualWidth, actualHeight, Idx(c, 0, 0));
      } else {
        RebasePadded(original, before, after, c, actualWidth, actualHeight);
      }
    }
  }

  /**
   * What padding every channel leaves, as one formula: each cell of the tile
   * holds the original value of the valid cell obtained by clamping its row
   * to aH-1 and its column to aW-1; in particular every padded row equals
   * the (already width-padded) row aH-1.
   */
  lemma PaddedTile(before: seq<real>, after: seq<real>, actualWidth: int, actualHeight: int)
    requires |before| == |after| == TensorLength
    requires 1 <= actualWidth <= TileSize && 1 <= actualHeight <= TileSize
    requires forall c :: 0 <= c < 3 ==> ChannelPadded(before, after, c, actualWidth, actualHeight)
    ensures forall c, h, w :: InTile(c, h, w) ==>
              after[Idx(c, h, w)] == before[Idx(c, Min(h, actualHeight - 1), Min(w, actualWidth - 1))]
    ensures forall c, h, w :: InTile(c, h, w) && actualHeight <= h ==>
              after[Idx(c, h, w)] == after[Idx(c, actualHeight - 1, w)]
  {
    forall c, h, w | InTile(c, h, w)
      ensures after[Idx(c, h, w)] == before[Idx(c, Min(h, actualHeight - 1), Min(w, actualWidth - 1))]
      ensures actualHeight <= h ==> after[Idx(c, h, w)] == after[Idx(c, actualHeight - 1, w)]
    {
      assert ChannelPadded(before, after, c, actualWidth, actualHeight);
    }
  }

  /** One turn of the channel loop of padTensor, stated against the array it started from. */
  method PadNextChannel(tensor: array<real>, c: int, actualWidth: int, actualHeight: int, ghost original: seq<real>)
    requires tensor.Length == |original| == TensorLength
    requires 0 <= c < 3 && 1 <= actualWidth <= TileSize && 1 <= actualHeight <= TileSize
    requires forall c' :: 0 <= c' < c ==> ChannelPadded(original, tensor[..], c', actualWidth, actualHeight)
    requires forall k :: Idx(c, 0, 0) <= k < TensorLength ==> tensor[..][k] == original[k]
    modifies tensor
    ensures forall c' :: 0 <= c' <= c ==> ChannelPadded(original, tensor[..], c', actualWidth, actualHeight)
    ensures forall k :: Idx(c + 1, 0, 0) <= k < TensorLength ==> tensor[..][k] == original[k]
  {
    ghost var before := tensor[..];
    PadChannel(tensor, c, actualWidth, actualHeight);
    NextChannelPadded(original, before, tensor[..], c, actualWidth, actualHeight);
  }

  /** The channel loop of padTensor: channels 0, 1 and 2 are padded in turn. */
  method PadChannels(tensor: array<real>, actualWidth: int, actualHeight: int)
    requires tensor.Length == TensorLength
    requires 1 <= actualWidth <= TileSize && 1 <= actualHeight <= TileSize
    modifies tensor
    ensures forall c :: 0 <= c < 3 ==> ChannelPadded(old(tensor[..]), tensor[..], c, actualWidth, actualHeight)
  {
    ghost var original := tensor[..];
    for c := 0 to 3
      invariant forall c' :: 0 <= c' < c ==> ChannelPadded(original, tensor[..], c', actualWidth, actualHeight)
      invariant forall k :: Idx(c, 0, 0) <= k < TensorLength ==> tensor[..][k] == original[k]
    {
      PadNextChannel(tensor, c, actualWidth, actualHeight, original);
    }
  }

  /**
   * padTensor: clamp-to-edge padding of a tile whose valid region is
   * aW x aH. Afterwards every cell holds the original value of the nearest
   * valid cell: columns beyond aW-1 repeat column aW-1, rows beyond aH-1
   * repeat row aH-1, and the valid region itself is untouched.
   */
  method PadTensor(tensor: array<real>, actualWidth: int, actualHeight: int)
    requires tensor.Length == TensorLength
    requires 1 <= actualWidth <= TileSize && 1 <= actualHeight <= TileSize
    modifies tensor
    ensures forall c, h, w :: InTile(c, h, w) ==>
              tensor[Idx(c, h, w)] ==
                old(tensor[Idx(c, Min(h, actualHeight - 1), Min(w, actualWidth - 1))])
  {
    ghost var original := tensor[..];
    PadChannels(tensor, actualWidth, actualHeight);
    PaddedTile(original, tensor[..], actualWidth, actualHeight);
  }

  // ---------------------------------------------------------------- tile grid

  /** One entry of `tiles`: its origin and its valid extent. */
  datatype Tile = Tile(x: int, y: int, width: int, height: int)

  datatype FrameError = FrameTooLarge(width: int, height: int)

  /** The loop `for (o = start; o < extent; o += Stride)` as the sequence of its values. */
  function Origins(extent: int, start: int): (r: seq<int>)
    decreases extent - start
  {
    if start < extent then [start] + Origins(extent, start + Stride) else []
  }

  /** Origins are increasing steps of Stride from `start`, all below `extent`. */
  lemma {:induction false} OriginsInRange(extent: int, start: int)
    ensures forall i :: 0 <= i < |Origins(extent, start)| ==>
              start <= Origins(extent, start)[i] < extent &&
              Origins(extent, start)[i] == start + i * Stride
    decreases extent - start
  {
    if start < extent {
      OriginsInRange(extent, start + Stride);
    }
  }

  /** Every position in [start, extent) lies in the span of some origin. */
  lemma {:induction false} OriginsCover(extent: int, start: int, p: int)
    requires start <= p < extent
    ensures exists i :: 0 <= i < |Origins(extent, start)| &&
              Origins(extent, start)[i] <= p < Origins(extent, start)[i] + Stride
    decreases extent - start
  {
    var o := Origins(extent, start);
    if p < start + Stride {
      assert o[0] == start;
    } else {
      OriginsCover(extent, start + Stride, p);
      var i :| 0 <= i < |Origins(extent, start + Stride)| &&
               Origins(extent, start + Stride)[i] <= p < Origins(extent, start + Stride)[i] + Stride;
      assert o[i + 1] == Origins(extent, start + Stride)[i];
    }
  }

  /** The tile at (x, y): `Math.min(tileSize, width - x)` by `Math.min(tileSize, height - y)`. */
  function MakeTile(width: int, height: int, x: int, y: int): Tile {
    Tile(x, y, Min(TileSize, width - x), Min(TileSize, height - y))
  }

  /** The tiles of one row of the grid, left to right. */
  function RowTiles(width: int, height: int, y: int, xs: seq<int>): (r: seq<Tile>)
    ensures |r| == |xs|
    ensures forall i :: 0 <= i < |xs| ==> r[i] == MakeTile(width, height, xs[i], y)
  {
    if xs == [] then [] else [MakeTile(width, height, xs[0], y)] + RowTiles(width, height, y, xs[1..])
  }

  /** The rows of the grid, top to bottom. */
  function GridTiles(width: int, height: int, ys: seq<int>): seq<Tile> {
    if ys == [] then [] else RowTiles(width, height, ys[0], Origins(width, 0)) + GridTiles(width, height, ys[1..])
  }

  /** The tiles preprocessFrame produces for a width x height frame, in push order. */
  function TileGrid(width: int, height: int): seq<Tile> {
    GridTiles(width, height, Origins(height, 0))
  }

  lemma TilesAssociative(a: seq<Tile>, b: seq<Tile>, c: seq<Tile>)
    ensures a + (b + c) == (a + b) + c
  {
  }

  /** One turn of the inner loop: the row from x is the tile at x followed by the row from x + Stride. */
  lemma RowTilesStep(width: int, height: int, y: int, x: int)
    requires x < width
    ensures RowTiles(width, height, y, Origins(width, x)) ==
              [MakeTile(width, height, x, y)] + RowTiles(width, height, y, Origins(width, x + Stride))
  {
    var xs := Origins(width, x);
    assert xs == [x] + Origins(width, x + Stride);
    assert xs[1..] == Origins(width, x + Stride);
  }

  /** The inner tile loop: pushes the tiles of the row at `y`, left to right. */
  method CutRow(tiles: seq<Tile>, width: int, height: int, y: int) returns (pushed: seq<Tile>)
    ensures pushed == tiles + RowTiles(width, height, y, Origins(width, 0))
  {
    pushed := tiles;
    var x := 0;
    while x < width
      invariant pushed + RowTiles(width, height, y, Origins(width, x)) ==
                tiles + RowTiles(width, height, y, Origins(width, 0))
      decreases width - x
    {
      RowTilesStep(width, height, y, x);
      var tileWidth := Min(TileSize, width - x);
      var tileHeight := Min(TileSize, height - y);
      TilesAssociative(pushed, [Tile(x, y, tileWidth, tileHeight)],
                       RowTiles(width, height, y, Origins(width, x + Stride)));
      pushed := pushed + [Tile(x, y, tileWidth, tileHeight)];
      x := x + Stride;
    }
  }

  /** One turn of the outer loop: the rows from y are the row at y followed by the rows from y + Stride. */
  lemma GridTilesStep(width: int, height: int, y: int)
    requires y < height
    ensures GridTiles(width, height, Origins(height, y)) ==
              RowTiles(width, height, y, Origins(width, 0)) + GridTiles(width, height, Origins(height, y + Stride))
  {
    var ys := Origins(height, y);
    assert ys == [y] + Origins(height, y + Stride);
    assert ys[1..] == Origins(height, y + Stride);
  }

  /**
   * The size guard and the tile loops of preprocessFrame: a frame larger than
   * MaxSize is rejected before any tile is cut; otherwise the tiles are
   * pushed row by row.
   */
  method ComputeTiles(width: int, height: int) returns (result: Result<seq<Tile>, FrameError>)
    ensures width * height > MaxSize <==> result.Failure?
    ensures result.Failure? ==> result.error == FrameTooLarge(width, height)
    ensures result.Success? ==> result.value == TileGrid(width, height)
  {
    if width * height > MaxSize {
      return Failure(FrameTooLarge(width, height));
    }
    var tiles: seq<Tile> := [];
    var y := 0;
    while y < height
      invariant tiles + GridTiles(width, height, Origins(height, y)) == TileGrid(width, height)
      decreases height - y
    {
      GridTilesStep(width, height, y);
      TilesAssociative(tiles, RowTiles(width, height, y, Origins(width, 0)),
                       GridTiles(width, height, Origins(height, y + Stride)));
      tiles := CutRow(tiles, width, height, y);
      y := y + Stride;
    }
    return Success(tiles);
  }

  lemma {:induction false} GridTilesShape(width: int, height: int, ys: seq<int>, t: Tile)
    requires t in GridTiles(width, height, ys)
    ensures t.y in ys && t.x in Origins(width, 0)
    ensures t == MakeTile(width, height, t.x, t.y)
    decreases |ys|
  {
    if ys != [] {
      var row := RowTiles(width, height, ys[0], Origins(width, 0));
      if t in row {
        var i :| 0 <= i < |row| && row[i] == t;
      } else {
        GridTilesShape(width, height, ys[1..], t);
      }
    }
  }

  /**
   * Every tile starts inside the frame at a multiple of Stride, is 1 to
   * TileSize pixels wide and high, and ends inside the frame. In particular
   * its extent meets padTensor's precondition.
   */
  lemma TileBounds(width: int, height: int, t: Tile)
    requires t in TileGrid(width, height)
    ensures 0 <= t.x < width && 0 <= t.y < height
    ensures t.x % Stride == 0 && t.y % Stride == 0
    ensures 1 <= t.width <= TileSize && t.x + t.width <= width
    ensures 1 <= t.height <= TileSize && t.y + t.height <= height
  {
    GridTilesShape(width, height, Origins(height, 0), t);
    OriginOnGrid(width, t.x);
    OriginOnGrid(height, t.y);
  }

  /** An origin of the loop from 0 is a multiple of Stride inside the extent. */
  lemma OriginOnGrid(extent: int, o: int)
    requires o in Origins(extent, 0)
    ensures 0 <= o < extent && o % Stride == 0
  {
    OriginsInRange(extent, 0);
    var i :| 0 <= i < |Origins(extent, 0)| && Origins(extent, 0)[i] == o;
    StrideMultiple(i);
  }

  lemma StrideMultiple(i: int)
    ensures (i * Stride) % Stride == 0
  {
    assert i * Stride == i * 248;
  }

  lemma {:induction false} GridTilesContain(width: int, height: int, ys: seq<int>, x: int, y: int)
    requires x in Origins(width, 0) && y in ys
    ensures MakeTile(width, height, x, y) in GridTiles(width, height, ys)
    decreases |ys|
  {
    if ys[0] == y {
      var row := RowTiles(width, height, y, Origins(width, 0));
      var i :| 0 <= i < |Origins(width, 0)| && Origins(width, 0)[i] == x;
      assert row[i] == MakeTile(width, height, x, y);
    } else {
      GridTilesContain(width, height, ys[1..], x, y);
    }
  }

  /** The origin of the tile span that holds position p. */
  lemma CoveringOrigin(extent: int, p: int) returns (o: int)
    requires 0 <= p < extent
    ensures o in Origins(extent, 0)
    ensures o <= p < o + Min(TileSize, extent - o)
  {
    OriginsCover(extent, 0, p);
    var i :| 0 <= i < |Origins(extent, 0)| && Origins(extent, 0)[i] <= p < Origins(extent, 0)[i] + Stride;
    o := Origins(extent, 0)[i];
  }

  /** The tiles cover the frame: every pixel lies inside some tile's valid extent. */
  lemma TilesCover(width: int, height: int, px: int, py: int)
    requires 0 <= px < width && 0 <= py < height
    ensures exists t :: t in TileGrid(width, height) &&
              t.x <= px < t.x + t.width && t.y <= py < t.y + t.height
  {
    var x := CoveringOrigin(width, px);
    var y := CoveringOrigin(height, py);
    GridTilesContain(width, height, Origins(height, 0), x, y);
    var t := MakeTile(width, height, x, y);
    assert t in TileGrid(width, height);
  }

  // ---------------------------------------------------------------- tensor fill

  /** The tensor index pixel i of a tile of width tileWidth is written to, for channel c. */
  function FillIndex(c: int, i: int, tileWidth: int): int
    requires tileWidth > 0
  {
    c * 65536 + (i / tileWidth) * 256 + i % tileWidth
  }

  lemma PositiveFactor(a: int, b: int)
    requires a > 0 && a * b > 0
    ensures b > 0
  {
  }

  /**
   * For the tileWidth * tileHeight pixels of a tile, the fill writes the cell
   * (c, i / tileWidth, i % tileWidth) of the valid region: inside the tensor,
   * and inside the region padTensor keeps.
   */
  lemma FillIndexInValidRegion(c: int, i: int, tileWidth: int, tileHeight: int)
    requires 0 <= c < 3 && 1 <= tileWidth <= TileSize && 1 <= tileHeight <= TileSize
    requires 0 <= i < tileWidth * tileHeight
    ensures FillIndex(c, i, tileWidth) == Idx(c, i / tileWidth, i % tileWidth)
    ensures 0 <= i / tileWidth < tileHeight && 0 <= i % tileWidth < tileWidth
    ensures 0 <= FillIndex(c, i, tileWidth) < TensorLength
  {
    var h := i / tileWidth;
    var w := i % tileWidth;
    assert i == tileWidth * h + w;
    assert 0 <= w < tileWidth;
    assert tileWidth * tileHeight - tileWidth * h == tileWidth * (tileHeight - h);
    PositiveFactor(tileWidth, tileHeight - h);
    assert h >= 0 by {
      assert tileWidth * h > -tileWidth;
      PositiveFactor(tileWidth, h + 1);
    }
  }
}
