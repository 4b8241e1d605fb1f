/** include/roguelike.h: a terminal that collects tiles as 18-byte records,
    position biased by 16384, and draws them all with one `glDrawArrays`. */
module Roguelike {
  import opened Common
  import opened Wire

  /** `kTilePositionOffset` */
  const TILE_POSITION_OFFSET: int := 16384

  /** `kVerticesPerTile`: two triangles per tile. */
  const VERTICES_PER_TILE: nat := 6

  /** What `rlhTermDrawMatrix` hands to OpenGL: nothing, or the bytes
      uploaded to the data buffer and the vertex count of `glDrawArrays`. */
  datatype DrawCall = NoDraw | DrawArrays(uploaded: seq<Byte>, vertexCount: nat)

  /** Whole tiles of `tile * scale` pixels that fit in `pixels`. */
  function TilesAcross(pixels: nat, scale: nat, tile: nat): (n: nat)
    requires scale > 0 && tile > 0
    ensures n * (tile * scale) <= pixels < (n + 1) * (tile * scale)
  {
    var step := tile * scale;
    assert pixels == step * (pixels / step) + pixels % step;
    pixels / step
  }

  /** `rlhTerm_s`: console size, tile size and the growable tile buffer.
      `tiles` is the sequence of tiles pushed since the last clear, the
      abstract content of the first `count` records of `data`. */
  class Term {
    var pixelWidth: nat
    var pixelHeight: nat
    var pixelScale: nat
    var tilesWide: nat
    var tilesTall: nat
    var tileWidth: nat
    var tileHeight: nat
    var capacity: nat
    var count: nat
    var data: array<Byte>
    ghost var tiles: seq<Tile>

    ghost predicate Valid()
      reads this, data
    {
      && count <= capacity
      && data.Length == RECORD_BYTES * capacity
      && |tiles| == count
      && data[..RECORD_BYTES * count] == EncodeAll(TILE_POSITION_OFFSET, tiles)
    }

    /** `rlhTermCreatePixelDimensions` when its allocations succeed, with a
        whole-number pixel scale. The buffer starts with room for one full
        screen of tiles. */
    constructor (pixelWidth: nat, pixelHeight: nat, pixelScale: nat, tileWidth: nat, tileHeight: nat,
                 floorPixelsToTiles: bool)
      requires pixelScale > 0 && tileWidth > 0 && tileHeight > 0
      ensures Valid() && tiles == []
      ensures this.pixelScale == pixelScale && this.tileWidth == tileWidth && this.tileHeight == tileHeight
      ensures tilesWide == TilesAcross(pixelWidth, pixelScale, tileWidth)
      ensures tilesTall == TilesAcross(pixelHeight, pixelScale, tileHeight)
      ensures this.pixelWidth == if floorPixelsToTiles then tilesWide * (tileWidth * pixelScale) else pixelWidth
      ensures this.pixelHeight == if floorPixelsToTiles then tilesTall * (tileHeight * pixelScale) else pixelHeight
      ensures capacity == tilesWide * tilesTall
    {
      this.pixelScale := pixelScale;
      var wide := TilesAcross(pixelWidth, pixelScale, tileWidth);
      var tall := TilesAcross(pixelHeight, pixelScale, tileHeight);
      tilesWide := wide;
      tilesTall := tall;
      this.tileWidth := tileWidth;
      this.tileHeight := tileHeight;
      if floorPixelsToTiles {
        this.pixelWidth := wide * (tileWidth * pixelScale);
        this.pixelHeight := tall * (tileHeight * pixelScale);
      } else {
        this.pixelWidth := pixelWidth;
        this.pixelHeight := pixelHeight;
      }
      capacity := wide * tall;
      count := 0;
      data := new Byte[RECORD_BYTES * (wide * tall)];
      tiles := [];
    }

    /** `rlhTermResizePixelDimensions` with a whole-number pixel scale: the
        console and tile sizes change, the buffer and the tiles already
        pushed do not. */
    method ResizePixelDimensions(pixelWidth: nat, pixelHeight: nat, pixelScale: nat, tileWidth: nat, tileHeight: nat,
                                 floorPixelsToTiles: bool)
      requires Valid()
      requires pixelScale > 0 && tileWidth > 0 && tileHeight > 0
      modifies this`pixelWidth, this`pixelHeight, this`pixelScale, this`tilesWide, this`tilesTall,
               this`tileWidth, this`tileHeight
      ensures Valid()
      ensures this.pixelScale == pixelScale && this.tileWidth == tileWidth && this.tileHeight == tileHeight
      ensures tilesWide == TilesAcross(pixelWidth, pixelScale, tileWidth)
      ensures tilesTall == TilesAcross(pixelHeight, pixelScale, tileHeight)
      ensures this.pixelWidth == if floorPixelsToTiles then tilesWide * (tileWidth * pixelScale) else pixelWidth
      ensures this.pixelHeight == if floorPixelsToTiles then tilesTall * (tileHeight * pixelScale) else pixelHeight
    {
      this.pixelScale := pixelScale;
      tilesWide := TilesAcross(pixelWidth, pixelScale, tileWidth);
      tilesTall := TilesAcross(pixelHeight, pixelScale, tileHeight);
      this.tileWidth := tileWidth;
      this.tileHeight := tileHeight;
      if floorPixelsToTiles {
        this.pixelWidth := tilesWide * (tileWidth * pixelScale);
        this.pixelHeight := tilesTall * (tileHeight * pixelScale);
      } else {
        this.pixelWidth := pixelWidth;
        this.pixelHeight := pixelHeight;
      }
    }

    /** `rlhTermClear`: forget every tile, keep the buffer. */
    method Clear()
      requires Valid()
      modifies this`count, this`tiles
      ensures Valid() && tiles == []
    {
      count := 0;
      tiles := [];
    }

    /** `rlhTermGetTileCount` */
    function TileCount(): (n: nat)
      reads this, data
      requires Valid()
      ensures n == |tiles|
    {
      count
    }

    /** `_rlhTermTryReserve`: make room for one more record, growing a full
        buffer by `NextCapacity` when `allocOk` says `realloc` succeeds. The
        records already written are carried over to the larger buffer. */
    method TryReserve(allocOk: bool) returns (ok: bool)
      requires Valid()
      modifies this`capacity, this`data
      ensures Valid() && tiles == old(tiles)
      ensures ok <==> old(count) < old(capacity) || allocOk
      ensures ok ==> count < capacity
      ensures capacity == if old(count) == old(capacity) && allocOk then NextCapacity(old(capacity)) else old(capacity)
      ensures capacity == old(capacity) ==> data == old(data)
      ensures capacity != old(capacity) ==> fresh(data)
    {
      if count == capacity {
        var newCapacity := NextCapacity(capacity);
        if !allocOk {
          return false;
        }
        var grown := new Byte[RECORD_BYTES * newCapacity];
        forall i | 0 <= i < data.Length {
          grown[i] := data[i];
        }
        assert grown[..RECORD_BYTES * count] == data[..RECORD_BYTES * count];
        data := grown;
        capacity := newCapacity;
      }
      ok := true;
    }

    /** `_rlhTermPushTile`: write the tile's record at byte `18 * count`,
        leaving every other byte of the buffer as it was. */
    method PushTile(t: Tile)
      requires Valid() && count < capacity
      modifies this`count, this`tiles, data
      ensures Valid() && tiles == old(tiles) + [t]
      ensures data[..] == old(data[..])[..RECORD_BYTES * old(count)] + Encode(TILE_POSITION_OFFSET, t)
                          + old(data[..])[RECORD_BYTES * old(count) + RECORD_BYTES..]
    {
      var record := Encode(TILE_POSITION_OFFSET, t);
      var index := RECORD_BYTES * count;
      forall i | 0 <= i < RECORD_BYTES {
        data[index + i] := record[i];
      }
      assert data[..index] == old(data[..index]);
      assert data[index..index + RECORD_BYTES] == record;
      assert data[..index + RECORD_BYTES] == data[..index] + data[index..index + RECORD_BYTES];
      assert data[..] == data[..index] + data[index..index + RECORD_BYTES] + data[index + RECORD_BYTES..];
      count := count + 1;
      tiles := tiles + [t];
    }

    /** `rlhTermPushTileGrid`: a tile of the default size at a grid cell. */
    method PushTileGrid(gridX: int, gridY: int, glyph: Uint16, fg: Color32, bg: Color32, allocOk: bool)
      requires Valid()
      modifies this`capacity, this`data, this`count, this`tiles, data
      ensures Valid()
      ensures Pushed(old(tiles), old(capacity), GridInBounds(gridX, gridY, tilesWide, tilesTall), allocOk,
                     Tile(gridX * tileWidth, gridY * tileHeight, tileWidth, tileHeight, glyph, fg, bg),
                     tiles, capacity)
    {
      if !GridInBounds(gridX, gridY, tilesWide, tilesTall) {
        return;
      }
      var ok := TryReserve(allocOk);
      if !ok {
        return;
      }
      PushTile(Tile(gridX * tileWidth, gridY * tileHeight, tileWidth, tileHeight, glyph, fg, bg));
    }

    /** `rlhTermPushTileGridSized`: a tile of a given size at a grid cell. */
    method PushTileGridSized(gridX: int, gridY: int, w: int, h: int, glyph: Uint16, fg: Color32, bg: Color32,
                             allocOk: bool)
      requires Valid()
      modifies this`capacity, this`data, this`count, this`tiles, data
      ensures Valid()
      ensures Pushed(old(tiles), old(capacity), GridInBounds(gridX, gridY, tilesWide, tilesTall) && SizeAccepted(w, h),
                     allocOk, Tile(gridX * tileWidth, gridY * tileHeight, w, h, glyph, fg, bg), tiles, capacity)
    {
      if !GridInBounds(gridX, gridY, tilesWide, tilesTall) {
        return;
      }
      if !SizeAccepted(w, h) {
        return;
      }
      var ok := TryReserve(allocOk);
      if !ok {
        return;
      }
      PushTile(Tile(gridX * tileWidth, gridY * tileHeight, w, h, glyph, fg, bg));
    }

    /** `rlhTermPushTileFree`: a tile of the default size at a pixel
        position, kept only within one tile of a tile-sized area (see
        `FreeInBoundsAsWritten`). */
    method PushTileFree(x: int, y: int, glyph: Uint16, fg: Color32, bg: Color32, allocOk: bool)
      requires Valid()
      modifies this`capacity, this`data, this`count, this`tiles, data
      ensures Valid()
      ensures Pushed(old(tiles), old(capacity), FreeInBoundsAsWritten(x, y, tileWidth, tileHeight), allocOk,
                     Tile(x, y, tileWidth, tileHeight, glyph, fg, bg), tiles, capacity)
    {
      if !FreeInBoundsAsWritten(x, y, tileWidth, tileHeight) {
        return;
      }
      var ok := TryReserve(allocOk);
      if !ok {
        return;
      }
      PushTile(Tile(x, y, tileWidth, tileHeight, glyph, fg, bg));
    }

    /** `rlhTermPushTileFreeSized`: a tile of a given size at a pixel
        position, kept when it touches the console and its size passes. */
    method PushTileFreeSized(x: int, y: int, w: int, h: int, glyph: Uint16, fg: Color32, bg: Color32,
                             allocOk: bool)
      requires Valid()
      modifies this`capacity, this`data, this`count, this`tiles, data
      ensures Valid()
      ensures Pushed(old(tiles), old(capacity), RectTouches(x, y, w, h, pixelWidth, pixelHeight) && SizeAccepted(w, h),
                     allocOk, Tile(x, y, w, h, glyph, fg, bg), tiles, capacity)
    {
      if !RectTouches(x, y, w, h, pixelWidth, pixelHeight) {
        return;
      }
      if !SizeAccepted(w, h) {
        return;
      }
      var ok := TryReserve(allocOk);
      if !ok {
        return;
      }
      PushTile(Tile(x, y, w, h, glyph, fg, bg));
    }

    /** `rlhTermDrawMatrix`: with tiles pending, upload exactly their records
        and draw six vertices per tile; with none, draw nothing. The tiles
        are not cleared. */
    method DrawMatrix() returns (call: DrawCall)
      requires Valid()
      ensures call.NoDraw? <==> |tiles| == 0
      ensures call.DrawArrays? ==> call.uploaded == EncodeAll(TILE_POSITION_OFFSET, tiles)
                                   && call.vertexCount == VERTICES_PER_TILE * |tiles|
    {
      if count > 0 {
        call := DrawArrays(data[..RECORD_BYTES * count], count * VERTICES_PER_TILE);
      } else {
        call := NoDraw;
      }
    }
  }

  /** The position check of `rlhTermPushTileFree` as written: it compares
      against the tile size where the console size is meant. */
  predicate FreeInBoundsAsWritten(x: int, y: int, tileWidth: int, tileHeight: int) {
    RectTouches(x, y, tileWidth, tileHeight, tileWidth, tileHeight)
  }

  /** The position check `rlhTermPushTileFree` evidently means: the same
      signed check as `rlhTermPushTileFreeSized`, against the console. */
  predicate FreeInBounds(x: int, y: int, tileWidth: int, tileHeight: int, pixelWidth: int, pixelHeight: int) {
    RectTouches(x, y, tileWidth, tileHeight, pixelWidth, pixelHeight)
  }

  /** As written, a default-size tile in the middle of an 80 by 50 console
      of 8-pixel tiles is dropped, where the corrected check keeps it. */
  lemma FreeInBoundsAsWrittenDropsVisible()
    ensures !FreeInBoundsAsWritten(40, 24, 8, 8)
    ensures FreeInBounds(40, 24, 8, 8, 80, 50)
  {
  }

  /** The corrected check keeps every default-size tile that covers a
      console pixel, and also those lying against an edge of the console,
      which cover none; it drops every tile at least one pixel clear of the
      console. */
  lemma FreeInBoundsKeepsVisible(x: int, y: int, tileWidth: int, tileHeight: int, pixelWidth: int, pixelHeight: int)
    ensures x + tileWidth > 0 && x < pixelWidth && y + tileHeight > 0 && y < pixelHeight
            ==> FreeInBounds(x, y, tileWidth, tileHeight, pixelWidth, pixelHeight)
    ensures x > pixelWidth || y > pixelHeight || x + tileWidth < 0 || y + tileHeight < 0
            ==> !FreeInBounds(x, y, tileWidth, tileHeight, pixelWidth, pixelHeight)
    ensures 0 <= tileWidth && 0 <= pixelWidth && y + tileHeight > 0 && y < pixelHeight
            && (x == pixelWidth || x + tileWidth == 0)
            ==> FreeInBounds(x, y, tileWidth, tileHeight, pixelWidth, pixelHeight)
    ensures 0 <= tileHeight && 0 <= pixelHeight && x + tileWidth > 0 && x < pixelWidth
            && (y == pixelHeight || y + tileHeight == 0)
            ==> FreeInBounds(x, y, tileWidth, tileHeight, pixelWidth, pixelHeight)
  {
    if x + tileWidth > 0 && x < pixelWidth && y + tileHeight > 0 && y < pixelHeight {
      RectTouchesWhenVisible(x, y, tileWidth, tileHeight, pixelWidth, pixelHeight);
    }
  }

  /** The biased position survives the record exactly for
      -16384 <= x, y < 49152; sizes survive exactly below 65536. */
  lemma PositionRoundTrip(t: Tile)
    ensures Decode(TILE_POSITION_OFFSET, Encode(TILE_POSITION_OFFSET, t)) == t
        <==> -16384 <= t.x < 49152 && -16384 <= t.y < 49152 && 0 <= t.w < 65536 && 0 <= t.h < 65536
  {
    RoundTripIffFits(TILE_POSITION_OFFSET, t);
  }

  /** The check of `rlhTermPushTileFreeSized` bounds x below only by the
      tile's own width, so a wide tile it keeps can lie beyond the bias. */
  lemma FreeSizedKeepsUnencodable(c: Color32)
    ensures RectTouches(-20000, 0, 20000, 8, 640, 480) && SizeAccepted(20000, 8)
    ensures !Fits(TILE_POSITION_OFFSET, Tile(-20000, 0, 20000, 8, 0, c, c))
  {
  }

  /** `_setTermScissor`: move a negative origin to 0 and shrink the extent
      by the same amount, so the far edges stay where they were. */
  function SetTermScissor(translateX: int, translateY: int, width: int, height: int): (r: Rect)
    ensures r.x >= 0 && r.y >= 0
    ensures r.x + r.w == translateX + width && r.y + r.h == translateY + height
    ensures translateX >= 0 ==> r.x == translateX && r.w == width
    ensures translateY >= 0 ==> r.y == translateY && r.h == height
  {
    var croppedX := Max(translateX, 0);
    var croppedY := Max(translateY, 0);
    Rect(croppedX, croppedY, width - (croppedX - translateX), height - (croppedY - translateY))
  }
}
