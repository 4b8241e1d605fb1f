/** include/jm/roguelike.h: the same 18-byte tile records as
    include/roguelike.h with the position biased by 4096, and a console
    whose tile grid is derived from its pixel size and a default tile size. */
module Jm {
  import opened Common
  import opened Wire

  /** `kTilePositionOffset` */
  const TILE_POSITION_OFFSET: int := 4096

  /** `rlhterm_s`: console and default tile sizes and the growable tile
      buffer. `tiles` is the sequence of tiles pushed since the last clear
      or resize, the abstract content of the first `tileCount` records of
      `data`. */
  class Term {
    var consoleTilesWide: nat
    var consoleTilesTall: nat
    var consolePixelWidth: nat
    var consolePixelHeight: nat
    var defaultTilePixelWidth: nat
    var defaultTilePixelHeight: nat
    var tileCount: nat
    var reservedTileCount: nat
    var data: array<Byte>
    ghost var tiles: seq<Tile>

    ghost predicate Valid()
      reads this, data
    {
      && defaultTilePixelWidth > 0 && defaultTilePixelHeight > 0
      && consoleTilesWide == consolePixelWidth / defaultTilePixelWidth
      && consoleTilesTall == consolePixelHeight / defaultTilePixelHeight
      && tileCount <= reservedTileCount
      && data.Length == RECORD_BYTES * reservedTileCount
      && |tiles| == tileCount
      && data[..RECORD_BYTES * tileCount] == EncodeAll(TILE_POSITION_OFFSET, tiles)
    }

    /** `rlhTermCreate` when its allocations succeed: the grid is the whole
        number of default tiles across the console, and the buffer has room
        for one full grid. */
    constructor (consolePixelWidth: nat, consolePixelHeight: nat, defaultTilePixelWidth: nat,
                 defaultTilePixelHeight: nat)
      requires defaultTilePixelWidth > 0 && defaultTilePixelHeight > 0
      ensures Valid() && tiles == []
      ensures this.consolePixelWidth == consolePixelWidth && this.consolePixelHeight == consolePixelHeight
      ensures this.defaultTilePixelWidth == defaultTilePixelWidth
      ensures this.defaultTilePixelHeight == defaultTilePixelHeight
      ensures reservedTileCount == consoleTilesWide * consoleTilesTall
      ensures GetPixelDimensions() == (consolePixelWidth, consolePixelHeight)
    {
      this.consolePixelWidth := consolePixelWidth;
      this.consolePixelHeight := consolePixelHeight;
      this.defaultTilePixelWidth := defaultTilePixelWidth;
      this.defaultTilePixelHeight := defaultTilePixelHeight;
      var wide := consolePixelWidth / defaultTilePixelWidth;
      var tall := consolePixelHeight / defaultTilePixelHeight;
      consoleTilesWide := wide;
      consoleTilesTall := tall;
      reservedTileCount := wide * tall;
      tileCount := 0;
      data := new Byte[RECORD_BYTES * (wide * tall)];
      tiles := [];
    }

    /** `rlhTermResizeConsole`: new console size, grid recomputed, tiles
        cleared; the buffer keeps its capacity. */
    method ResizeConsole(consolePixelWidth: nat, consolePixelHeight: nat)
      requires Valid()
      modifies this`consolePixelWidth, this`consolePixelHeight, this`consoleTilesWide, this`consoleTilesTall,
               this`tileCount, this`tiles
      ensures Valid() && tiles == []
      ensures this.consolePixelWidth == consolePixelWidth && this.consolePixelHeight == consolePixelHeight
      ensures GetPixelDimensions() == (consolePixelWidth, consolePixelHeight)
    {
      this.consolePixelWidth := consolePixelWidth;
      this.consolePixelHeight := consolePixelHeight;
      consoleTilesWide := consolePixelWidth / defaultTilePixelWidth;
      consoleTilesTall := consolePixelHeight / defaultTilePixelHeight;
      tileCount := 0;
      tiles := [];
    }

    /** `rlhTermResizeTiles`: new default tile size, grid recomputed, tiles
        cleared. The header divides by the new size, so it must be positive. */
    method ResizeTiles(defaultTileWidth: nat, defaultTileHeight: nat)
      requires Valid()
      requires defaultTileWidth > 0 && defaultTileHeight > 0
      modifies this`defaultTilePixelWidth, this`defaultTilePixelHeight, this`consoleTilesWide,
               this`consoleTilesTall, this`tileCount, this`tiles
      ensures Valid() && tiles == []
      ensures defaultTilePixelWidth == defaultTileWidth && defaultTilePixelHeight == defaultTileHeight
      ensures GetPixelDimensions() == old(GetPixelDimensions())
    {
      defaultTilePixelWidth := defaultTileWidth;
      defaultTilePixelHeight := defaultTileHeight;
      consoleTilesWide := consolePixelWidth / defaultTilePixelWidth;
      consoleTilesTall := consolePixelHeight / defaultTilePixelHeight;
      tileCount := 0;
      tiles := [];
    }

    /** `rlhTermGetPixelDimensions` as written: the width it reports is the
        console's width in tiles. */
    function GetPixelDimensionsAsWritten(): (d: (nat, nat))
      reads this, data
      requires Valid()
      ensures d.0 == consolePixelWidth / defaultTilePixelWidth
      ensures d.1 == consolePixelHeight
    {
      (consoleTilesWide, consolePixelHeight)
    }

    /** `rlhTermGetPixelDimensions` as evidently meant: the console size
        last set by the constructor or `ResizeConsole`. */
    function GetPixelDimensions(): (d: (nat, nat))
      reads this
      ensures d == (consolePixelWidth, consolePixelHeight)
    {
      (consolePixelWidth, consolePixelHeight)
    }

    /** `rlhTermClear`: forget every tile, keep the buffer. */
    method Clear()
      requires Valid()
      modifies this`tileCount, this`tiles
      ensures Valid() && tiles == []
    {
      tileCount := 0;
      tiles := [];
    }

    /** `rlhTermGetTileCount` */
    function GetTileCount(): (n: nat)
      reads this, data
      requires Valid()
      ensures n == |tiles|
    {
      tileCount
    }

    /** `_rlhTermTryReserve`: make room for one more record, growing a full
        buffer by `NextCapacity` when `allocOk` says `realloc` succeeds. */
    method TryReserve(allocOk: bool) returns (ok: bool)
      requires Valid()
      modifies this`reservedTileCount, this`data
      ensures Valid() && tiles == old(tiles)
      ensures ok <==> old(tileCount) < old(reservedTileCount) || allocOk
      ensures ok ==> tileCount < reservedTileCount
      ensures reservedTileCount == if old(tileCount) == old(reservedTileCount) && allocOk
                                   then NextCapacity(old(reservedTileCount)) else old(reservedTileCount)
      ensures reservedTileCount == old(reservedTileCount) ==> data == old(data)
      ensures reservedTileCount != old(reservedTileCount) ==> fresh(data)
    {
      if tileCount == reservedTileCount {
        var newTileCount := NextCapacity(reservedTileCount);
        if !allocOk {
          return false;
        }
        var grown := new Byte[RECORD_BYTES * newTileCount];
        forall i | 0 <= i < data.Length {
          grown[i] := data[i];
        }
        assert grown[..RECORD_BYTES * tileCount] == data[..RECORD_BYTES * tileCount];
        data := grown;
        reservedTileCount := newTileCount;
      }
      ok := true;
    }

    /** `_rlhTermPushTile`: write the tile's record at byte
        `18 * tileCount`, leaving every other byte as it was. */
    method PushTile(t: Tile)
      requires Valid() && tileCount < reservedTileCount
      modifies this`tileCount, this`tiles, data
      ensures Valid() && tiles == old(tiles) + [t]
      ensures data[..] == old(data[..])[..RECORD_BYTES * old(tileCount)] + Encode(TILE_POSITION_OFFSET, t)
                          + old(data[..])[RECORD_BYTES * old(tileCount) + RECORD_BYTES..]
    {
      var record := Encode(TILE_POSITION_OFFSET, t);
      var index := RECORD_BYTES * tileCount;
      forall i | 0 <= i < RECORD_BYTES {
        data[index + i] := record[i];
      }
      assert data[..index] == old(data[..index]);
      assert data[index..index + RECORD_BYTES] == record;
      assert data[..index + RECORD_BYTES] == data[..index] + data[index..index + RECORD_BYTES];
      assert data[..] == data[..index] + data[index..index + RECORD_BYTES] + data[index + RECORD_BYTES..];
      tileCount := tileCount + 1;
      tiles := tiles + [t];
    }

    /** `rlhTermPushTileGrid`: a default-size tile at a grid cell. */
    method PushTileGrid(gridX: int, gridY: int, glyph: Uint16, fg: Color32, bg: Color32, allocOk: bool)
      requires Valid()
      modifies this`reservedTileCount, this`data, this`tileCount, this`tiles, data
      ensures Valid()
      ensures Pushed(old(tiles), old(reservedTileCount), GridInBounds(gridX, gridY, consoleTilesWide, consoleTilesTall),
                     allocOk, Tile(gridX * defaultTilePixelWidth, gridY * defaultTilePixelHeight,
                                   defaultTilePixelWidth, defaultTilePixelHeight, glyph, fg, bg),
                     tiles, reservedTileCount)
    {
      if !GridInBounds(gridX, gridY, consoleTilesWide, consoleTilesTall) {
        return;
      }
      var ok := TryReserve(allocOk);
      if !ok {
        return;
      }
      PushTile(Tile(gridX * defaultTilePixelWidth, gridY * defaultTilePixelHeight,
                    defaultTilePixelWidth, defaultTilePixelHeight, glyph, fg, bg));
    }

    /** `rlhTermPushTileGridSized`: a tile of a given size at a grid cell. */
    method PushTileGridSized(gridX: int, gridY: int, w: int, h: int, glyph: Uint16, fg: Color32, bg: Color32,
                             allocOk: bool)
      requires Valid()
      modifies this`reservedTileCount, this`data, this`tileCount, this`tiles, data
      ensures Valid()
      ensures Pushed(old(tiles), old(reservedTileCount),
                     GridInBounds(gridX, gridY, consoleTilesWide, consoleTilesTall) && SizeAccepted(w, h), allocOk,
                     Tile(gridX * defaultTilePixelWidth, gridY * defaultTilePixelHeight, w, h, glyph, fg, bg),
                     tiles, reservedTileCount)
    {
      if !GridInBounds(gridX, gridY, consoleTilesWide, consoleTilesTall) {
        return;
      }
      if !SizeAccepted(w, h) {
        return;
      }
      var ok := TryReserve(allocOk);
      if !ok {
        return;
      }
      PushTile(Tile(gridX * defaultTilePixelWidth, gridY * defaultTilePixelHeight, w, h, glyph, fg, bg));
    }

    /** `rlhTermPushTileFree`: a default-size tile at a pixel position, kept
        when `FreeInBoundsAsWritten` holds. */
    method PushTileFree(x: int, y: int, glyph: Uint16, fg: Color32, bg: Color32, allocOk: bool)
      requires Valid()
      modifies this`reservedTileCount, this`data, this`tileCount, this`tiles, data
      ensures Valid()
      ensures Pushed(old(tiles), old(reservedTileCount),
                     FreeInBoundsAsWritten(x, y, defaultTilePixelWidth, defaultTilePixelHeight,
                                           consolePixelWidth, consolePixelHeight), allocOk,
                     Tile(x, y, defaultTilePixelWidth, defaultTilePixelHeight, glyph, fg, bg),
                     tiles, reservedTileCount)
    {
      if !FreeInBoundsAsWritten(x, y, defaultTilePixelWidth, defaultTilePixelHeight,
                                consolePixelWidth, consolePixelHeight) {
        return;
      }
      var ok := TryReserve(allocOk);
      if !ok {
        return;
      }
      PushTile(Tile(x, y, defaultTilePixelWidth, defaultTilePixelHeight, glyph, fg, bg));
    }

    /** `rlhTermPushTileFreeSized`: a tile of a given size at a pixel
        position, kept when `FreeInBoundsAsWritten` holds and the size
        passes. */
    method PushTileFreeSized(x: int, y: int, w: int, h: int, glyph: Uint16, fg: Color32, bg: Color32,
                             allocOk: bool)
      requires Valid()
      modifies this`reservedTileCount, this`data, this`tileCount, this`tiles, data
      ensures Valid()
      ensures Pushed(old(tiles), old(reservedTileCount),
                     FreeInBoundsAsWritten(x, y, w, h, consolePixelWidth, consolePixelHeight) && SizeAccepted(w, h),
                     allocOk, Tile(x, y, w, h, glyph, fg, bg), tiles, reservedTileCount)
    {
      if !FreeInBoundsAsWritten(x, y, w, h, consolePixelWidth, consolePixelHeight) {
        return;
      }
      if !SizeAccepted(w, h) {
        return;
      }
      var ok := TryReserve(allocOk);
      if !ok {
        return;
      }
      PushTile(Tile(x, y, w, h, glyph, fg, bg));
    }
  }

  /** The position check of the free pushes as written: the upper bounds
      compare a signed position with an unsigned console size, so the
      position is first converted to `size_t`. */
  predicate FreeInBoundsAsWritten(x: int, y: int, w: int, h: int, consolePixelWidth: nat, consolePixelHeight: nat) {
    !(x < -w || y < -h || ToSizeT(x) > consolePixelWidth || ToSizeT(y) > consolePixelHeight)
  }

  /** As written, every tile at a negative position is dropped, however
      much of it would be on the console. */
  lemma FreeInBoundsAsWrittenDropsNegative(x: int, y: int, w: int, h: int, consolePixelWidth: nat,
                                           consolePixelHeight: nat)
    requires -0x8000_0000 <= x < 0 || -0x8000_0000 <= y < 0
    requires consolePixelWidth < 0x8000_0000 && consolePixelHeight < 0x8000_0000
    ensures !FreeInBoundsAsWritten(x, y, w, h, consolePixelWidth, consolePixelHeight)
  {
  }

  /** A default 8 by 8 tile at (-4, 0) covers console pixels 0 to 3 of row
      0: the as-written check drops it, the signed check keeps it. */
  lemma FreeInBoundsAsWrittenDropsVisible()
    ensures !FreeInBoundsAsWritten(-4, 0, 8, 8, 80, 50)
    ensures RectTouches(-4, 0, 8, 8, 80, 50)
  {
  }

  /** At non-negative positions the as-written check and the signed check
      agree. */
  lemma FreeInBoundsAgreeOnNonNegative(x: int, y: int, w: int, h: int, consolePixelWidth: nat,
                                       consolePixelHeight: nat)
    requires 0 <= x < SIZE_T_MODULUS && 0 <= y < SIZE_T_MODULUS
    ensures FreeInBoundsAsWritten(x, y, w, h, consolePixelWidth, consolePixelHeight)
        <==> RectTouches(x, y, w, h, consolePixelWidth, consolePixelHeight)
  {
  }

  /** The width `GetPixelDimensionsAsWritten` reports is the pixel width only
      for an empty console or one-pixel tiles. */
  lemma {:induction false} TilesWideIsPixelWidthOnlyIfTrivial(pixelWidth: nat, tileWidth: nat)
    requires tileWidth > 0
    ensures pixelWidth / tileWidth == pixelWidth <==> pixelWidth == 0 || tileWidth == 1
  {
    if tileWidth == 1 {
      ModOfMultiple(1, pixelWidth);
    } else if pixelWidth > 0 {
      var q := pixelWidth / tileWidth;
      DivBounds(pixelWidth, tileWidth);
      MulMonotone(2, tileWidth, q);
      assert 2 * q <= pixelWidth;
    }
  }

  /** What `rlhTermGetPixelDimensions` reports as written is the console
      size with the width divided by the default tile width, and so equals
      the console size only for an empty console or one-pixel tiles. */
  lemma PixelDimensionsAsWrittenAgreeOnlyIfTrivial(term: Term)
    requires term.Valid()
    ensures term.GetPixelDimensionsAsWritten()
            == (term.GetPixelDimensions().0 / term.defaultTilePixelWidth, term.GetPixelDimensions().1)
    ensures term.GetPixelDimensionsAsWritten() == term.GetPixelDimensions()
        <==> term.consolePixelWidth == 0 || term.defaultTilePixelWidth == 1
  {
    TilesWideIsPixelWidthOnlyIfTrivial(term.consolePixelWidth, term.defaultTilePixelWidth);
  }

  /** The biased position survives the record exactly for
      -4096 <= x, y < 61440; sizes survive exactly below 65536. */
  lemma PositionRoundTrip(t: Tile)
    ensures Decode(TILE_POSITION_OFFSET, Encode(TILE_POSITION_OFFSET, t)) == t
        <==> -4096 <= t.x < 61440 && -4096 <= t.y < 61440 && 0 <= t.w < 65536 && 0 <= t.h < 65536
  {
    RoundTripIffFits(TILE_POSITION_OFFSET, t);
  }
}
