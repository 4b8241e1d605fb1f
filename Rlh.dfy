/** include/rlh/roguelike.h: a terminal that turns each tile into a quad of
    four vertices in a growable vertex buffer, indexes them with a shared
    six-per-tile element buffer, and reports failures as `rlhresult_t`. */
module Rlh {
  import opened Common

  /** `rlhresult_t` */
  datatype Result = Ok | NullArgument | InvalidValue | OutOfMemory

  /** `rlhcolortype_t`, kept as the integer the caller passes so that
      out-of-range values can be represented. */
  const COLOR_G: int := 0
  const COLOR_GA: int := 1
  const COLOR_RGBA: int := 2
  const COLOR_BGRA: int := 3
  const COLOR_TYPE_COUNT: int := 4

  /** `rlhsizemode_t`, kept as an integer for the same reason. */
  const SIZE_TILES: int := 0
  const SIZE_SCALED_PIXELS: int := 1
  const SIZE_UNSCALED_PIXELS: int := 2
  const SIZE_MODE_COUNT: int := 3

  /** `rlhtermhalign_t` and `rlhtermvalign_t` share their values: left and
      top are 0, right and bottom 1, centre 2. */
  const ALIGN_START: int := 0
  const ALIGN_END: int := 1
  const ALIGN_CENTER: int := 2

  /** `rlhfragmenttype_t` */
  datatype Fragment = FragmentNone | Stencil | GreenBg | AlphaBg

  const VERTEX_DATA_ATTRIBUTES_PER_VERTEX: nat := 13
  const FONTMAP_COORDINATES_PER_GLYPH: nat := 5
  const VERTICES_PER_TILE: nat := 4
  const ELEMENTS_PER_TILE: nat := 6

  /** `rlhColor_s`: four float channels, copied and never computed with. */
  datatype Color = Color(r: real, g: real, b: real, a: real)

  /** One pushed tile: the pixel rectangle and what it is drawn with. The
      52 floats `_rlhTermPushTile` writes are this rectangle divided by the
      console size, the glyph's atlas coordinates and the two colours. */
  datatype Quad = Quad(x: int, y: int, w: int, h: int, glyph: Uint16, fg: Color, bg: Color)

  /** `rlhTermSizeInfo_t` */
  datatype SizeInfo = SizeInfo(width: int, height: int, sizeMode: int, floorPixelsToTiles: bool,
                               pixelScale: int, tileWidth: int, tileHeight: int)

  /** `rlhAtlasCreateInfo_t`, with the pixel data reduced to whether the
      pointer is set; the glyph coordinate table is not modelled. */
  datatype AtlasInfo = AtlasInfo(width: int, height: int, pages: int, channelSize: int, color: int,
                                 hasPixelData: bool, glyphCount: int)

  /** The sizing fields `_rlhTermSetPixelSize` assigns. */
  datatype Sizing = Sizing(unscaledWidth: nat, unscaledHeight: nat, scaledWidth: nat, scaledHeight: nat,
                           tilesWide: nat, tilesTall: nat, pixelScale: nat, tileWidth: nat, tileHeight: nat)

  /** `_rlhSizeInfoCheck`: a missing record is a null argument; non-positive
      sizes, an unknown mode or non-positive tile sizes are invalid. The
      pixel scale is not looked at. */
  function SizeInfoCheck(info: Option<SizeInfo>): (r: Result)
    ensures r != OutOfMemory
    ensures r == NullArgument <==> info.None?
    ensures r == Ok <==> info.Some? && info.value.width > 0 && info.value.height > 0
                         && SIZE_TILES <= info.value.sizeMode < SIZE_MODE_COUNT
                         && info.value.tileWidth > 0 && info.value.tileHeight > 0
  {
    match info
    case None => NullArgument
    case Some(s) =>
      if s.width <= 0 || s.height <= 0 || s.sizeMode < SIZE_TILES || s.sizeMode >= SIZE_MODE_COUNT
         || s.tileWidth <= 0 || s.tileHeight <= 0
      then InvalidValue
      else Ok
  }

  /** A zero pixel scale passes `_rlhSizeInfoCheck`, and
      `_rlhTermSetPixelSize` would then divide by it. */
  lemma SizeInfoCheckAcceptsZeroScale()
    ensures SizeInfoCheck(Some(SizeInfo(640, 480, SIZE_SCALED_PIXELS, false, 0, 8, 8))) == Ok
  {
  }

  /** `_rlhSizeInfoCheck` with the pixel scale checked too: everything it
      accepts is a valid argument of `PixelSize`, and it rejects exactly
      what the header's check rejects plus non-positive scales. */
  function SizeInfoCheckWithScale(info: Option<SizeInfo>): (r: Result)
    ensures r == Ok <==> info.Some? && SizeInfoCheck(info) == Ok && info.value.pixelScale > 0
    ensures SizeInfoCheck(info) != Ok ==> r == SizeInfoCheck(info)
  {
    var r := SizeInfoCheck(info);
    if r == Ok && info.value.pixelScale <= 0 then InvalidValue else r
  }

  /** `_rlhAtlasInfoCheck`: a missing record or missing pixel data is a null
      argument; non-positive sizes or page count, an unknown colour type or
      no glyphs are invalid. */
  function AtlasInfoCheck(info: Option<AtlasInfo>): (r: Result)
    ensures r != OutOfMemory
    ensures r == NullArgument <==> info.None? || !info.value.hasPixelData
    ensures r == Ok <==> info.Some? && info.value.hasPixelData && info.value.width > 0 && info.value.height > 0
                         && info.value.pages > 0 && COLOR_G <= info.value.color < COLOR_TYPE_COUNT
                         && info.value.glyphCount > 0
  {
    if info.None? || !info.value.hasPixelData then NullArgument
    else
      var a := info.value;
      if a.width <= 0 || a.height <= 0 || a.pages <= 0 || a.color < COLOR_G || a.color >= COLOR_TYPE_COUNT
         || a.glyphCount <= 0
      then InvalidValue
      else Ok
  }

  /** `_rlhColorTypeToFragmentType`: grey atlases are drawn as a stencil,
      grey-alpha ones with a green background channel, everything else
      with an alpha background. */
  function ColorTypeToFragmentType(color: int): (f: Fragment)
    ensures f != FragmentNone
    ensures f == Stencil <==> color == COLOR_G
    ensures f == GreenBg <==> color == COLOR_GA
  {
    if color == COLOR_G then Stencil
    else if color == COLOR_GA then GreenBg
    else AlphaBg
  }

  /** `v - v % step`: the largest multiple of `step` not above `v`. */
  function FloorToMultiple(v: nat, step: nat): (r: nat)
    requires step > 0
    ensures r <= v && v - r < step
    ensures r % step == 0
  {
    ModOfMultiple(step, v / step);
    v - v % step
  }

  /** The flooring step of `_rlhTermSetPixelSize` as written: down to a
      multiple of `tile * scale` unscaled pixels. */
  function FloorAsWritten(v: nat, tile: nat, scale: nat): (r: nat)
    requires tile > 0 && scale > 0
    ensures r <= v && v - r < tile * scale
    ensures r % (tile * scale) == 0
  {
    FloorToMultiple(v, tile * scale)
  }

  /** Flooring to whole tiles, as the flag's name promises: the largest
      multiple of the tile size not above `v`. */
  function FloorToTiles(v: nat, tile: nat): (r: nat)
    requires tile > 0
    ensures r <= v && v - r < tile
    ensures r % tile == 0
  {
    FloorToMultiple(v, tile)
  }

  /** With a pixel scale of 2, flooring a 24-pixel width with 8-pixel
      tiles as written leaves 16 pixels, two tiles, though 24 already is a
      whole number of tiles. */
  lemma FloorAsWrittenLosesWholeTile()
    ensures FloorAsWritten(24, 8, 2) == 16
    ensures FloorToTiles(24, 8) == 24
  {
  }

  /** One axis of `_rlhTermSetPixelSize`: the unscaled extent for the
      requested size, tile size, scale, mode and flooring. */
  function UnscaledExtent(size: int, tile: int, scale: int, mode: int, floor: bool): nat
    requires size > 0 && tile > 0 && scale > 0 && SIZE_TILES <= mode < SIZE_MODE_COUNT
  {
    if mode == SIZE_TILES then
      MulMonotone(0, size, tile);
      tile * size
    else
      var raw: nat := if mode == SIZE_SCALED_PIXELS then size / scale else size;
      if floor then FloorAsWritten(raw, tile, scale) else raw
  }

  /** What each mode promises: tile mode is exactly `size` tiles; scaled
      mode never exceeds the requested scaled size and, unfloored, loses
      only the remainder of the division by the scale; unscaled mode never
      exceeds the requested size and, unfloored, is that size; flooring
      leaves a multiple of `tile * scale`. */
  lemma UnscaledExtentModes(size: int, tile: int, scale: int, mode: int, floor: bool)
    requires size > 0 && tile > 0 && scale > 0 && SIZE_TILES <= mode < SIZE_MODE_COUNT
    ensures var r := UnscaledExtent(size, tile, scale, mode, floor);
      && (mode == SIZE_TILES ==> r == tile * size && r / tile == size)
      && (mode == SIZE_SCALED_PIXELS ==> r * scale <= size)
      && (mode == SIZE_SCALED_PIXELS && !floor ==> size - scale < r * scale)
      && (mode == SIZE_UNSCALED_PIXELS ==> r <= size)
      && (mode == SIZE_UNSCALED_PIXELS && !floor ==> r == size)
      && (mode != SIZE_TILES && floor ==> r % (tile * scale) == 0)
  {
    var r := UnscaledExtent(size, tile, scale, mode, floor);
    if mode == SIZE_TILES {
      ModOfMultiple(tile, size);
    } else {
      var raw: nat := if mode == SIZE_SCALED_PIXELS then size / scale else size;
      MulMonotone(r, raw, scale);
      assert mode == SIZE_SCALED_PIXELS ==> size == scale * raw + size % scale;
    }
  }

  /** The sizing fields for an unscaled console size: the scaled size is
      the unscaled one times the scale, and the grid is the whole tiles that
      fit. */
  function SizingOf(unscaledWidth: nat, unscaledHeight: nat, scale: nat, tileWidth: nat, tileHeight: nat): (s: Sizing)
    requires scale > 0 && tileWidth > 0 && tileHeight > 0
    ensures SizingValid(s)
    ensures s.unscaledWidth == unscaledWidth && s.unscaledHeight == unscaledHeight
    ensures s.pixelScale == scale && s.tileWidth == tileWidth && s.tileHeight == tileHeight
  {
    var wide := unscaledWidth / tileWidth;
    var tall := unscaledHeight / tileHeight;
    var scaledWidth := unscaledWidth * scale;
    var scaledHeight := unscaledHeight * scale;
    DivBounds(unscaledWidth, tileWidth);
    DivBounds(unscaledHeight, tileHeight);
    MulMonotone(0, unscaledWidth, scale);
    MulMonotone(0, unscaledHeight, scale);
    assert 0 <= scaledWidth && 0 <= scaledHeight;
    var s := Sizing(unscaledWidth, unscaledHeight, scaledWidth, scaledHeight, wide, tall, scale, tileWidth, tileHeight);
    assert s.tilesWide * s.tileWidth <= s.unscaledWidth < (s.tilesWide + 1) * s.tileWidth;
    assert s.tilesTall * s.tileHeight <= s.unscaledHeight < (s.tilesTall + 1) * s.tileHeight;
    s
  }

  /** `_rlhTermSetPixelSize` as a function of the size record. */
  function PixelSize(info: SizeInfo): (s: Sizing)
    requires SizeInfoCheck(Some(info)) == Ok && info.pixelScale > 0
    ensures SizingValid(s)
    ensures s.pixelScale == info.pixelScale && s.tileWidth == info.tileWidth && s.tileHeight == info.tileHeight
    ensures s.unscaledWidth == UnscaledExtent(info.width, info.tileWidth, info.pixelScale, info.sizeMode,
                                              info.floorPixelsToTiles)
    ensures s.unscaledHeight == UnscaledExtent(info.height, info.tileHeight, info.pixelScale, info.sizeMode,
                                               info.floorPixelsToTiles)
  {
    SizingOf(UnscaledExtent(info.width, info.tileWidth, info.pixelScale, info.sizeMode, info.floorPixelsToTiles),
             UnscaledExtent(info.height, info.tileHeight, info.pixelScale, info.sizeMode, info.floorPixelsToTiles),
             info.pixelScale, info.tileWidth, info.tileHeight)
  }

  /** What holds of every sizing `_rlhTermSetPixelSize` produces. */
  ghost predicate SizingValid(s: Sizing) {
    && s.pixelScale > 0 && s.tileWidth > 0 && s.tileHeight > 0
    && s.scaledWidth == s.unscaledWidth * s.pixelScale
    && s.scaledHeight == s.unscaledHeight * s.pixelScale
    && s.tilesWide * s.tileWidth <= s.unscaledWidth < (s.tilesWide + 1) * s.tileWidth
    && s.tilesTall * s.tileHeight <= s.unscaledHeight < (s.tilesTall + 1) * s.tileHeight
  }

  /** In tile mode the grid is exactly the requested number of tiles. */
  lemma PixelSizeTilesMode(info: SizeInfo)
    requires SizeInfoCheck(Some(info)) == Ok && info.pixelScale > 0 && info.sizeMode == SIZE_TILES
    ensures PixelSize(info).tilesWide == info.width && PixelSize(info).tilesTall == info.height
  {
    UnscaledExtentModes(info.width, info.tileWidth, info.pixelScale, info.sizeMode, info.floorPixelsToTiles);
    UnscaledExtentModes(info.height, info.tileHeight, info.pixelScale, info.sizeMode, info.floorPixelsToTiles);
  }

  /** `_rlhTermTryAppendElements`' pattern for tile `i`: two triangles over
      its four vertices. */
  function TileElements(i: nat): seq<int> {
    [4 * i, 4 * i + 1, 4 * i + 2, 4 * i + 1, 4 * i + 2, 4 * i + 3]
  }

  /** The element buffer for `n` tiles. */
  function Elements(n: nat): (e: seq<int>)
    ensures |e| == ELEMENTS_PER_TILE * n
  {
    if n == 0 then [] else Elements(n - 1) + TileElements(n - 1)
  }

  /** Tile `i`'s six indices sit at `6 * i` and name its own four vertices. */
  lemma {:induction false} ElementsAt(n: nat, i: nat)
    requires i < n
    ensures Elements(n)[ELEMENTS_PER_TILE * i..ELEMENTS_PER_TILE * i + ELEMENTS_PER_TILE] == TileElements(i)
  {
    if i < n - 1 {
      ElementsAt(n - 1, i);
      assert Elements(n)[..ELEMENTS_PER_TILE * (n - 1)] == Elements(n - 1);
    }
  }

  /** The buffer for fewer tiles is a prefix of the buffer for more. */
  lemma {:induction false} ElementsPrefix(m: nat, n: nat)
    requires n <= m
    ensures Elements(m)[..ELEMENTS_PER_TILE * n] == Elements(n)
    decreases m
  {
    if n < m {
      ElementsPrefix(m - 1, n);
      assert Elements(m)[..ELEMENTS_PER_TILE * (m - 1)] == Elements(m - 1);
    }
  }

  /** Every index drawn for `n` tiles names a vertex of the same tile, so
      `glDrawElements` only reads the vertices of live tiles. */
  lemma ElementsStayInTile(n: nat, k: nat)
    requires k < ELEMENTS_PER_TILE * n
    ensures Elements(n)[k] / VERTICES_PER_TILE == k / ELEMENTS_PER_TILE
    ensures 0 <= Elements(n)[k] < VERTICES_PER_TILE * n
  {
    var i := k / ELEMENTS_PER_TILE;
    ElementsAt(n, i);
    assert Elements(n)[k] == TileElements(i)[k - ELEMENTS_PER_TILE * i];
  }

  /** The glyph check of `_rlhTermPushTile` as written: `glyph > glyph_count`
      drops, so `glyph == glyph_count` is kept. */
  predicate GlyphInRangeAsWritten(glyph: int, glyphCount: nat) {
    !(glyph > glyphCount)
  }

  /** The glyph check the table size calls for. */
  predicate GlyphInRange(glyph: int, glyphCount: nat) {
    glyph < glyphCount
  }

  /** A kept glyph reads five floats from index `5 * glyph` of a table of
      `5 * glyphCount`. The corrected check keeps exactly the glyphs whose
      five reads stay in the table. */
  lemma GlyphInRangeReadsInTable(glyph: nat, glyphCount: nat)
    ensures GlyphInRange(glyph, glyphCount)
        <==> FONTMAP_COORDINATES_PER_GLYPH * glyph + FONTMAP_COORDINATES_PER_GLYPH <= FONTMAP_COORDINATES_PER_GLYPH * glyphCount
  {
  }

  /** As written, exactly one glyph gets past the check that the corrected
      check drops, the one numbered `glyphCount`, and it is also exactly
      the kept glyph whose five reads leave the table. */
  lemma GlyphInRangeAsWrittenReadsPastTable(glyph: nat, glyphCount: nat)
    ensures GlyphInRangeAsWritten(glyph, glyphCount) && !GlyphInRange(glyph, glyphCount) <==> glyph == glyphCount
    ensures GlyphInRangeAsWritten(glyph, glyphCount)
            && FONTMAP_COORDINATES_PER_GLYPH * glyph + FONTMAP_COORDINATES_PER_GLYPH
               > FONTMAP_COORDINATES_PER_GLYPH * glyphCount
        <==> glyph == glyphCount
  {
    GlyphInRangeReadsInTable(glyph, glyphCount);
  }

  /** The cull of `_rlhTermPushTile` as written: the right and bottom bounds
      compare a signed position with an unsigned console size, so the
      position is first converted to `size_t`. */
  predicate OnScreenAsWritten(x: int, y: int, w: int, h: int, unscaledWidth: nat, unscaledHeight: nat) {
    x + w > 0 && ToSizeT(x) < unscaledWidth && y + h > 0 && ToSizeT(y) < unscaledHeight
  }

  /** The cull with signed comparisons throughout. */
  predicate OnScreen(x: int, y: int, w: int, h: int, unscaledWidth: nat, unscaledHeight: nat) {
    x + w > 0 && x < unscaledWidth && y + h > 0 && y < unscaledHeight
  }

  /** Pixel `(px, py)` lies in both the tile and the console. */
  predicate CoversPixel(x: int, y: int, w: int, h: int, unscaledWidth: nat, unscaledHeight: nat, px: int, py: int) {
    x <= px < x + w && 0 <= px < unscaledWidth && y <= py < y + h && 0 <= py < unscaledHeight
  }

  /** On a non-empty console, a tile of positive size passes the signed
      cull exactly when it covers a console pixel. */
  lemma OnScreenIffCoversPixel(x: int, y: int, w: int, h: int, unscaledWidth: nat, unscaledHeight: nat)
    requires w > 0 && h > 0 && unscaledWidth > 0 && unscaledHeight > 0
    ensures OnScreen(x, y, w, h, unscaledWidth, unscaledHeight)
        <==> exists px, py :: CoversPixel(x, y, w, h, unscaledWidth, unscaledHeight, px, py)
  {
    if OnScreen(x, y, w, h, unscaledWidth, unscaledHeight) {
      assert CoversPixel(x, y, w, h, unscaledWidth, unscaledHeight, Max(x, 0), Max(y, 0));
    }
  }

  /** As written, every tile at a negative position is culled, however
      much of it is on the console. */
  lemma OnScreenAsWrittenCullsNegative(x: int, y: int, w: int, h: int, unscaledWidth: nat, unscaledHeight: nat)
    requires -0x8000_0000 <= x < 0 || -0x8000_0000 <= y < 0
    requires unscaledWidth < 0x8000_0000 && unscaledHeight < 0x8000_0000
    ensures !OnScreenAsWritten(x, y, w, h, unscaledWidth, unscaledHeight)
  {
  }

  /** An 8 by 8 tile at (-4, 0) covers console pixel (0, 0), yet the
      as-written cull drops it. */
  lemma OnScreenAsWrittenDropsVisible()
    ensures !OnScreenAsWritten(-4, 0, 8, 8, 80, 50)
    ensures OnScreen(-4, 0, 8, 8, 80, 50)
  {
  }

  /** The two culls agree at non-negative positions. */
  lemma OnScreenAgreeOnNonNegative(x: int, y: int, w: int, h: int, unscaledWidth: nat, unscaledHeight: nat)
    requires 0 <= x < SIZE_T_MODULUS && 0 <= y < SIZE_T_MODULUS
    ensures OnScreenAsWritten(x, y, w, h, unscaledWidth, unscaledHeight)
        <==> OnScreen(x, y, w, h, unscaledWidth, unscaledHeight)
  {
  }

  /** Whether `_rlhTermPushTile` keeps a tile, as written. */
  predicate TileKeptAsWritten(x: int, y: int, w: int, h: int, glyph: int, glyphCount: nat,
                              unscaledWidth: nat, unscaledHeight: nat)
  {
    GlyphInRangeAsWritten(glyph, glyphCount) && OnScreenAsWritten(x, y, w, h, unscaledWidth, unscaledHeight)
  }

  /** The pixel origin `rlhTermPushGrid` gives a grid cell, as written: the
      cell times the tile size times the pixel scale. */
  function GridPixelAsWritten(cell: int, tile: nat, scale: nat): (p: int)
    ensures p == GridPixel(cell, tile) * scale
  {
    cell * tile * scale
  }

  /** The grid cell's origin in unscaled pixels, the unit of the cull. */
  function GridPixel(cell: int, tile: nat): int {
    cell * tile
  }

  /** With the corrected origin, every cell of the console's tile grid is
      kept by the cull. */
  lemma GridPixelOnScreen(gridX: nat, gridY: nat, s: Sizing)
    requires SizingValid(s)
    requires gridX < s.tilesWide && gridY < s.tilesTall
    ensures OnScreen(GridPixel(gridX, s.tileWidth), GridPixel(gridY, s.tileHeight), s.tileWidth,
                     s.tileHeight, s.unscaledWidth, s.unscaledHeight)
  {
    MulMonotone(gridX + 1, s.tilesWide, s.tileWidth);
    MulMonotone(gridY + 1, s.tilesTall, s.tileHeight);
    MulMonotone(0, gridX, s.tileWidth);
    MulMonotone(0, gridY, s.tileHeight);
  }

  /** At pixel scale 2, with 8-pixel tiles on an 80 by 48 console (a 10 by
      6 grid), cell (5, 0) is culled as written. */
  lemma GridPixelAsWrittenCullsCell()
    ensures 80 / 8 == 10 && 5 < 10
    ensures !OnScreenAsWritten(GridPixelAsWritten(5, 8, 2), GridPixelAsWritten(0, 8, 2), 8 * 2, 8 * 2, 80, 48)
    ensures OnScreenAsWritten(GridPixel(5, 8), GridPixel(0, 8), 8, 8, 80, 48)
  {
  }

  /** One step of `_rlhTermTryAppendElements`' loop: write tile `n`'s six
      indices after the indices of the tiles before it. */
  method WriteTileElements(elements: array<int>, n: nat)
    requires ELEMENTS_PER_TILE * n + ELEMENTS_PER_TILE <= elements.Length
    requires elements[..ELEMENTS_PER_TILE * n] == Elements(n)
    modifies elements
    ensures elements[..ELEMENTS_PER_TILE * (n + 1)] == Elements(n + 1)
  {
    var vert0 := n * VERTICES_PER_TILE;
    var i := n * ELEMENTS_PER_TILE;
    assert vert0 == 4 * n && i == 6 * n;
    elements[i] := vert0;
    elements[i + 1] := vert0 + 1;
    elements[i + 2] := vert0 + 2;
    elements[i + 3] := vert0 + 1;
    elements[i + 4] := vert0 + 2;
    elements[i + 5] := vert0 + 3;
    assert elements[..i] == old(elements[..i]);
    assert elements[i..i + ELEMENTS_PER_TILE] == TileElements(n);
    assert elements[..i + ELEMENTS_PER_TILE] == elements[..i] + elements[i..i + ELEMENTS_PER_TILE];
  }

  /** What one push does to the live tiles, the capacity and the changed
      flag. The reserve comes first and grows a full buffer even when the
      tile is then dropped; the tile is appended when there was room and
      `_rlhTermPushTile` keeps it. */
  ghost predicate Pushed(tiles0: seq<Quad>, capacity0: nat, changed0: bool, allocOk: bool, kept: bool, q: Quad,
                         tiles1: seq<Quad>, capacity1: nat, changed1: bool)
  {
    var room := |tiles0| < capacity0;
    var appended := (room || allocOk) && kept;
    && tiles1 == (if appended then tiles0 + [q] else tiles0)
    && capacity1 == (if room || !allocOk then capacity0 else NextCapacity(capacity0))
    && changed1 == (changed0 || appended)
  }

  /** The result of a push: out of memory exactly when the buffer was full
      and could not grow. */
  function PushResult(count: nat, capacity: nat, allocOk: bool): Result {
    if count < capacity || allocOk then Ok else OutOfMemory
  }

  /** `rlhTerm_s`: the sizing fields, the vertex buffer of `capacity` quads
      of which the first `count` are live, the element buffer for
      `elementGlyphCount` tiles, and the atlas facts pushes and draws use. */
  class Term {
    var unscaledPixelWidth: nat
    var unscaledPixelHeight: nat
    var scaledPixelWidth: nat
    var scaledPixelHeight: nat
    var tilesWide: nat
    var tilesTall: nat
    var pixelScale: nat
    var tileWidth: nat
    var tileHeight: nat
    var vertexDataTileCapacity: nat
    var vertexDataTileCount: nat
    var vertexData: array<Quad>
    var vertexDataChanged: bool
    var glyphCount: nat
    var elementGlyphCount: nat
    var elementData: array<int>
    var fragmentType: Fragment

    ghost predicate Valid()
      reads this, vertexData, elementData
    {
      && SizingValid(CurrentSizing())
      && vertexDataTileCount <= vertexDataTileCapacity
      && vertexData.Length == vertexDataTileCapacity
      && elementData.Length == ELEMENTS_PER_TILE * elementGlyphCount
      && elementData[..] == Elements(elementGlyphCount)
    }

    ghost function CurrentSizing(): Sizing
      reads this
    {
      Sizing(unscaledPixelWidth, unscaledPixelHeight, scaledPixelWidth, scaledPixelHeight, tilesWide, tilesTall,
             pixelScale, tileWidth, tileHeight)
    }

    /** The tiles pushed since the last clear, in push order. */
    ghost function Live(): seq<Quad>
      reads this, vertexData
      requires vertexDataTileCount <= vertexData.Length
    {
      vertexData[..vertexDataTileCount]
    }

    /** `rlhTermCreate` when its checks pass and its allocations succeed:
        sized by `_rlhTermSetPixelSize`, room for one full grid of tiles,
        no tiles, no elements, and the atlas's glyph count and fragment
        type. */
    constructor (size: SizeInfo, atlas: AtlasInfo)
      requires SizeInfoCheck(Some(size)) == Ok && size.pixelScale > 0
      requires AtlasInfoCheck(Some(atlas)) == Ok
      ensures Valid() && Live() == []
      ensures CurrentSizing() == PixelSize(size)
      ensures vertexDataTileCapacity == tilesWide * tilesTall
      ensures glyphCount == atlas.glyphCount && fragmentType == ColorTypeToFragmentType(atlas.color)
      ensures elementGlyphCount == 0 && !vertexDataChanged
    {
      var s := PixelSize(size);
      unscaledPixelWidth := s.unscaledWidth;
      unscaledPixelHeight := s.unscaledHeight;
      scaledPixelWidth := s.scaledWidth;
      scaledPixelHeight := s.scaledHeight;
      tilesWide := s.tilesWide;
      tilesTall := s.tilesTall;
      pixelScale := s.pixelScale;
      tileWidth := s.tileWidth;
      tileHeight := s.tileHeight;
      vertexDataTileCapacity := s.tilesWide * s.tilesTall;
      vertexDataTileCount := 0;
      vertexData := new Quad[s.tilesWide * s.tilesTall];
      vertexDataChanged := false;
      glyphCount := atlas.glyphCount;
      elementGlyphCount := 0;
      elementData := new int[0];
      fragmentType := ColorTypeToFragmentType(atlas.color);
    }

    /** `_rlhTermSetPixelSize`: assign the sizing of the record. */
    method SetPixelSize(info: SizeInfo)
      requires Valid()
      requires SizeInfoCheck(Some(info)) == Ok && info.pixelScale > 0
      modifies this`unscaledPixelWidth, this`unscaledPixelHeight, this`scaledPixelWidth, this`scaledPixelHeight,
               this`tilesWide, this`tilesTall, this`pixelScale, this`tileWidth, this`tileHeight
      ensures Valid()
      ensures CurrentSizing() == PixelSize(info)
    {
      var s := PixelSize(info);
      unscaledPixelWidth := s.unscaledWidth;
      unscaledPixelHeight := s.unscaledHeight;
      scaledPixelWidth := s.scaledWidth;
      scaledPixelHeight := s.scaledHeight;
      tilesWide := s.tilesWide;
      tilesTall := s.tilesTall;
      pixelScale := s.pixelScale;
      tileWidth := s.tileWidth;
      tileHeight := s.tileHeight;
    }

    /** `_rlhTermTryReserveVertexData`: room for one more tile, growing a
        full buffer by `NextCapacity` when `allocOk` says `realloc`
        succeeds. The live tiles are carried over. */
    method TryReserveVertexData(allocOk: bool) returns (ok: bool)
      requires Valid()
      modifies this`vertexDataTileCapacity, this`vertexData
      ensures Valid() && Live() == old(Live())
      ensures ok <==> old(vertexDataTileCount) < old(vertexDataTileCapacity) || allocOk
      ensures ok ==> vertexDataTileCount < vertexDataTileCapacity
      ensures vertexDataTileCapacity == if old(vertexDataTileCount) < old(vertexDataTileCapacity) || !allocOk
                                        then old(vertexDataTileCapacity) else NextCapacity(old(vertexDataTileCapacity))
      ensures vertexDataTileCapacity == old(vertexDataTileCapacity) ==> vertexData == old(vertexData)
      ensures vertexDataTileCapacity != old(vertexDataTileCapacity) ==> fresh(vertexData)
    {
      if vertexDataTileCount < vertexDataTileCapacity {
        return true;
      }
      var newCapacity := NextCapacity(vertexDataTileCapacity);
      if !allocOk {
        return false;
      }
      var grown := new Quad[newCapacity];
      forall i | 0 <= i < vertexData.Length {
        grown[i] := vertexData[i];
      }
      assert grown[..vertexDataTileCount] == vertexData[..vertexDataTileCount];
      vertexData := grown;
      vertexDataTileCapacity := newCapacity;
      ok := true;
    }

    /** `_rlhTermPushTile`: when the glyph check and the cull keep the tile,
        write it at index `count` (float offset `52 * count`), count it and
        mark the vertex data changed; otherwise change nothing. */
    method PushTile(x: int, y: int, w: int, h: int, glyph: Uint16, fg: Color, bg: Color)
      requires Valid() && vertexDataTileCount < vertexDataTileCapacity
      modifies this`vertexDataTileCount, this`vertexDataChanged, vertexData
      ensures Valid()
      ensures TileKeptAsWritten(x, y, w, h, glyph, glyphCount, unscaledPixelWidth, unscaledPixelHeight)
              ==> vertexData[..] == old(vertexData[..])[old(vertexDataTileCount) := Quad(x, y, w, h, glyph, fg, bg)]
                  && Live() == old(Live()) + [Quad(x, y, w, h, glyph, fg, bg)] && vertexDataChanged
      ensures !TileKeptAsWritten(x, y, w, h, glyph, glyphCount, unscaledPixelWidth, unscaledPixelHeight)
              ==> unchanged(this) && unchanged(vertexData)
    {
      if !GlyphInRangeAsWritten(glyph, glyphCount) {
        return;
      }
      if !OnScreenAsWritten(x, y, w, h, unscaledPixelWidth, unscaledPixelHeight) {
        return;
      }
      vertexData[vertexDataTileCount] := Quad(x, y, w, h, glyph, fg, bg);
      vertexDataTileCount := vertexDataTileCount + 1;
      vertexDataChanged := true;
    }

    /** Reserve, then push: the shape every public push shares. */
    method ReserveAndPush(x: int, y: int, w: int, h: int, glyph: Uint16, fg: Color, bg: Color, allocOk: bool)
      returns (r: Result)
      requires Valid()
      modifies this`vertexDataTileCapacity, this`vertexData, this`vertexDataTileCount, this`vertexDataChanged,
               vertexData
      ensures Valid()
      ensures r == PushResult(old(vertexDataTileCount), old(vertexDataTileCapacity), allocOk)
      ensures Pushed(old(Live()), old(vertexDataTileCapacity), old(vertexDataChanged), allocOk,
                     TileKeptAsWritten(x, y, w, h, glyph, glyphCount, unscaledPixelWidth, unscaledPixelHeight),
                     Quad(x, y, w, h, glyph, fg, bg), Live(), vertexDataTileCapacity, vertexDataChanged)
    {
      var ok := TryReserveVertexData(allocOk);
      if !ok {
        return OutOfMemory;
      }
      PushTile(x, y, w, h, glyph, fg, bg);
      r := Ok;
    }

    /** `rlhTermPushFill`: one tile covering the whole unscaled console. */
    method PushFill(glyph: Uint16, fg: Color, bg: Color, allocOk: bool) returns (r: Result)
      requires Valid()
      modifies this`vertexDataTileCapacity, this`vertexData, this`vertexDataTileCount, this`vertexDataChanged,
               vertexData
      ensures Valid()
      ensures r == PushResult(old(vertexDataTileCount), old(vertexDataTileCapacity), allocOk)
      ensures Pushed(old(Live()), old(vertexDataTileCapacity), old(vertexDataChanged), allocOk,
                     GlyphInRangeAsWritten(glyph, glyphCount) && unscaledPixelWidth > 0 && unscaledPixelHeight > 0,
                     Quad(0, 0, unscaledPixelWidth, unscaledPixelHeight, glyph, fg, bg),
                     Live(), vertexDataTileCapacity, vertexDataChanged)
    {
      r := ReserveAndPush(0, 0, unscaledPixelWidth, unscaledPixelHeight, glyph, fg, bg, allocOk);
    }

    /** `rlhTermPushGrid`: a default-size tile at a grid cell, both scaled
        by the pixel scale as written. */
    method PushGrid(gridX: int, gridY: int, glyph: Uint16, fg: Color, bg: Color, allocOk: bool) returns (r: Result)
      requires Valid()
      modifies this`vertexDataTileCapacity, this`vertexData, this`vertexDataTileCount, this`vertexDataChanged,
               vertexData
      ensures Valid()
      ensures r == PushResult(old(vertexDataTileCount), old(vertexDataTileCapacity), allocOk)
      ensures var q := Quad(GridPixelAsWritten(gridX, tileWidth, pixelScale), GridPixelAsWritten(gridY, tileHeight, pixelScale),
                            tileWidth * pixelScale, tileHeight * pixelScale, glyph, fg, bg);
              Pushed(old(Live()), old(vertexDataTileCapacity), old(vertexDataChanged), allocOk,
                     TileKeptAsWritten(q.x, q.y, q.w, q.h, glyph, glyphCount, unscaledPixelWidth, unscaledPixelHeight),
                     q, Live(), vertexDataTileCapacity, vertexDataChanged)
    {
      r := ReserveAndPush(GridPixelAsWritten(gridX, tileWidth, pixelScale), GridPixelAsWritten(gridY, tileHeight, pixelScale),
                          tileWidth * pixelScale, tileHeight * pixelScale, glyph, fg, bg, allocOk);
    }

    /** `rlhTermPushGridSized`: a tile of a given size at a grid cell, the
        size scaled by the pixel scale. */
    method PushGridSized(gridX: int, gridY: int, w: int, h: int, glyph: Uint16, fg: Color, bg: Color, allocOk: bool)
      returns (r: Result)
      requires Valid()
      modifies this`vertexDataTileCapacity, this`vertexData, this`vertexDataTileCount, this`vertexDataChanged,
               vertexData
      ensures Valid()
      ensures r == PushResult(old(vertexDataTileCount), old(vertexDataTileCapacity), allocOk)
      ensures var q := Quad(GridPixelAsWritten(gridX, tileWidth, pixelScale), GridPixelAsWritten(gridY, tileHeight, pixelScale),
                            w * pixelScale, h * pixelScale, glyph, fg, bg);
              Pushed(old(Live()), old(vertexDataTileCapacity), old(vertexDataChanged), allocOk,
                     TileKeptAsWritten(q.x, q.y, q.w, q.h, glyph, glyphCount, unscaledPixelWidth, unscaledPixelHeight),
                     q, Live(), vertexDataTileCapacity, vertexDataChanged)
    {
      r := ReserveAndPush(GridPixelAsWritten(gridX, tileWidth, pixelScale), GridPixelAsWritten(gridY, tileHeight, pixelScale),
                          w * pixelScale, h * pixelScale, glyph, fg, bg, allocOk);
    }

    /** `rlhTermPushFree`: a default-size tile at a pixel position, both
        scaled by the pixel scale. */
    method PushFree(x: int, y: int, glyph: Uint16, fg: Color, bg: Color, allocOk: bool) returns (r: Result)
      requires Valid()
      modifies this`vertexDataTileCapacity, this`vertexData, this`vertexDataTileCount, this`vertexDataChanged,
               vertexData
      ensures Valid()
      ensures r == PushResult(old(vertexDataTileCount), old(vertexDataTileCapacity), allocOk)
      ensures var q := Quad(x * pixelScale, y * pixelScale, tileWidth * pixelScale, tileHeight * pixelScale, glyph, fg, bg);
              Pushed(old(Live()), old(vertexDataTileCapacity), old(vertexDataChanged), allocOk,
                     TileKeptAsWritten(q.x, q.y, q.w, q.h, glyph, glyphCount, unscaledPixelWidth, unscaledPixelHeight),
                     q, Live(), vertexDataTileCapacity, vertexDataChanged)
    {
      r := ReserveAndPush(x * pixelScale, y * pixelScale, tileWidth * pixelScale, tileHeight * pixelScale,
                          glyph, fg, bg, allocOk);
    }

    /** `rlhTermPushFreeSized`: a tile of a given size at a pixel position,
        both scaled by the pixel scale. */
    method PushFreeSized(x: int, y: int, w: int, h: int, glyph: Uint16, fg: Color, bg: Color, allocOk: bool)
      returns (r: Result)
      requires Valid()
      modifies this`vertexDataTileCapacity, this`vertexData, this`vertexDataTileCount, this`vertexDataChanged,
               vertexData
      ensures Valid()
      ensures r == PushResult(old(vertexDataTileCount), old(vertexDataTileCapacity), allocOk)
      ensures var q := Quad(x * pixelScale, y * pixelScale, w * pixelScale, h * pixelScale, glyph, fg, bg);
              Pushed(old(Live()), old(vertexDataTileCapacity), old(vertexDataChanged), allocOk,
                     TileKeptAsWritten(q.x, q.y, q.w, q.h, glyph, glyphCount, unscaledPixelWidth, unscaledPixelHeight),
                     q, Live(), vertexDataTileCapacity, vertexDataChanged)
    {
      r := ReserveAndPush(x * pixelScale, y * pixelScale, w * pixelScale, h * pixelScale, glyph, fg, bg, allocOk);
    }

    /** `_rlhTermTryAppendElements`: extend the element buffer to cover
        every live tile, writing each new tile's six indices; the indices
        already there are kept. Out of memory leaves the buffer alone. */
    method TryAppendElements(allocOk: bool) returns (r: Result)
      requires Valid()
      modifies this`elementGlyphCount, this`elementData
      ensures Valid()
      ensures r == (if old(elementGlyphCount) >= vertexDataTileCount || allocOk then Ok else OutOfMemory)
      ensures elementGlyphCount == if r == Ok then Max(old(elementGlyphCount), vertexDataTileCount)
                                   else old(elementGlyphCount)
      ensures elementGlyphCount == old(elementGlyphCount) ==> elementData == old(elementData)
    {
      if elementGlyphCount >= vertexDataTileCount {
        return Ok;
      }
      if !allocOk {
        return OutOfMemory;
      }
      var grown := new int[ELEMENTS_PER_TILE * vertexDataTileCount];
      forall i | 0 <= i < elementData.Length {
        grown[i] := elementData[i];
      }
      var n := elementGlyphCount;
      assert grown[..ELEMENTS_PER_TILE * n] == elementData[..];
      while n < vertexDataTileCount
        invariant old(elementGlyphCount) <= n <= vertexDataTileCount
        invariant grown[..ELEMENTS_PER_TILE * n] == Elements(n)
        decreases vertexDataTileCount - n
      {
        WriteTileElements(grown, n);
        n := n + 1;
      }
      assert grown[..] == grown[..ELEMENTS_PER_TILE * n];
      elementData := grown;
      elementGlyphCount := n;
      r := Ok;
    }
  }

  /** The term a `rlhTerm` handle points to, as a frame: none for `NULL`. */
  function Pointee(term: Term?): set<Term> {
    if term == null then {} else {term}
  }

  /** `rlhTermSetSize`: null arguments and failed checks are reported and
      change nothing; otherwise the term is resized and its tiles kept. */
  method SetSize(term: Term?, info: Option<SizeInfo>) returns (r: Result)
    requires term != null ==> term.Valid()
    requires info.Some? && SizeInfoCheck(info) == Ok ==> info.value.pixelScale > 0
    modifies Pointee(term)`unscaledPixelWidth, Pointee(term)`unscaledPixelHeight,
             Pointee(term)`scaledPixelWidth, Pointee(term)`scaledPixelHeight,
             Pointee(term)`tilesWide, Pointee(term)`tilesTall,
             Pointee(term)`pixelScale, Pointee(term)`tileWidth, Pointee(term)`tileHeight
    ensures term != null ==> term.Valid()
    ensures term == null || info.None? ==> r == NullArgument
    ensures term != null && info.Some? && SizeInfoCheck(info) != Ok ==> r == SizeInfoCheck(info) && unchanged(term)
    ensures term != null && info.Some? && SizeInfoCheck(info) == Ok
            ==> r == Ok && term.CurrentSizing() == PixelSize(info.value) && term.Live() == old(term.Live())
    ensures term != null ==> term.vertexDataTileCapacity == old(term.vertexDataTileCapacity)
                             && term.vertexDataChanged == old(term.vertexDataChanged)
                             && term.glyphCount == old(term.glyphCount)
  {
    if term == null || info.None? {
      return NullArgument;
    }
    r := SizeInfoCheck(info);
    if r != Ok {
      return;
    }
    term.SetPixelSize(info.value);
  }

  /** `rlhTermClearTileData`: forget every tile; the buffers stay. */
  method ClearTileData(term: Term?) returns (r: Result)
    requires term != null ==> term.Valid()
    modifies Pointee(term)`vertexDataTileCount
    ensures r == (if term == null then NullArgument else Ok)
    ensures term != null ==> term.Valid() && term.Live() == []
    ensures term != null ==> term.vertexDataTileCapacity == old(term.vertexDataTileCapacity)
                             && term.vertexData == old(term.vertexData)
                             && term.vertexDataChanged == old(term.vertexDataChanged)
                             && term.elementGlyphCount == old(term.elementGlyphCount)
                             && term.elementData == old(term.elementData)
                             && term.CurrentSizing() == old(term.CurrentSizing())
  {
    if term == null {
      return NullArgument;
    }
    term.vertexDataTileCount := 0;
    r := Ok;
  }

  /** `rlhTermGetTileDataCount`: the number of live tiles, 0 for no term. */
  function GetTileDataCount(term: Term?): (n: int)
    reads if term == null then {} else {term, term.vertexData, term.elementData}
    requires term != null ==> term.Valid()
    ensures term == null ==> n == 0
    ensures term != null ==> n == |term.Live()|
  {
    if term == null then 0 else term.vertexDataTileCount
  }

  /** What `rlhTermDrawMatrix` hands to OpenGL: the live tiles, whether the
      vertex buffer was re-uploaded, and the indices `glDrawElements` reads. */
  datatype DrawCall = DrawCall(tiles: seq<Quad>, uploaded: bool, elements: seq<int>)

  /** `rlhTermDrawMatrix`. `hasMatrix` says whether the matrix pointer is
      set, `retained` whether the header is built with
      `RLH_RETAINED_MODE`. With tiles pending and the element buffer
      covering them, it draws six indices per live tile, re-uploads the
      vertex buffer only when it changed, and then clears the tiles unless
      retained. An element buffer that cannot grow is reported and leaves
      the tiles in place. */
  method DrawMatrix(term: Term?, hasMatrix: bool, retained: bool, allocOk: bool)
    returns (r: Result, call: Option<DrawCall>)
    requires term != null ==> term.Valid()
    modifies Pointee(term)`vertexDataTileCount, Pointee(term)`vertexDataChanged,
             Pointee(term)`elementGlyphCount, Pointee(term)`elementData
    ensures term != null ==> term.Valid()
    ensures term == null || !hasMatrix ==> r == NullArgument && call == None
    ensures term != null && hasMatrix ==>
              (r == OutOfMemory <==> old(term.elementGlyphCount) < old(term.vertexDataTileCount) && !allocOk)
    ensures term != null && call.None? ==> term.Live() == old(term.Live())
                                           && term.vertexDataChanged == old(term.vertexDataChanged)
    ensures term != null && hasMatrix && old(term.vertexDataTileCount) == 0 ==> r == Ok && call == None
    ensures call.Some? ==> term != null && r == Ok
                           && call.value.tiles == old(term.Live())
                           && call.value.uploaded == old(term.vertexDataChanged)
                           && call.value.elements == Elements(|call.value.tiles|)
                           && !term.vertexDataChanged
                           && term.Live() == (if retained then old(term.Live()) else [])
    ensures call.Some? ==> term.elementGlyphCount == Max(old(term.elementGlyphCount), old(term.vertexDataTileCount))
    ensures term != null && call.None? ==> term.elementGlyphCount == old(term.elementGlyphCount)
                                           && term.elementData == old(term.elementData)
    ensures term != null && hasMatrix && r == Ok && old(term.vertexDataTileCount) > 0 ==> call.Some?
    ensures term != null ==> term.vertexDataTileCapacity == old(term.vertexDataTileCapacity)
                             && term.vertexData == old(term.vertexData)
  {
    if term == null || !hasMatrix {
      return NullArgument, None;
    }
    if term.vertexDataTileCount == 0 {
      return Ok, None;
    }
    r := term.TryAppendElements(allocOk);
    if r != Ok {
      return r, None;
    }
    var uploaded := term.vertexDataChanged;
    if term.vertexDataChanged {
      term.vertexDataChanged := false;
    }
    var count := term.vertexDataTileCount;
    ElementsPrefix(term.elementGlyphCount, count);
    call := Some(DrawCall(term.vertexData[..count], uploaded, term.elementData[..ELEMENTS_PER_TILE * count]));
    if !retained {
      var _ := ClearTileData(term);
    }
  }

  /** The translation `rlhTermDrawAligned` computes on one axis from the
      viewport size, the scaled console size and the alignment. Start puts
      the console at 0, end puts its far edge on the viewport's, and centre
      (and any other value) splits the margin with C's truncating division,
      the far margin taking the odd pixel. */
  function AlignedTranslation(viewport: int, scaled: int, align: int): (t: int)
    ensures align == ALIGN_START ==> t == 0
    ensures align == ALIGN_END ==> t + scaled == viewport
    ensures align != ALIGN_START && align != ALIGN_END ==> -1 <= (viewport - scaled - t) - t <= 1
    ensures align != ALIGN_START && align != ALIGN_END && viewport >= scaled
            ==> 0 <= t && 0 <= (viewport - scaled - t) - t <= 1
  {
    var difference := viewport - scaled;
    if align == ALIGN_START then 0
    else if align == ALIGN_END then difference
    else TruncDiv(difference, 2)
  }

  /** `_rlhSetTermScissor` as written: the flip to OpenGL's bottom-up y
      subtracts `translate_x` where `translate_y` is meant. */
  function SetTermScissorAsWritten(translateX: int, translateY: int, width: int, height: int,
                                   viewportHeight: int): (r: Rect)
    ensures r.x >= 0 && r.y >= 0
    ensures r.x + r.w == translateX + width
    ensures r.y + r.h == viewportHeight - translateX
  {
    var actualTranslateY := viewportHeight - (translateX + height);
    var croppedX := Max(translateX, 0);
    var croppedY := Max(actualTranslateY, 0);
    Rect(croppedX, croppedY,
         if croppedX != translateX then width + translateX else width,
         if croppedY != actualTranslateY then height + actualTranslateY else height)
  }

  /** `_rlhSetTermScissor` with the y flip taken from `translate_y`: the
      rectangle starts at or after the origin, keeps the console's right
      edge, and its top is the console's top flipped into OpenGL's
      bottom-up coordinates. */
  function SetTermScissor(translateX: int, translateY: int, width: int, height: int, viewportHeight: int): (r: Rect)
    ensures r.x >= 0 && r.y >= 0
    ensures r.x + r.w == translateX + width
    ensures r.y + r.h == viewportHeight - translateY
    ensures translateX >= 0 ==> r.x == translateX && r.w == width
    ensures viewportHeight - (translateY + height) >= 0 ==> r.y == viewportHeight - (translateY + height) && r.h == height
  {
    var actualTranslateY := viewportHeight - (translateY + height);
    var croppedX := Max(translateX, 0);
    var croppedY := Max(actualTranslateY, 0);
    Rect(croppedX, croppedY,
         if croppedX != translateX then width + translateX else width,
         if croppedY != actualTranslateY then height + actualTranslateY else height)
  }

  /** As written the scissor ignores `translate_y`: a console drawn 10
      pixels down a 200-pixel viewport is clipped as if it were drawn at
      the top. */
  lemma SetTermScissorAsWrittenMisplaced()
    ensures SetTermScissorAsWritten(0, 10, 100, 100, 200) == SetTermScissorAsWritten(0, 0, 100, 100, 200)
    ensures SetTermScissorAsWritten(0, 10, 100, 100, 200).y == 100
    ensures SetTermScissor(0, 10, 100, 100, 200).y == 90
  {
  }
}
