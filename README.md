# roguelike.h tile engine in Dafny

The repository ships three generations of a header-only OpenGL tile
renderer. Inside each header's OpenGL plumbing sits the same small engine:

- a terminal that owns a growable buffer of tile records;
- push operations that check a tile and append one record;
- clear and count queries;
- the integer arithmetic that sizes the console, clamps the scissor
  rectangle, aligns the console in the viewport and generates element
  indices.

This project models that engine, header by header.

- `Common.dfy` (module `Common`): the C conventions the headers rely on.
  - Byte and 16-bit ranges.
  - The conversion an `int` undergoes when compared with a `size_t`.
  - Truncating division.
  - The scissor rectangle.
  - The two capacity-growth rules.
- `Wire.dfy` (module `Wire`): the 18-byte little-endian tile record that
  `include/roguelike.h` and `include/jm/roguelike.h` share, as
  `_rlhTermPushTile` writes it and as the vertex shader reads it back.
  - The position bias (16384 or 4096) is a parameter.
  - The encoding is tied to the decoding by round-trip lemmas.
  - The module also holds the size, grid and free-position guards shared
    by both headers' push variants.
- `Roguelike.dfy` (module `Roguelike`, `include/roguelike.h`): the
  terminal as a class.
  - Console and tile sizes.
  - A byte `array` for the records, whose live prefix is tied to a ghost
    sequence of tiles by `EncodeAll`.
  - Reserve, push, clear, count, draw and the scissor clamp.
- `Jm.dfy` (module `Jm`, `include/jm/roguelike.h`): the same record with
  bias 4096.
  - A console whose tile grid is its pixel size divided by a default tile
    size.
  - Resizes that clear the tiles.
  - The pixel-dimension query.
- `Rlh.dfy` (module `Rlh`, `include/rlh/roguelike.h`): the newest header.
  - The size and atlas checks with their `rlhresult_t` codes.
  - The three sizing modes.
  - A vertex buffer of abstract quads, with the reserve-first push
    protocol.
  - The element-index loop of `_rlhTermTryAppendElements`.
  - The count-and-clear protocol of `rlhTermDrawMatrix`.
  - The alignment offsets of `rlhTermDrawAligned`.
  - The scissor clamp.

Conventions of the model:

- Whether `realloc` succeeds is the parameter `allocOk`. A failed growth
  changes nothing.
- The `size_t` buffers and counters are `nat`; C's `int` is unbounded.
- Where a header compares an `int` with a `size_t`, the `int` goes
  through `ToSizeT`, which reduces it modulo 2^64. That is what C does,
  and it changes which tiles are kept.
- The classes keep every guard exactly as the headers write it. Where a
  guard or formula is evidently wrong, the as-written definition is what
  the classes use, and a corrected definition stands beside it with the
  property it was meant to have; see "## Findings".
- There is one exception, capacity growth in the two 18-byte headers. As
  written, a buffer of capacity 0 is "grown" by `realloc` to 0 bytes:
  either the push then writes past the allocation, or `realloc` frees the
  block and the push is dropped with a dangling buffer pointer. A model
  cannot write past an array's end or use freed memory, so the classes
  use the corrected rule: an empty buffer grows to 8 records, as in
  `include/rlh/roguelike.h`.

## Model

| member | source | states |
|---|---|---|
| Common.ToSizeT | include/jm/roguelike.h:554 | an `int` compared with a `size_t` becomes a value in [0, 2^64); non-negative values keep their value, negative ones gain 2^64 |
| Common.TruncDiv | include/rlh/roguelike.h:1304-1306 | C's `int` division truncates toward zero: the remainder `a - b*q` lies in [0, b) for a non-negative dividend and in (-b, 0] for a negative one |
| Common.TruncHalf | include/rlh/roguelike.h:1304-1306 | halving with truncation leaves a remainder of -1, 0 or 1, non-negative for non-negative values and non-positive for negative ones |
| Common.DoubledCapacity | include/roguelike.h:597 | the as-written growth enlarges a positive capacity and leaves capacity 0 at 0 |
| Common.ReserveAsWritten | include/roguelike.h:595-609 | the as-written reserve: a full buffer is reallocated at twice its capacity, a failed realloc reports failure and keeps the capacity, a buffer with room is left alone |
| Common.ReserveAsWrittenLeavesNoRoom | include/roguelike.h:595-609 | the as-written reserve reports success yet leaves `count >= capacity` (so the push's `count < capacity` fails and the write lands past the buffer) exactly when the buffer is empty with capacity 0 and realloc succeeds |
| Common.NextCapacity | include/rlh/roguelike.h:1079 | the new capacity is strictly larger than the old one: 8 from an empty buffer, double otherwise |
| Wire.Join | include/roguelike.h:163-170 | the shader's `lo + hi * 256u` yields a 16-bit value |
| Wire.Encode | include/roguelike.h:611-635 | one tile is exactly 18 bytes |
| Wire.JoinSplit | include/roguelike.h:613-618 | writing `v & 0xff`, `(v >> 8) & 0xff` and reading them back as the shader does gives `v` modulo 2^16 |
| Wire.Decode | include/roguelike.h:163-180 | the vertex shader's reading of one record: two little-endian 16-bit positions minus the bias, three 16-bit fields and two colours |
| Wire.DecodeFits | include/roguelike.h:163-180 | every record decodes to a tile whose positions lie in [-bias, 65536 - bias) and whose sizes lie below 65536 |
| Wire.DecodeEncode | include/roguelike.h:163-180 | the shader reads back every field of a written record: positions and sizes reduced into their 16-bit window, glyph and colours exactly |
| Wire.RoundTripIffFits | include/roguelike.h:613-625 | decode(encode(t)) == t if and only if the biased position and the sizes fit 16 bits |
| Wire.EncodeAll | include/roguelike.h:615 | n tiles occupy 18n bytes, laid end to end in push order |
| Wire.DecodeAll | include/roguelike.h:214-216 | the shader's view of a buffer is one tile per 18 bytes |
| Wire.EncodeAllAt | include/roguelike.h:216 | tile i's record is bytes 18i to 18i+18 of the buffer, where the shader's `18 * tile` looks for it |
| Wire.ShaderReadsTile | include/roguelike.h:212-221 | the vertex shader recovers tile i exactly from the buffer whenever it fits the record |
| Wire.DecodeAllEncodeAll | include/roguelike.h:163-221 | decoding the whole buffer gives back the pushed tiles in order when every tile fits |
| Wire.SizeAcceptedWraps | include/roguelike.h:245 | the 65565 bound accepts a 65540-pixel width, which the shader reads as 4 |
| Wire.SizeFitsFieldRoundTrips | include/roguelike.h:649 | a size passes the corrected bound exactly when it is positive and reaches the shader unchanged |
| Wire.RectTouchesWhenVisible | include/roguelike.h:669 | every tile covering a console pixel passes the signed free-position check |
| Wire.SizeAccepted | include/roguelike.h:649 | the size check as written: a size is kept iff 0 < w, h <= 65565 |
| Wire.SizeFitsField | include/roguelike.h:649 | the corrected size check: 0 < w, h <= 65535, the largest value a 16-bit field holds |
| Wire.GridInBounds | include/roguelike.h:639 | the grid check: 0 <= gx <= TilesWide and 0 <= gy <= TilesTall, the far count included |
| Wire.RectTouches | include/roguelike.h:669 | the signed free-position check: a tile is dropped iff it lies at least one pixel clear of the console; one lying against an edge is kept |
| Wire.Pushed | include/roguelike.h:595-635 | one push of an 18-byte header: the tile is appended iff the push's checks pass and there is room or the buffer grows; the buffer grows only when the checks passed and it was full; otherwise the tiles stay as they were |
| Roguelike.TilesAcross | include/roguelike.h:425-426 | the tile count is the number of whole `tile * scale` steps that fit in the pixel size |
| Roguelike.Term.constructor | include/roguelike.h:419-442 | grid = pixels / (tile * scale); pixel size is floored to the grid when asked; capacity is one full grid; no tiles |
| Roguelike.Term.ResizePixelDimensions | include/roguelike.h:576-593 | sizes recomputed as at creation; buffer and pushed tiles untouched |
| Roguelike.Term.Clear | include/roguelike.h:559-562 | no tiles remain; capacity and buffer kept (so clearing twice is clearing once) |
| Roguelike.Term.TileCount | include/roguelike.h:564-567 | the count is the number of tiles pushed since the last clear |
| Roguelike.Term.TryReserve | include/roguelike.h:595-609 | succeeds iff there is room or realloc succeeds; then there is room; capacity grows only when full and realloc succeeds; live records carried over; failure changes nothing |
| Roguelike.Term.PushTile | include/roguelike.h:611-635 | the tile's 18 bytes land at byte 18*count, every other byte is unchanged, and the tile is appended |
| Roguelike.Term.PushTileGrid | include/roguelike.h:637-644 | appended at (gx*tw, gy*th) iff 0 <= gx <= TilesWide, 0 <= gy <= TilesTall and reserve succeeds; otherwise tiles unchanged |
| Roguelike.Term.PushTileGridSized | include/roguelike.h:646-656 | as the grid push, and additionally dropped unless 0 < w, h <= 65565 |
| Roguelike.Term.PushTileFree | include/roguelike.h:658-665 | appended iff the as-written position check (against the tile size) passes and reserve succeeds |
| Roguelike.Term.PushTileFreeSized | include/roguelike.h:667-673 | appended iff -w <= x <= PixelWidth, -h <= y <= PixelHeight, the size passes and reserve succeeds |
| Roguelike.Term.DrawMatrix | include/roguelike.h:754-805 | nothing drawn iff no tiles; otherwise exactly the live records are uploaded and 6 vertices per tile drawn |
| Roguelike.FreeInBoundsAsWrittenDropsVisible | include/roguelike.h:660-662 | a tile in the middle of an 80x50 console of 8-pixel tiles is dropped as written and kept by the corrected check |
| Roguelike.FreeInBoundsAsWritten | include/roguelike.h:660-662 | the free-position check as written: the tile size stands where the console size is meant, so x and y are bounded above by the tile size |
| Roguelike.FreeInBounds | include/roguelike.h:669 | the corrected free-position check: the signed check of the free-sized push, against the console's pixel size |
| Roguelike.FreeInBoundsKeepsVisible | include/roguelike.h:669 | the corrected check keeps every tile covering a console pixel and also the tiles lying against an edge of the console (covering none); it drops every tile at least one pixel clear of the console |
| Roguelike.PositionRoundTrip | include/roguelike.h:613-614 | with bias 16384 a tile round-trips iff -16384 <= x, y < 49152 and 0 <= w, h < 65536 |
| Roguelike.FreeSizedKeepsUnencodable | include/roguelike.h:669-670 | the free-sized check keeps a wide tile whose position cannot be encoded with the bias |
| Roguelike.SetTermScissor | include/roguelike.h:695-714 | the scissor origin is never negative, the far edges stay put, and non-negative translations pass unchanged |
| Jm.Term.constructor | include/jm/roguelike.h:295-301 | grid = console pixels / default tile size; capacity = grid size; no tiles; the corrected getter reports the given console size |
| Jm.Term.ResizeConsole | include/jm/roguelike.h:417-424 | new console size (reported so by the corrected getter), grid recomputed, tiles cleared, capacity untouched |
| Jm.Term.ResizeTiles | include/jm/roguelike.h:426-433 | new tile size, grid recomputed, tiles cleared, capacity untouched |
| Jm.Term.GetPixelDimensionsAsWritten | include/jm/roguelike.h:447-457 | the reported width is the console width in tiles; the height is the pixel height |
| Jm.Term.GetPixelDimensions | include/jm/roguelike.h:447-457 | corrected getter: `Jm.Term.constructor` and `Jm.Term.ResizeConsole` ensure it then reports exactly the pixel size they were given, and `Jm.Term.ResizeTiles` leaves it unchanged |
| Jm.PixelDimensionsAsWrittenAgreeOnlyIfTrivial | include/jm/roguelike.h:447-457 | the as-written getter reports the corrected width divided by the default tile width, and so agrees with the corrected getter iff the console is 0 pixels wide or the tiles are 1 pixel wide |
| Jm.Term.Clear | include/jm/roguelike.h:477-480 | no tiles remain; capacity and buffer kept |
| Jm.Term.GetTileCount | include/jm/roguelike.h:482-485 | the count is the number of tiles pushed since the last clear or resize |
| Jm.Term.TryReserve | include/jm/roguelike.h:487-501 | succeeds iff there is room or realloc succeeds; then there is room; grows only when full; failure changes nothing |
| Jm.Term.PushTile | include/jm/roguelike.h:503-527 | the tile's 18 bytes land at byte 18*count with bias 4096, nothing else changes, and the tile is appended |
| Jm.Term.PushTileGrid | include/jm/roguelike.h:529-536 | appended iff 0 <= gx <= ConsoleTilesWide, 0 <= gy <= ConsoleTilesTall and reserve succeeds |
| Jm.Term.PushTileGridSized | include/jm/roguelike.h:538-548 | as the grid push, and additionally dropped unless 0 < w, h <= 65565 |
| Jm.Term.PushTileFree | include/jm/roguelike.h:550-557 | appended iff the as-written (unsigned upper bound) check passes with the default tile size and reserve succeeds |
| Jm.Term.PushTileFreeSized | include/jm/roguelike.h:559-565 | appended iff the as-written check passes with the given size, the size passes and reserve succeeds |
| Jm.FreeInBoundsAsWrittenDropsNegative | include/jm/roguelike.h:554 | every tile at a negative position is dropped |
| Jm.FreeInBoundsAsWritten | include/jm/roguelike.h:554 | the free-position check as written: signed lower bounds, upper bounds on the position converted to `size_t` |
| Jm.FreeInBoundsAsWrittenDropsVisible | include/jm/roguelike.h:554 | an 8x8 tile at (-4, 0) covering console pixels is dropped as written and kept by the signed check |
| Jm.FreeInBoundsAgreeOnNonNegative | include/jm/roguelike.h:561 | at non-negative positions the as-written and signed checks agree |
| Jm.TilesWideIsPixelWidthOnlyIfTrivial | include/jm/roguelike.h:451 | the width reported as written equals the pixel width only for an empty console or one-pixel tiles |
| Jm.PositionRoundTrip | include/jm/roguelike.h:505-506 | with bias 4096 a tile round-trips iff -4096 <= x, y < 61440 and 0 <= w, h < 65536 |
| Rlh.SizeInfoCheck | include/rlh/roguelike.h:712-729 | NULL_ARGUMENT iff the record is missing; OK iff sizes, mode and tile sizes are valid; never OUT_OF_MEMORY |
| Rlh.SizeInfoCheckAcceptsZeroScale | include/rlh/roguelike.h:712-729 | a zero pixel scale passes the check |
| Rlh.SizeInfoCheckWithScale | include/rlh/roguelike.h:712-729 | OK iff the header's check passes and the scale is positive; other results agree with the header's |
| Rlh.AtlasInfoCheck | include/rlh/roguelike.h:731-750 | NULL_ARGUMENT iff the record or its pixel data is missing; OK iff sizes, pages, colour type and glyph count are valid |
| Rlh.ColorTypeToFragmentType | include/rlh/roguelike.h:688-698 | grey maps to stencil, grey-alpha to green background, all else to alpha background; never NONE |
| Rlh.FloorToMultiple | include/rlh/roguelike.h:784 | `v - v % step` is the largest multiple of step not above v |
| Rlh.FloorAsWritten | include/rlh/roguelike.h:784-785 | flooring as written leaves a multiple of `tile * scale`, less than one such step below v |
| Rlh.FloorToTiles | include/rlh/roguelike.h:784-785 | corrected flooring leaves the largest multiple of the tile size not above v |
| Rlh.FloorAsWrittenLosesWholeTile | include/rlh/roguelike.h:797 | at scale 2, 24 pixels of 8-pixel tiles floor to 16 as written, to 24 corrected |
| Rlh.UnscaledExtent | include/rlh/roguelike.h:767-802 | the unscaled extent on one axis per sizing mode: `tile * size` for tiles, `size / scale` for scaled pixels, `size` for unscaled pixels, then floored as written when asked |
| Rlh.UnscaledExtentModes | include/rlh/roguelike.h:767-802 | tile mode gives exactly `size` tiles; scaled mode never exceeds the request and unfloored loses only the division remainder; unscaled mode unfloored is the request; flooring leaves a multiple of tile*scale |
| Rlh.SizingOf | include/rlh/roguelike.h:773-807 | scaled size = unscaled size * scale and the grid is the whole tiles that fit |
| Rlh.PixelSize | include/rlh/roguelike.h:767-808 | every sizing the header computes is consistent (scaled = unscaled * scale, tiles = unscaled / tile) and keeps the requested scale and tile size |
| Rlh.PixelSizeTilesMode | include/rlh/roguelike.h:771-772 | in tile mode the grid is exactly the requested width and height |
| Rlh.Elements | include/rlh/roguelike.h:674-684 | n tiles have 6n indices |
| Rlh.ElementsAt | include/rlh/roguelike.h:676-683 | tile i's indices are 4i, 4i+1, 4i+2, 4i+1, 4i+2, 4i+3, at position 6i |
| Rlh.ElementsPrefix | include/rlh/roguelike.h:674 | the indices for fewer tiles are a prefix of those for more, so indices already generated are never rewritten |
| Rlh.ElementsStayInTile | include/rlh/roguelike.h:1443 | every drawn index names a vertex of its own tile and of a live tile |
| Rlh.GlyphInRangeReadsInTable | include/rlh/roguelike.h:1110-1115 | the corrected glyph check keeps exactly the glyphs whose five atlas floats lie in the table |
| Rlh.GlyphInRangeAsWritten | include/rlh/roguelike.h:1096 | the glyph check as written: a glyph is dropped only when it exceeds the glyph count |
| Rlh.GlyphInRangeAsWrittenReadsPastTable | include/rlh/roguelike.h:1096 | a glyph passes the as-written check but not the corrected one iff it equals glyph_count, and that is exactly the kept glyph whose reads run past the table |
| Rlh.OnScreenAsWritten | include/rlh/roguelike.h:1097-1105 | the cull as written: lower bounds signed, upper bounds on the position converted to `size_t` |
| Rlh.TileKeptAsWritten | include/rlh/roguelike.h:1096-1105 | `_rlhTermPushTile` keeps a tile iff the as-written glyph check and the as-written cull both pass |
| Rlh.OnScreenIffCoversPixel | include/rlh/roguelike.h:1097-1105 | the signed cull keeps a tile iff it covers a console pixel |
| Rlh.OnScreen | include/rlh/roguelike.h:1097-1105 | the corrected cull: all four comparisons signed |
| Rlh.GlyphInRange | include/rlh/roguelike.h:1096 | the corrected glyph check: glyph < glyph_count |
| Rlh.OnScreenAsWrittenCullsNegative | include/rlh/roguelike.h:1100 | as written, every tile at a negative position is culled |
| Rlh.OnScreenAsWrittenDropsVisible | include/rlh/roguelike.h:1100-1102 | an 8x8 tile at (-4, 0) covering pixel (0, 0) is culled as written and kept by the signed cull |
| Rlh.OnScreenAgreeOnNonNegative | include/rlh/roguelike.h:1097-1105 | the as-written and signed culls agree at non-negative positions |
| Rlh.GridPixelOnScreen | include/rlh/roguelike.h:1190-1191 | with the corrected origin every cell of the grid survives the cull |
| Rlh.GridPixelAsWritten | include/rlh/roguelike.h:1190-1191 | the origin a grid push gives a cell as written is the corrected (unscaled) origin multiplied by the pixel scale |
| Rlh.GridPixel | include/rlh/roguelike.h:1190-1191 | the corrected cell origin: `grid * tile` unscaled pixels |
| Rlh.GridPixelAsWrittenCullsCell | include/rlh/roguelike.h:1190-1191 | at scale 2, cell 5 of a 10-wide grid is culled as written |
| Rlh.WriteTileElements | include/rlh/roguelike.h:676-683 | one loop step extends the element prefix for n tiles to n+1 tiles |
| Rlh.Pushed | include/rlh/roguelike.h:1074-1175 | one push: the reserve grows a full buffer (to 8 or double) iff realloc succeeds, even for a tile then dropped; the tile is appended iff there was room and `_rlhTermPushTile` keeps it; the changed flag is set iff a tile was appended or it was already set |
| Rlh.PushResult | include/rlh/roguelike.h:1180-1183 | a push reports OUT_OF_MEMORY iff the buffer was full and could not grow, OK otherwise |
| Rlh.Term.constructor | include/rlh/roguelike.h:866-903 | sized by the size record, room for one grid of tiles, no tiles, no elements, glyph count and fragment type from the atlas |
| Rlh.Term.SetPixelSize | include/rlh/roguelike.h:767-808 | the sizing fields become `PixelSize(info)` |
| Rlh.Term.TryReserveVertexData | include/rlh/roguelike.h:1074-1090 | unchanged when there is room; otherwise grows to 8 or double iff realloc succeeds, keeping the live tiles; ok iff there is room afterwards |
| Rlh.Term.PushTile | include/rlh/roguelike.h:1092-1175 | a kept tile is written at index count, earlier records unchanged, count + 1, changed flag set; a dropped tile changes nothing |
| Rlh.Term.ReserveAndPush | include/rlh/roguelike.h:1180-1183 | reserve first (it may grow for a dropped tile); OUT_OF_MEMORY iff full and realloc fails; OK otherwise, even when the tile is dropped |
| Rlh.Term.PushFill | include/rlh/roguelike.h:1177-1184 | one tile covering the unscaled console, kept iff the glyph passes and the console is non-empty |
| Rlh.Term.PushGrid | include/rlh/roguelike.h:1186-1196 | the tile at (gx*tw*scale, gy*th*scale) of size tw*scale by th*scale goes through the reserve-then-push protocol |
| Rlh.Term.PushGridSized | include/rlh/roguelike.h:1198-1211 | as PushGrid with size w*scale by h*scale, and no grid bounds check |
| Rlh.Term.PushFree | include/rlh/roguelike.h:1213-1222 | the tile at (x*scale, y*scale) of the default scaled size goes through the protocol |
| Rlh.Term.PushFreeSized | include/rlh/roguelike.h:1224-1234 | the tile at (x*scale, y*scale) of size w*scale by h*scale goes through the protocol |
| Rlh.Term.TryAppendElements | include/rlh/roguelike.h:664-686 | OK iff already covering or realloc succeeds; then the element buffer covers max(old, live) tiles with the right indices; failure leaves it alone |
| Rlh.SetSize | include/rlh/roguelike.h:1039-1053 | NULL_ARGUMENT for a missing term or record; a failed check is returned and changes nothing; otherwise the term is resized and keeps its tiles; only the nine sizing fields may change |
| Rlh.ClearTileData | include/rlh/roguelike.h:1055-1063 | NULL_ARGUMENT for a missing term; otherwise no tiles remain and only the tile count changes (so clearing twice is clearing once) |
| Rlh.GetTileDataCount | include/rlh/roguelike.h:1065-1072 | 0 for a missing term, otherwise the number of live tiles |
| Rlh.DrawMatrix | include/rlh/roguelike.h:1369-1448 | NULL_ARGUMENT for a missing term or matrix; OK and no draw with no tiles; OUT_OF_MEMORY iff the element buffer must grow and cannot; otherwise draws the live tiles with 6 indices each, re-uploads iff changed, then clears unless retained; the element buffer then covers max(old, live) tiles, and is untouched when nothing is drawn; only the tile count, the changed flag and the element buffer may change |
| Rlh.AlignedTranslation | include/rlh/roguelike.h:1293-1319 | start gives 0, end puts the far edge on the viewport's, centre splits the margin within one pixel |
| Rlh.SetTermScissor | include/rlh/roguelike.h:1264-1285 | corrected: origin never negative, right edge kept, top edge at the console's flipped top |
| Rlh.SetTermScissorAsWritten | include/rlh/roguelike.h:1264-1285 | the scissor as written: origin never negative and right edge kept, but its top edge lands at viewport height minus `translate_x` |
| Rlh.SetTermScissorAsWrittenMisplaced | include/rlh/roguelike.h:1268 | as written, moving the console down does not move the scissor |

## Left out

- OpenGL: every GL call, shader compilation, texture and buffer creation,
  uniforms, blending and the draw calls themselves. `DrawMatrix` models
  only what is uploaded and drawn as values, and the count and clear
  protocol.
- Floating point:
  - the normalised positions and atlas coordinates of the 52 floats that
    `_rlhTermPushTile` writes in `include/rlh/roguelike.h`; a tile is
    kept as an abstract `Quad` of its pixel rectangle, glyph and colours;
  - the float colour channels, which are copied only;
  - the matrix helpers and `rlhTermDrawTransformed`;
  - `rlhTermDrawTranslated`;
  - the float `pixel_scale` of `include/roguelike.h`.
- Roguelike.Term.constructor, Roguelike.Term.ResizePixelDimensions: the
  pixel scale is a positive whole number, because the header's float
  division is not modelled.
- Rlh.PixelSize, Rlh.Term.SetPixelSize, Rlh.Term.constructor, Rlh.SetSize:
  require a positive pixel scale, which `_rlhSizeInfoCheck` does not check
  (see "## Findings"). With scale 0, scaled-pixel mode divides by 0
  (include/rlh/roguelike.h:780-781) and flooring takes a remainder modulo
  0 (lines 784-785 and 797-798), both undefined in C. Tile mode, and
  unscaled-pixel mode without flooring, accept scale 0 with no undefined
  behaviour and give a scaled size of 0; the model leaves those inputs
  out too.
- Rlh.SetSize: returns OK after resizing. The header's function ends
  without a `return`, so its result in C is undefined.
- Roguelike.Term.TryReserve, Jm.Term.TryReserve: grow an empty buffer to
  8 records instead of the header's `capacity * 2`. The as-written rule
  is `Common.ReserveAsWritten`; see "## Findings".
- The byte writes of `_rlhTermPushTile` in the two 18-byte headers are
  one parallel `forall` statement rather than 18 sequential stores.
- Rlh.Term.TryAppendElements: the loop counts in a local variable and
  assigns `element_glyph_count` at the end. The header increments the
  field itself, with the same final value.
- Resource handling, and failure paths of the create functions:
  - `malloc` failures;
  - destroy functions;
  - the zeroed terminal `include/jm/roguelike.h` returns when its
    buffer allocation fails;
  - `rlhTermCreate` freeing the terminal after a failed atlas.
- The rest of `rlhTermCreate` in `include/rlh/roguelike.h`:
  - its NULL-output and check-failure returns (the checks are modelled
    as `SizeInfoCheck` and `AtlasInfoCheck`);
  - `rlhTermSetAtlas`, except for the glyph count and the fragment type
    the constructor takes from the atlas.
- `rlhTermDrawAligned` beyond its translation arithmetic. The `int` minus
  `size_t` difference is taken as the signed difference.
- `rlhTermCreateTileDimensions`, `rlhTermResizeTileDimensions`,
  `rlhTermGetTileGridDimensions`, `rlhTermGetTileDimensions`,
  `rlhTermChangeAtlas` and the atlas objects of `include/roguelike.h`:
  they are outside the tile-buffer engine.
- 32-bit overflow of C `int` and `unsigned int` arithmetic (positions,
  `grid * tile * scale`). Integers are unbounded; only the 16-bit record
  fields and the `int`-to-`size_t` comparisons are reduced explicitly.
- Negative `size_t` wrap-around in the rlh sizing for negative scales:
  excluded by the positive-scale requirement above.
- The two example programs (`example/src/main.c` and the `main.c` of the
  RLH example): window and image-loading glue.

## Findings

| source | as written | input that shows it | evidently intended | confidence | as-written member | corrected member |
|---|---|---|---|---|---|---|
| include/roguelike.h:597-598 | a full buffer grows to `capacity * 2`, also when the capacity is 0 (include/jm/roguelike.h:489-490 likewise) | a terminal whose pixel width is below its tile width gets capacity 0, and the first push calls `realloc(TileData, 0)`. If that returns a non-null pointer, the push writes 18 bytes into a 0-byte block. If it returns NULL (glibc frees the block and returns NULL for size 0), the push is dropped, `TileData` dangles, and `rlhTermDestroy` frees it a second time (line 487). Independently, the `malloc(0)` at line 442 may return NULL, and then `rlhTermCreate` fails (lines 443-447) | start from a positive capacity, as include/rlh/roguelike.h:1079 does | high, not executed | Common.ReserveAsWritten, Common.ReserveAsWrittenLeavesNoRoom | Common.NextCapacity (used by Roguelike.Term.TryReserve, Jm.Term.TryReserve) |
| include/roguelike.h:245 | `kMaxTilePixelDimensions = 65565` bounds sizes carried in 16-bit fields (include/jm/roguelike.h:234 likewise) | a 65540 by 8 tile passes the check and the shader draws it 4 pixels wide | 65535, the largest 16-bit value | high, not executed | Wire.SizeAccepted, Wire.SizeAcceptedWraps | Wire.SizeFitsField, Wire.SizeFitsFieldRoundTrips |
| include/roguelike.h:660-662 | `rlhTermPushTileFree` bounds x and y above by the tile size | 8-pixel tiles on an 80 by 50 console, tile at (40, 24): dropped | bound by the console's pixel size, as `rlhTermPushTileFreeSized` does | high, not executed | Roguelike.FreeInBoundsAsWritten, Roguelike.FreeInBoundsAsWrittenDropsVisible | Roguelike.FreeInBounds, Roguelike.FreeInBoundsKeepsVisible |
| include/jm/roguelike.h:554 | the upper bounds compare the `int` position with a `size_t` console size, so a negative position becomes huge (line 561 likewise) | 8 by 8 tile at (-4, 0) on an 80 by 50 console: dropped, though it covers 4 columns | signed comparison, keeping every tile the lower bound `x < -w` admits | high, not executed | Jm.FreeInBoundsAsWritten, Jm.FreeInBoundsAsWrittenDropsVisible | Wire.RectTouches, Wire.RectTouchesWhenVisible |
| include/rlh/roguelike.h:1100-1102 | the cull compares the `int` position with the `size_t` unscaled size | 8 by 8 tile at (-4, 0) on an 80 by 50 console: culled, though it covers pixel (0, 0) | signed comparison, so a tile is kept iff it covers a console pixel | high, not executed | Rlh.OnScreenAsWritten, Rlh.OnScreenAsWrittenDropsVisible | Rlh.OnScreen, Rlh.OnScreenIffCoversPixel |
| include/rlh/roguelike.h:1096 | `glyph > glyph_count` drops, so `glyph == glyph_count` is kept | glyph equal to the atlas's glyph count: five floats are read from past the end of `glyph_stpqp` | `glyph >= glyph_count` drops | high, not executed | Rlh.GlyphInRangeAsWritten, Rlh.GlyphInRangeAsWrittenReadsPastTable | Rlh.GlyphInRange, Rlh.GlyphInRangeReadsInTable |
| include/rlh/roguelike.h:1268 | the flip to bottom-up y uses `translate_x` | translate (0, 10), console 100 by 100, viewport height 200: scissor y is 100, as for translate (0, 0) | use `translate_y`, giving y = 90 | high, not executed | Rlh.SetTermScissorAsWritten, Rlh.SetTermScissorAsWrittenMisplaced | Rlh.SetTermScissor |
| include/jm/roguelike.h:451 | `rlhTermGetPixelDimensions` reports `ConsoleTilesWide` as the pixel width | a 640-pixel console of 8-pixel tiles reports width 80 | report `ConsolePixelWidth` | high, not executed | Jm.Term.GetPixelDimensionsAsWritten, Jm.PixelDimensionsAsWrittenAgreeOnlyIfTrivial | Jm.Term.GetPixelDimensions (reported exactly by Jm.Term.constructor and Jm.Term.ResizeConsole) |
| include/rlh/roguelike.h:712-729 | `_rlhSizeInfoCheck` does not look at `pixel_scale` | scaled-pixel mode with pixel scale 0 passes and `_rlhTermSetPixelSize` divides by 0 at line 780 | reject a non-positive scale as INVALID_VALUE | medium, not executed | Rlh.SizeInfoCheck, Rlh.SizeInfoCheckAcceptsZeroScale | Rlh.SizeInfoCheckWithScale |
| include/rlh/roguelike.h:1190-1191 | grid and free pushes multiply positions and sizes by `pixel_scale`, but the cull and the normalisation use unscaled pixels (lines 1205-1206, 1219, 1231 likewise) | pixel scale 2, 8-pixel tiles, 80 by 48 unscaled console (a 10 by 6 grid): cell (5, 0) lands at x = 80 and is culled | place cells at `grid * tile` unscaled pixels | medium, not executed | Rlh.GridPixelAsWritten, Rlh.GridPixelAsWrittenCullsCell | Rlh.GridPixel, Rlh.GridPixelOnScreen |
| include/rlh/roguelike.h:784-785 | flooring to tiles takes the unscaled size modulo `tile_width * pixel_scale` (lines 797-798 likewise) | unscaled width 24, 8-pixel tiles, scale 2: floored to 16, losing a whole tile | floor the unscaled size to a multiple of the tile size | medium, not executed | Rlh.FloorAsWritten, Rlh.FloorAsWrittenLosesWholeTile | Rlh.FloorToTiles |
