/** The 18-byte tile record shared by include/roguelike.h and
    include/jm/roguelike.h, and the vertex shader's way of reading it back.
    The two headers differ only in the bias added to the position, so the
    bias is a parameter here. */
module Wire {
  import opened Common

  /** `kBytesPerTileData` */
  const RECORD_BYTES: nat := 18

  /** Both 16-bit position fields, the two size fields and the glyph field
      hold values modulo 2^16. */
  const FIELD_MODULUS: int := 0x1_0000

  /** An 8-bit-per-channel colour, `rlhColor32_s` / `rlhcolor32_s`. */
  datatype Color32 = Color32(r: Byte, g: Byte, b: Byte, a: Byte)

  /** The arguments of `_rlhTermPushTile`: pixel position, pixel size, glyph
      and the two colours. */
  datatype Tile = Tile(x: int, y: int, w: int, h: int, glyph: Uint16, fg: Color32, bg: Color32)

  /** `v & 0xff` */
  function Lo(v: int): Byte {
    v % 256
  }

  /** `(v >> 8) & 0xff` */
  function Hi(v: int): Byte {
    (v / 256) % 256
  }

  /** The shader's `texel + texel * 256u`: a little-endian 16-bit field. */
  function Join(lo: Byte, hi: Byte): (v: int)
    ensures 0 <= v < FIELD_MODULUS
  {
    lo + 256 * hi
  }

  /** The bytes `_rlhTermPushTile` writes for one tile. */
  function Encode(bias: int, t: Tile): (r: seq<Byte>)
    ensures |r| == RECORD_BYTES
  {
    [ Lo(t.x + bias), Hi(t.x + bias), Lo(t.y + bias), Hi(t.y + bias),
      Lo(t.w), Hi(t.w), Lo(t.h), Hi(t.h), Lo(t.glyph), Hi(t.glyph),
      t.fg.r, t.fg.g, t.fg.b, t.fg.a, t.bg.r, t.bg.g, t.bg.b, t.bg.a ]
  }

  /** What the vertex shader reads from one record: position fields minus
      the bias, sizes and glyph as unsigned 16-bit values, colours verbatim. */
  function Decode(bias: int, r: seq<Byte>): Tile
    requires |r| == RECORD_BYTES
  {
    Tile(Join(r[0], r[1]) - bias, Join(r[2], r[3]) - bias,
         Join(r[4], r[5]), Join(r[6], r[7]), Join(r[8], r[9]),
         Color32(r[10], r[11], r[12], r[13]), Color32(r[14], r[15], r[16], r[17]))
  }

  /** The tile's numeric fields fit their 16-bit wire fields. */
  predicate Fits(bias: int, t: Tile) {
    && 0 <= t.x + bias < FIELD_MODULUS
    && 0 <= t.y + bias < FIELD_MODULUS
    && 0 <= t.w < FIELD_MODULUS
    && 0 <= t.h < FIELD_MODULUS
  }

  /** Every record decodes to a tile that fits, so the shader can place a
      tile only at `-bias` to `65535 - bias` and size it below 65536. */
  lemma DecodeFits(bias: int, r: seq<Byte>)
    requires |r| == RECORD_BYTES
    ensures Fits(bias, Decode(bias, r))
  {
  }

  /** Splitting a value into two bytes and joining them again keeps it
      modulo 2^16. */
  lemma JoinSplit(v: int)
    ensures Join(Lo(v), Hi(v)) == v % FIELD_MODULUS
  {
    var q := v / 256;
    assert v == 256 * q + v % 256;
    assert q == 256 * (q / 256) + q % 256;
    assert v == FIELD_MODULUS * (q / 256) + Join(Lo(v), Hi(v));
  }

  /** Decoding an encoded tile gives back every field, each numeric one
      reduced into its 16-bit window. */
  lemma DecodeEncode(bias: int, t: Tile)
    ensures Decode(bias, Encode(bias, t))
         == Tile((t.x + bias) % FIELD_MODULUS - bias, (t.y + bias) % FIELD_MODULUS - bias,
                 t.w % FIELD_MODULUS, t.h % FIELD_MODULUS, t.glyph, t.fg, t.bg)
  {
    JoinSplit(t.x + bias);
    JoinSplit(t.y + bias);
    JoinSplit(t.w);
    JoinSplit(t.h);
    JoinSplit(t.glyph);
  }

  /** A tile survives the trip through the record exactly when it fits. */
  lemma RoundTripIffFits(bias: int, t: Tile)
    ensures Decode(bias, Encode(bias, t)) == t <==> Fits(bias, t)
  {
    DecodeEncode(bias, t);
    ModIdentity(t.x + bias);
    ModIdentity(t.y + bias);
    ModIdentity(t.w);
    ModIdentity(t.h);
  }

  lemma ModIdentity(v: int)
    ensures v % FIELD_MODULUS == v <==> 0 <= v < FIELD_MODULUS
  {
  }

  /** The records of a tile sequence laid end to end: the live prefix of
      the terminal's byte buffer. */
  function EncodeAll(bias: int, ts: seq<Tile>): (r: seq<Byte>)
    ensures |r| == RECORD_BYTES * |ts|
    decreases |ts|
  {
    if ts == [] then [] else EncodeAll(bias, ts[..|ts| - 1]) + Encode(bias, ts[|ts| - 1])
  }

  /** The shader's view of a byte buffer: one tile per 18 bytes. */
  function DecodeAll(bias: int, bytes: seq<Byte>): (ts: seq<Tile>)
    requires |bytes| % RECORD_BYTES == 0
    ensures RECORD_BYTES * |ts| == |bytes|
    decreases |bytes|
  {
    if |bytes| == 0 then []
    else DecodeAll(bias, bytes[..|bytes| - RECORD_BYTES]) + [Decode(bias, bytes[|bytes| - RECORD_BYTES..])]
  }

  /** Tile `i` occupies bytes `18 * i` up to `18 * i + 18`. */
  lemma {:induction false} EncodeAllAt(bias: int, ts: seq<Tile>, i: nat)
    requires i < |ts|
    ensures EncodeAll(bias, ts)[RECORD_BYTES * i..RECORD_BYTES * i + RECORD_BYTES] == Encode(bias, ts[i])
    decreases |ts|
  {
    var n := |ts|;
    var front := ts[..n - 1];
    assert EncodeAll(bias, ts) == EncodeAll(bias, front) + Encode(bias, ts[n - 1]);
    if i < n - 1 {
      EncodeAllAt(bias, front, i);
      assert ts[i] == front[i];
    }
  }

  /** The vertex shader recovers tile `i` from the buffer exactly as it was
      pushed, provided it fits the record. */
  lemma ShaderReadsTile(bias: int, ts: seq<Tile>, i: nat)
    requires i < |ts| && Fits(bias, ts[i])
    ensures Decode(bias, EncodeAll(bias, ts)[RECORD_BYTES * i..RECORD_BYTES * i + RECORD_BYTES]) == ts[i]
  {
    EncodeAllAt(bias, ts, i);
    RoundTripIffFits(bias, ts[i]);
  }

  /** Decoding the whole buffer gives back the pushed sequence, in push
      order, when every tile fits. */
  lemma {:induction false} DecodeAllEncodeAll(bias: int, ts: seq<Tile>)
    requires forall t | t in ts :: Fits(bias, t)
    ensures DecodeAll(bias, EncodeAll(bias, ts)) == ts
    decreases |ts|
  {
    if ts != [] {
      var n := |ts|;
      var front := ts[..n - 1];
      var bytes := EncodeAll(bias, ts);
      assert bytes == EncodeAll(bias, front) + Encode(bias, ts[n - 1]);
      assert bytes[..|bytes| - RECORD_BYTES] == EncodeAll(bias, front);
      assert bytes[|bytes| - RECORD_BYTES..] == Encode(bias, ts[n - 1]);
      assert ts[n - 1] in ts;
      RoundTripIffFits(bias, ts[n - 1]);
      assert forall t | t in front :: t in ts;
      DecodeAllEncodeAll(bias, front);
      assert ts == front + [ts[n - 1]];
    }
  }

  /** `kMaxTilePixelDimensions`, in both 18-byte headers. */
  const MAX_TILE_PIXEL_DIMENSIONS: int := 65565

  /** The size check of the `...Sized` pushes as written: positive and at
      most `kMaxTilePixelDimensions`. */
  predicate SizeAccepted(w: int, h: int) {
    !(w <= 0 || h <= 0 || w > MAX_TILE_PIXEL_DIMENSIONS || h > MAX_TILE_PIXEL_DIMENSIONS)
  }

  /** The size check with the largest value the 16-bit size field holds. */
  predicate SizeFitsField(w: int, h: int) {
    0 < w < FIELD_MODULUS && 0 < h < FIELD_MODULUS
  }

  /** The bound 65565 lets a width through that the record cannot carry: a
      65540-pixel tile is accepted and the shader reads it as 4 pixels wide. */
  lemma SizeAcceptedWraps(bias: int, t: Tile)
    requires t.w == 65540 && t.h == 8
    ensures SizeAccepted(t.w, t.h)
    ensures Decode(bias, Encode(bias, t)).w == 4
  {
    var r := Encode(bias, t);
    assert r[4] == 4 && r[5] == 0;
  }

  /** Every size the corrected check accepts reaches the shader unchanged,
      and it accepts every positive size the field can hold. */
  lemma SizeFitsFieldRoundTrips(bias: int, t: Tile)
    ensures SizeFitsField(t.w, t.h) <==> t.w > 0 && t.h > 0 && Decode(bias, Encode(bias, t)).w == t.w && Decode(bias, Encode(bias, t)).h == t.h
  {
    DecodeEncode(bias, t);
    ModIdentity(t.w);
    ModIdentity(t.h);
  }

  /** The position check of `rlhTermPushTileFreeSized` in include/roguelike.h,
      written with signed comparisons: a `w` by `h` tile at `(x, y)` is dropped
      when it lies at least one pixel clear of the `pw` by `ph` console, to
      its left, above, right or below. A tile that only lies against an edge
      of the console (`x == pw`, say) is kept although it covers no pixel. */
  predicate RectTouches(x: int, y: int, w: int, h: int, pw: int, ph: int) {
    !(x < -w || y < -h || x > pw || y > ph)
  }

  /** Every tile that covers at least one console pixel passes the signed
      check. */
  lemma RectTouchesWhenVisible(x: int, y: int, w: int, h: int, pw: int, ph: int)
    requires x + w > 0 && x < pw && y + h > 0 && y < ph
    ensures RectTouches(x, y, w, h, pw, ph)
  {
  }

  /** The grid check of the grid pushes: both coordinates between 0 and the
      console's tile count, that count included. */
  predicate GridInBounds(gridX: int, gridY: int, tilesWide: int, tilesTall: int) {
    !(gridX < 0 || gridY < 0 || gridX > tilesWide || gridY > tilesTall)
  }

  /** What one push does to the tiles and capacity of an 18-byte header's
      buffer. When every check passes and there is room, or the buffer grows,
      the tile is appended; otherwise the tiles stay as they were. The buffer
      grows only when the checks passed and it was full. */
  ghost predicate Pushed(tiles0: seq<Tile>, capacity0: nat, accepted: bool, allocOk: bool, t: Tile,
                         tiles1: seq<Tile>, capacity1: nat)
  {
    var full := |tiles0| == capacity0;
    && tiles1 == (if accepted && (!full || allocOk) then tiles0 + [t] else tiles0)
    && capacity1 == (if accepted && full && allocOk then NextCapacity(capacity0) else capacity0)
  }
}
