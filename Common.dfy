/** What the three headers share: the C integer conventions they rely on
    (written out, because Dafny's integers are unbounded and its division is
    Euclidean), the scissor rectangle handed to `glScissor`, and the rule by
    which a tile buffer's capacity grows. */
module Common {

  /** An `uint8_t`. */
  type Byte = b: int | 0 <= b < 256

  /** An `uint16_t`, the type of a glyph id in the 18-byte record headers. */
  type Uint16 = v: int | 0 <= v < 0x1_0000

  /** `size_t` is taken to be 64 bits wide. */
  const SIZE_T_MODULUS: int := 0x1_0000_0000_0000_0000

  /** The value C gives an `int` that takes part in a comparison with a
      `size_t` (the usual arithmetic conversions): it is reduced modulo
      2^64, so a negative int becomes a very large unsigned value. */
  function ToSizeT(x: int): (r: int)
    ensures 0 <= r < SIZE_T_MODULUS
    ensures 0 <= x < SIZE_T_MODULUS ==> r == x
    ensures -SIZE_T_MODULUS <= x < 0 ==> r == x + SIZE_T_MODULUS
  {
    x % SIZE_T_MODULUS
  }

  /** C's `/` on `int`: the quotient is truncated toward zero, so the
      remainder `a - b * q` is smaller than the divisor and takes the sign
      of the dividend. */
  function TruncDiv(a: int, b: int): (q: int)
    requires b > 0
    ensures a >= 0 ==> 0 <= a - b * q < b
    ensures a < 0 ==> -b < a - b * q <= 0
  {
    if a >= 0 then
      DivBounds(a, b);
      a / b
    else
      DivBounds(-a, b);
      -((-a) / b)
  }

  function Max(a: int, b: int): int {
    if a > b then a else b
  }

  /** Truncating division by 2 never moves farther than one half-unit from
      the exact half: `a - 2 * q` is -1, 0 or 1. */
  lemma TruncHalf(a: int)
    ensures -1 <= a - 2 * TruncDiv(a, 2) <= 1
    ensures a >= 0 ==> 0 <= a - 2 * TruncDiv(a, 2)
    ensures a < 0 ==> a - 2 * TruncDiv(a, 2) <= 0
  {
  }

  /** The four integers passed to `glScissor`. */
  datatype Rect = Rect(x: int, y: int, w: int, h: int)

  /** Growth as include/roguelike.h and include/jm/roguelike.h write it:
      `capacity * 2`, which enlarges a positive capacity and leaves 0 at 0. */
  function DoubledCapacity(capacity: nat): (r: nat)
    ensures capacity > 0 ==> capacity < r
    ensures capacity == 0 ==> r == 0
  {
    2 * capacity
  }

  /** Growth as include/rlh/roguelike.h writes it: an empty buffer starts at
      8 records, any other doubles. The model of the two older headers uses
      it too, because their own rule cannot leave capacity 0. */
  function NextCapacity(capacity: nat): (r: nat)
    ensures capacity < r
    ensures capacity > 0 ==> r == 2 * capacity
    ensures capacity == 0 ==> r == 8
  {
    if capacity == 0 then 8 else capacity * 2
  }

  /** The outcome of a reserve: whether it reports success, and the
      capacity afterwards. */
  datatype Reserve = Reserve(ok: bool, capacity: nat)

  /** `_rlhTermTryReserve` of include/roguelike.h and include/jm/roguelike.h
      as written, on the count and capacity of the buffer: a full buffer is
      reallocated at `DoubledCapacity`, and a failed `realloc` reports
      failure and keeps the capacity. */
  function ReserveAsWritten(count: nat, capacity: nat, allocOk: bool): Reserve {
    if count == capacity then
      if allocOk then Reserve(true, DoubledCapacity(capacity)) else Reserve(false, capacity)
    else Reserve(true, capacity)
  }

  /** The as-written reserve reports success yet leaves no room for the
      record `_rlhTermPushTile` then writes at index `count` exactly when
      the buffer is empty with capacity 0 and `realloc` succeeds. */
  lemma ReserveAsWrittenLeavesNoRoom(count: nat, capacity: nat, allocOk: bool)
    requires count <= capacity
    ensures (ReserveAsWritten(count, capacity, allocOk).ok && count >= ReserveAsWritten(count, capacity, allocOk).capacity)
        <==> count == 0 && capacity == 0 && allocOk
  {
  }

  /** A pointer argument: `None` for `NULL`, or the value it points to. */
  datatype Option<T> = None | Some(value: T)

  lemma MulMonotone(a: int, b: int, c: nat)
    requires a <= b
    ensures a * c <= b * c
  {
    assert b * c - a * c == (b - a) * c;
  }

  /** A multiple of `d` leaves no remainder and divides back exactly. */
  lemma ModOfMultiple(d: int, k: int)
    requires d > 0
    ensures (d * k) % d == 0 && (d * k) / d == k
  {
    var q := (d * k) / d;
    var m := (d * k) % d;
    assert d * (k - q) == m;
    if k - q >= 1 {
      MulMonotone(1, k - q, d);
    } else if k - q <= -1 {
      MulMonotone(k - q, -1, d);
    }
  }

  /** Whole divisions: `v / d` copies of `d` fit in `v`, one more does not. */
  lemma DivBounds(v: nat, d: nat)
    requires d > 0
    ensures (v / d) * d <= v < (v / d + 1) * d
  {
    assert v == d * (v / d) + v % d;
    assert (v / d + 1) * d == (v / d) * d + d;
  }
}
