/** The 64-bit map keys of the terrain: the high half holds a chunk corner's
    x and the low half its z. The source builds and splits keys with 64-bit
    masks, shifts, AND and OR; the model keeps the two 32-bit halves of
    every intermediate value apart. Each mask used is all zeros or all ones
    in a half, so AND and OR are computed exactly half by half. */
module Keys {
  import opened Machine

  const Ones: uint32 := 0xffff_ffff

  /** A 64-bit pattern as its high and low 32-bit halves. */
  datatype Word = Word(hi: uint32, lo: uint32)

  predicate IsMask(h: uint32) {
    h == 0 || h == Ones
  }

  /** Bitwise AND of two halves, at least one of which is a mask. */
  function AndHalf(a: uint32, b: uint32): uint32
    requires IsMask(a) || IsMask(b)
  {
    if a == Ones then b else if b == Ones then a else 0
  }

  /** Bitwise OR of two halves, at least one of which is a mask. */
  function OrHalf(a: uint32, b: uint32): uint32
    requires IsMask(a) || IsMask(b)
  {
    if a == 0 then b else if b == 0 then a else Ones
  }

  predicate HalvesMasked(a: Word, b: Word) {
    (IsMask(a.hi) || IsMask(b.hi)) && (IsMask(a.lo) || IsMask(b.lo))
  }

  function And(a: Word, b: Word): Word
    requires HalvesMasked(a, b)
  {
    Word(AndHalf(a.hi, b.hi), AndHalf(a.lo, b.lo))
  }

  function Or(a: Word, b: Word): Word
    requires HalvesMasked(a, b)
  {
    Word(OrHalf(a.hi, b.hi), OrHalf(a.lo, b.lo))
  }

  /** `w << 32` */
  function ShiftLeft32(w: Word): Word {
    Word(w.lo, 0)
  }

  /** `w >> 32` on a signed 64-bit value: the sign bit fills the high half. */
  function ArithShiftRight32(w: Word): Word {
    Word(if w.hi >= 0x8000_0000 then Ones else 0, w.hi)
  }

  /** The sign extension of an `int` to `int64_t`. */
  function Widen(x: int32): Word {
    Word(if x < 0 then Ones else 0, Unsigned(x))
  }

  /** The value of a 64-bit pattern read as a signed `int64_t`. */
  function ToInt64(w: Word): int64 {
    var u := w.hi * TwoTo32 + w.lo;
    if w.hi >= 0x8000_0000 then u - TwoTo32 * TwoTo32 else u
  }

  /** The bit pattern of an `int64_t`. */
  function Bits(k: int64): Word {
    var u := k % (TwoTo32 * TwoTo32);
    Word(u / TwoTo32, u % TwoTo32)
  }

  /** The narrowing of an `int64_t` to `int`: its low half, signed. */
  function Narrow(w: Word): int32 {
    if w.lo >= 0x8000_0000 then w.lo - TwoTo32 else w.lo
  }

  /** `toKey(x, z)` as the source computes it: widen both coordinates,
      shift x into the high half, mask z into the low half, and AND the two. */
  function BitwiseKey(x: int32, z: int32): int64 {
    var xz := Or(And(Word(Ones, Ones), ShiftLeft32(Widen(x))), Word(0, Ones));
    var z64 := Or(Widen(z), Word(Ones, 0));
    ToInt64(And(xz, z64))
  }

  /** The key of corner (x, z) as a number: x in the high half, signed, and
      the bit pattern of z in the low half. `ToKeyValue` shows that this is
      the value `toKey` builds. */
  function ToKey(x: int32, z: int32): int64 {
    x * 0x1_0000_0000 + Unsigned(z)
  }

  /** `toCoords(k)`, as (x, z). */
  function ToCoords(k: int64): (int32, int32) {
    var kw := Bits(k);
    var z := And(kw, Word(0, Ones));
    var z' := if z.lo >= 0x8000_0000 then Or(z, Word(Ones, 0)) else z;
    (Narrow(ArithShiftRight32(kw)), Narrow(z'))
  }

  /** Reading a pattern as a number and back gives the pattern. */
  lemma {:induction false} BitsOfInt64(w: Word)
    ensures Bits(ToInt64(w)) == w
  {
    var u := w.hi * TwoTo32 + w.lo;
    assert 0 <= u < TwoTo32 * TwoTo32;
    assert ToInt64(w) % (TwoTo32 * TwoTo32) == u;
  }

  /** The masks and shifts of `toKey` put the pattern of x in the high
      half and that of z in the low half, which read as a signed number is
      x * 2^32 plus the pattern of z. */
  lemma {:induction false} ToKeyValue(x: int32, z: int32)
    ensures BitwiseKey(x, z) == ToInt64(Word(Unsigned(x), Unsigned(z))) == ToKey(x, z)
  {
  }

  /** A key holds the unsigned patterns of x and z in its two halves. */
  lemma {:induction false} KeyHalves(x: int32, z: int32)
    ensures Bits(ToKey(x, z)) == Word(Unsigned(x), Unsigned(z))
  {
    ToKeyValue(x, z);
    BitsOfInt64(Word(Unsigned(x), Unsigned(z)));
  }

  /** Splitting a key gives back the coordinates it was built from. */
  lemma {:induction false} KeyRoundTrip(x: int32, z: int32)
    ensures ToCoords(ToKey(x, z)) == (x, z)
  {
    KeyHalves(x, z);
  }

  /** Distinct corners get distinct keys. */
  lemma {:induction false} KeyInjective(x: int32, z: int32, x': int32, z': int32)
    ensures ToKey(x, z) == ToKey(x', z') <==> x == x' && z == z'
  {
    KeyRoundTrip(x, z);
    KeyRoundTrip(x', z');
  }

  /** `16 * floor(v / 16.f)`: the chunk corner coordinate whose 16-wide span
      contains v. Dafny's `/` rounds down for a positive divisor, as floor
      does; the rounding of the float division is not modelled. */
  function ChunkCorner(v: int32): (r: int32)
    ensures r <= v < r + 16 && r % 16 == 0
  {
    16 * (v / 16)
  }

  /** The next column along an axis lies in the same chunk unless v is the
      last column of its chunk. */
  lemma {:induction false} CornerStep(v: int32)
    requires v - ChunkCorner(v) < 15
    ensures v + 1 < 0x8000_0000 && ChunkCorner(v + 1) == ChunkCorner(v)
  {
    var q := v / 16;
    assert 16 * q <= v + 1 < 16 * q + 16;
    assert (v + 1) / 16 == q;
  }

  /** The key of the chunk whose footprint holds column (x, z). */
  function CornerKey(x: int32, z: int32): int64 {
    ToKey(ChunkCorner(x), ChunkCorner(z))
  }

  /** Two columns share a chunk key exactly when they lie in the same
      16 x 16 footprint. */
  lemma {:induction false} CornerKeyShared(x: int32, z: int32, x': int32, z': int32)
    ensures CornerKey(x, z) == CornerKey(x', z') <==> ChunkCorner(x) == ChunkCorner(x') && ChunkCorner(z) == ChunkCorner(z')
  {
    KeyInjective(ChunkCorner(x), ChunkCorner(z), ChunkCorner(x'), ChunkCorner(z'));
  }

  /** Column -1 belongs to the chunk whose corner is -16, not to the chunk at 0. */
  lemma {:induction false} NegativeCorner()
    ensures ChunkCorner(-1) == -16 && ChunkCorner(-16) == -16 && ChunkCorner(15) == 0 && ChunkCorner(16) == 16
  {
  }
}
