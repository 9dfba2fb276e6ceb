/** Signed bytes packed four to a 32-bit word, as the Q8 kernels read them (src/gpu.rs). */
module Words {
  // ---------------------------------------------------------------- a byte and its bits

  /** A signed byte, and its bits as an unsigned one (`value as u8`). */
  type I8 = v: int | -128 <= v <= 127

  function Unsigned(v: I8): (u: nat)
    ensures u < 256
  {
    if v < 0 then v + 256 else v
  }

  function Signed(u: nat): I8
    requires u < 256
  {
    if u >= 128 then u - 256 else u
  }

  function Bit(b: bv32, mask: bv32): nat {
    if b & mask == 0 then 0 else 1
  }

  /** The number that the low eight bits write. */
  function ByteValue(b: bv32): (u: nat)
    ensures u < 256
  {
    Bit(b, 1) + 2 * Bit(b, 2) + 4 * Bit(b, 4) + 8 * Bit(b, 8) + 16 * Bit(b, 16) + 32 * Bit(b, 32) + 64 * Bit(b, 64) +
        128 * Bit(b, 128)
  }

  function Pick(u: nat, d: nat, mask: bv32): (r: bv32)
    requires 0 < d
    ensures r == 0 || r == mask
  {
    if u / d % 2 == 1 then mask else 0
  }

  /** The bits of a number below 256. */
  function ByteBits(u: nat): bv32 {
    Pick(u, 1, 1) | Pick(u, 2, 2) | Pick(u, 4, 4) | Pick(u, 8, 8) | Pick(u, 16, 16) | Pick(u, 32, 32) |
        Pick(u, 64, 64) | Pick(u, 128, 128)
  }

  lemma Masks(a: bv32, b: bv32, c: bv32, d: bv32, e: bv32, f: bv32, g: bv32, h: bv32)
    requires a <= 1 && (b == 0 || b == 2) && (c == 0 || c == 4) && (d == 0 || d == 8)
    requires (e == 0 || e == 16) && (f == 0 || f == 32) && (g == 0 || g == 64) && (h == 0 || h == 128)
    ensures var w := a | b | c | d | e | f | g | h;
            w & 1 == a && w & 2 == b && w & 4 == c && w & 8 == d && w & 16 == e && w & 32 == f && w & 64 == g &&
                w & 128 == h && w < 256
  {
  }

  lemma Picked(u: nat, d: nat, mask: bv32)
    requires 0 < d && mask != 0
    ensures (if Pick(u, d, mask) == 0 then 0 else 1) == u / d % 2
  {
  }

  lemma BinaryDigits(u: nat)
    requires u < 256
    ensures u == u / 1 % 2 + 2 * (u / 2 % 2) + 4 * (u / 4 % 2) + 8 * (u / 8 % 2)
               + 16 * (u / 16 % 2) + 32 * (u / 32 % 2) + 64 * (u / 64 % 2) + 128 * (u / 128 % 2)
  {
    var u1 := u / 2;
    var u2 := u1 / 2;
    var u3 := u2 / 2;
    var u4 := u3 / 2;
    var u5 := u4 / 2;
    var u6 := u5 / 2;
    var u7 := u6 / 2;
    assert u2 == u / 4 && u3 == u / 8 && u4 == u / 16;
    assert u5 == u / 32 && u6 == u / 64 && u7 == u / 128;
  }

  lemma Digits(u: nat)
    ensures var b := ByteBits(u);
            && b < 256 && Bit(b, 1) == u / 1 % 2 && Bit(b, 2) == u / 2 % 2 && Bit(b, 4) == u / 4 % 2 &&
                Bit(b, 8) == u / 8 % 2
            && Bit(b, 16) == u / 16 % 2 && Bit(b, 32) == u / 32 % 2 && Bit(b, 64) == u / 64 % 2 &&
                Bit(b, 128) == u / 128 % 2
  {
    hide Pick;
    Picked(u, 1, 1);
    Picked(u, 2, 2);
    Picked(u, 4, 4);
    Picked(u, 8, 8);
    Picked(u, 16, 16);
    Picked(u, 32, 32);
    Picked(u, 64, 64);
    Picked(u, 128, 128);
    Masks(Pick(u, 1, 1), Pick(u, 2, 2), Pick(u, 4, 4), Pick(u, 8, 8), Pick(u, 16, 16), Pick(u, 32, 32), Pick(u, 64, 64),
        Pick(u, 128, 128));
  }

  lemma ByteRoundTrip(u: nat)
    requires u < 256
    ensures ByteValue(ByteBits(u)) == u && ByteBits(u) < 256
  {
    hide ByteBits, Bit;
    Digits(u);
    BinaryDigits(u);
  }

  lemma ZeroBits(b: bv32)
    requires b < 256 && ByteValue(b) == 0
    ensures b == 0
  {
  }

  // ---------------------------------------------------------------- four bytes in a word

  datatype U32 = U32(bits: bv32)

  function LaneBits(bits: bv32, lane: nat): (b: bv32)
    requires lane < 4
    ensures b < 256
  {
    if lane == 0 then bits & 0xff else if lane == 1 then (bits >> 8) & 0xff else if lane == 2 then (bits >> 16) & 0xff
        else (bits >> 24) & 0xff
  }

  /** `(word >> (lane * 8)) & 0xff` */
  function Lane(word: U32, lane: nat): (u: nat)
    requires lane < 4
    ensures u < 256
  {
    ByteValue(LaneBits(word.bits, lane))
  }

  function OrBits(bits: bv32, b: bv32, lane: nat): bv32
    requires lane < 4
  {
    if lane == 0 then bits | b else if lane == 1 then bits | (b << 8) else if lane == 2 then bits | (b << 16)
        else bits | (b << 24)
  }

  /** `word | (value as u8 as u32) << (lane * 8)` */
  function OrIn(word: U32, v: I8, lane: nat): U32
    requires lane < 4
  {
    U32(OrBits(word.bits, ByteBits(Unsigned(v)), lane))
  }

  /** `unpack_i8` */
  function UnpackI8(word: U32, lane: nat): I8
    requires lane < 4
  {
    Signed(Lane(word, lane))
  }

  lemma Or0(w: bv32, b: bv32)
    requires b < 256 && LaneBits(w, 0) == 0
    ensures LaneBits(OrBits(w, b, 0), 0) == b && LaneBits(OrBits(w, b, 0), 1) == LaneBits(w, 1)
    ensures LaneBits(OrBits(w, b, 0), 2) == LaneBits(w, 2) && LaneBits(OrBits(w, b, 0), 3) == LaneBits(w, 3)
  {
  }

  lemma Or1(w: bv32, b: bv32)
    requires b < 256 && LaneBits(w, 1) == 0
    ensures LaneBits(OrBits(w, b, 1), 0) == LaneBits(w, 0) && LaneBits(OrBits(w, b, 1), 1) == b
    ensures LaneBits(OrBits(w, b, 1), 2) == LaneBits(w, 2) && LaneBits(OrBits(w, b, 1), 3) == LaneBits(w, 3)
  {
  }

  lemma Or2(w: bv32, b: bv32)
    requires b < 256 && LaneBits(w, 2) == 0
    ensures LaneBits(OrBits(w, b, 2), 0) == LaneBits(w, 0) && LaneBits(OrBits(w, b, 2), 1) == LaneBits(w, 1)
    ensures LaneBits(OrBits(w, b, 2), 2) == b && LaneBits(OrBits(w, b, 2), 3) == LaneBits(w, 3)
  {
  }

  lemma Or3(w: bv32, b: bv32)
    requires b < 256 && LaneBits(w, 3) == 0
    ensures LaneBits(OrBits(w, b, 3), 0) == LaneBits(w, 0) && LaneBits(OrBits(w, b, 3), 1) == LaneBits(w, 1)
    ensures LaneBits(OrBits(w, b, 3), 2) == LaneBits(w, 2) && LaneBits(OrBits(w, b, 3), 3) == b
  {
  }

  lemma OrLaneBits(w: bv32, b: bv32, k: nat, lane: nat)
    requires k < 4 && lane < 4 && b < 256 && LaneBits(w, k) == 0
    ensures LaneBits(OrBits(w, b, k), lane) == if lane == k then b else LaneBits(w, lane)
  {
    hide LaneBits, OrBits;
    if k == 0 { Or0(w, b); } else if k == 1 { Or1(w, b); } else if k == 2 { Or2(w, b); } else { Or3(w, b); }
  }

  /** Or-ing a byte into an empty lane sets that lane and no other. */
  lemma OrLane(word: U32, v: I8, k: nat, lane: nat)
    requires k < 4 && lane < 4 && Lane(word, k) == 0
    ensures Lane(OrIn(word, v, k), lane) == if lane == k then Unsigned(v) else Lane(word, lane)
  {
    hide OrBits, LaneBits, ByteValue, ByteBits;
    ByteRoundTrip(Unsigned(v));
    ZeroBits(LaneBits(word.bits, k));
    OrLaneBits(word.bits, ByteBits(Unsigned(v)), k, lane);
  }

  lemma ZeroWord(lane: nat)
    requires lane < 4
    ensures Lane(U32(0), lane) == 0
  {
    assert LaneBits(0, lane) == 0;
  }

  // ---------------------------------------------------------------- packing a row

  /** The words from `base` hold the first `n` bytes, and zeros in place of the others. */
  ghost predicate PackedUpto(words: seq<U32>, base: nat, bytes: seq<I8>, n: nat) {
    && base + (|bytes| + 3) / 4 <= |words|
    && forall i | 0 <= i < |bytes| :: Lane(words[base + i / 4], i % 4) == if i < n then Unsigned(bytes[i]) else 0
  }

  ghost predicate Packed(words: seq<U32>, base: nat, bytes: seq<I8>) {
    PackedUpto(words, base, bytes, |bytes|)
  }

  lemma PackedAt(words: seq<U32>, base: nat, bytes: seq<I8>, n: nat, i: nat)
    requires PackedUpto(words, base, bytes, n) && i < |bytes|
    ensures Lane(words[base + i / 4], i % 4) == if i < n then Unsigned(bytes[i]) else 0
  {
  }

  lemma PackNext(words: seq<U32>, base: nat, bytes: seq<I8>, n: nat, words': seq<U32>)
    requires PackedUpto(words, base, bytes, n) && n < |bytes|
    requires words' == words[base + n / 4 := OrIn(words[base + n / 4], bytes[n], n % 4)]
    ensures PackedUpto(words', base, bytes, n + 1)
  {
    hide Lane, OrIn, Unsigned;
    var word := words[base + n / 4];
    forall i | 0 <= i < |bytes| ensures Lane(words'[base + i / 4], i % 4) == if i < n + 1 then Unsigned(bytes[i])
        else 0 {
      PackedAt(words, base, bytes, n, n);
      PackedAt(words, base, bytes, n, i);
      OrLane(word, bytes[n], n % 4, i % 4);
      if i / 4 == n / 4 {
        assert words'[base + i / 4] == OrIn(word, bytes[n], n % 4);
        assert i % 4 == n % 4 ==> i == n;
      } else {
        assert words'[base + i / 4] == words[base + i / 4] && i != n;
      }
    }
  }

  /** `pack_i8_row_to_u32` on one row's words. */
  method PackRow(bytes: seq<I8>, output: array<U32>, base: nat)
    requires base + (|bytes| + 3) / 4 <= output.Length
    modifies output
    ensures Packed(output[..], base, bytes)
    ensures forall w | 0 <= w < output.Length && !(base <= w < base + (|bytes| + 3) / 4) :: output[w] == old(output[w])
  {
    hide Lane, OrIn, Unsigned;
    var end := base + (|bytes| + 3) / 4;
    for w := base to end
      invariant forall k | base <= k < w :: output[k] == U32(0)
      invariant forall k | 0 <= k < output.Length && !(base <= k < w) :: output[k] == old(output[k])
    {
      output[w] := U32(0);
    }
    forall i | 0 <= i < |bytes| ensures Lane(output[..][base + i / 4], i % 4) == 0 {
      ZeroWord(i % 4);
    }
    for n := 0 to |bytes|
      invariant PackedUpto(output[..], base, bytes, n)
      invariant forall k | 0 <= k < output.Length && !(base <= k < end) :: output[k] == old(output[k])
    {
      ghost var before := output[..];
      output[base + n / 4] := OrIn(output[base + n / 4], bytes[n], n % 4);
      PackNext(before, base, bytes, n, output[..]);
    }
  }

  /** Four bytes read as one little-endian word. */
  function Word(bytes: seq<I8>, at: nat): U32
    requires at + 4 <= |bytes|
  {
    OrIn(OrIn(OrIn(OrIn(U32(0), bytes[at], 0), bytes[at + 1], 1), bytes[at + 2], 2), bytes[at + 3], 3)
  }

  /** `bytemuck::cast_slice` from bytes to words. */
  function Cast(bytes: seq<I8>): seq<U32>
    requires |bytes| % 4 == 0
  {
    seq(|bytes| / 4, w requires 0 <= w < |bytes| / 4 => Word(bytes, 4 * w))
  }

  lemma WordLane(bytes: seq<I8>, at: nat, lane: nat)
    requires at + 4 <= |bytes| && lane < 4
    ensures Lane(Word(bytes, at), lane) == Unsigned(bytes[at + lane])
  {
    hide Lane, OrIn, Unsigned;
    var w0 := OrIn(U32(0), bytes[at], 0);
    var w1 := OrIn(w0, bytes[at + 1], 1);
    var w2 := OrIn(w1, bytes[at + 2], 2);
    forall l | 0 <= l < 4 ensures Lane(U32(0), l) == 0 { ZeroWord(l); }
    forall l | 0 <= l < 4 ensures Lane(w0, l) == if l == 0 then Unsigned(bytes[at])
        else 0 { OrLane(U32(0), bytes[at], 0, l); }
    forall l | 0 <= l < 4 ensures Lane(w1, l) == if l == 1 then Unsigned(bytes[at + 1])
        else Lane(w0, l) { OrLane(w0, bytes[at + 1], 1, l); }
    forall l | 0 <= l < 4 ensures Lane(w2, l) == if l == 2 then Unsigned(bytes[at + 2])
        else Lane(w1, l) { OrLane(w1, bytes[at + 2], 2, l); }
    OrLane(w2, bytes[at + 3], 3, lane);
  }

  /** Reading bytes as words packs every row whose bytes begin at a word. */
  lemma CastPacks(bytes: seq<I8>, start: nat, n: nat)
    requires |bytes| % 4 == 0 && n % 4 == 0 && 4 * start + n <= |bytes|
    ensures Packed(Cast(bytes), start, bytes[4 * start..4 * start + n])
  {
    hide Lane, Word, Unsigned;
    var row := bytes[4 * start..4 * start + n];
    forall i | 0 <= i < n ensures Lane(Cast(bytes)[start + i / 4], i % 4) == Unsigned(row[i]) {
      WordLane(bytes, 4 * (start + i / 4), i % 4);
    }
  }

  /** Unpacking a packed word gives the signed byte back. */
  lemma UnpackPacked(words: seq<U32>, base: nat, bytes: seq<I8>, i: nat)
    requires Packed(words, base, bytes) && i < |bytes|
    ensures UnpackI8(words[base + i / 4], i % 4) == bytes[i]
  {
    hide Lane;
  }
}
