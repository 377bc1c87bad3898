/**
 Base 128 varints: the length formula `sovEvent`, the writer `encodeVarintEvent` and the shift loop
 that `Unmarshal` and `skipEvent` repeat for every tag, value and length.
 */
module Varint {
  import opened Arithmetic
  import opened Bytes

  const MAX_VARINT: nat := 10

  // ---------------------------------------------------------------- the format

  /** The little-endian base 128 number in the low seven bits of each byte. */
  function Digits(s: bytes): nat {
    if s == [] then 0 else s[0] % 128 + 128 * Digits(s[1..])
  }

  /** One complete varint: at most ten bytes, the top bit set on all but the last. */
  predicate IsVarint(s: bytes) {
    && 1 <= |s| <= MAX_VARINT
    && (forall k :: 0 <= k < |s| - 1 ==> s[k] >= 128)
    && s[|s| - 1] < 128
  }

  /** The 64-bit word a varint stands for; bits past the 64th are lost. */
  function Value(s: bytes): uint64 {
    Digits(s) % TWO_64
  }

  /** Where the varint at `i` ends, `k` of its bytes having been read. */
  function Scan(s: bytes, i: nat, k: nat): (r: Result<nat>)
    requires k <= MAX_VARINT
    ensures r.Ok? ==> i + k < r.value <= |s| && r.value <= i + MAX_VARINT
    decreases MAX_VARINT - k
  {
    if k == MAX_VARINT then Err(IntOverflow)
    else if i + k >= |s| then Err(UnexpectedEOF)
    else if s[i + k] < 128 then Ok(i + k + 1)
    else Scan(s, i, k + 1)
  }

  /** The varint that starts at `i`: its word and the index after it. */
  function Read(s: bytes, i: nat): (r: Result<(uint64, nat)>)
    ensures r.Ok? ==> i < r.value.1 <= |s|
  {
    match Scan(s, i, 0)
    case Err(e) => Err(e)
    case Ok(j) => Ok((Value(s[i..j]), j))
  }

  lemma {:induction false} ScanSound(s: bytes, i: nat, k: nat)
    requires k <= MAX_VARINT && i + k <= |s|
    requires forall n :: i <= n < i + k ==> s[n] >= 128
    ensures Scan(s, i, k).Ok? ==> IsVarint(s[i..Scan(s, i, k).value])
    decreases MAX_VARINT - k
  {
    if k < MAX_VARINT && i + k < |s| && s[i + k] >= 128 {
      ScanSound(s, i, k + 1);
    }
  }

  lemma {:induction false} ScanComplete(s: bytes, i: nat, n: nat, k: nat)
    requires i + n <= |s| && IsVarint(s[i..i + n]) && k < n
    ensures Scan(s, i, k) == Ok(i + n)
    decreases n - k
  {
    assert s[i + k] == s[i..i + n][k];
    if k < n - 1 {
      ScanComplete(s, i, n, k + 1);
    }
  }

  /** Whatever `Read` accepts is exactly one varint. */
  lemma ReadSound(s: bytes, i: nat)
    requires i <= |s| && Read(s, i).Ok?
    ensures IsVarint(s[i..Read(s, i).value.1])
    ensures Read(s, i).value.0 == Value(s[i..Read(s, i).value.1])
  {
    ScanSound(s, i, 0);
  }

  /** A varint in the input is read as itself, whatever surrounds it. */
  lemma ReadComplete(s: bytes, i: nat, v: bytes)
    requires IsVarint(v) && i + |v| <= |s| && s[i..i + |v|] == v
    ensures Read(s, i) == Ok((Value(v), i + |v|))
  {
    ScanComplete(s, i, |v|, 0);
  }

  // ---------------------------------------------------------------- the writer

  /** `encodeVarintEvent` as a value. */
  function Encode(v: nat): (s: bytes)
    ensures s != []
  {
    if v < 128 then [v] else [v % 128 + 128] + Encode(v / 128)
  }

  /** `bits.Len64`. */
  function BitLen(x: nat): nat {
    if x == 0 then 0 else 1 + BitLen(x / 2)
  }

  /** `sovEvent`: the number of bytes a word takes on the wire. */
  function Sov(x: nat): nat {
    (BitLen(Or(x, 1)) + 6) / 7
  }

  lemma OrOne(x: nat)
    ensures Or(x, 1) == if x % 2 == 0 then x + 1 else x
  {
    if x != 0 {
      assert Or(x / 2, 0) == x / 2;
    }
  }

  lemma BitLenSeven(x: nat)
    requires x >= 128
    ensures BitLen(x) == 7 + BitLen(x / 128)
  {
    var a, b := x / 2, x / 4;
    var c, d, e, f := x / 8, x / 16, x / 32, x / 64;
    assert BitLen(x) == 1 + BitLen(a) && a / 2 == b;
    assert BitLen(a) == 1 + BitLen(b) && b / 2 == c;
    assert BitLen(b) == 1 + BitLen(c) && c / 2 == d;
    assert BitLen(c) == 1 + BitLen(d) && d / 2 == e;
    assert BitLen(d) == 1 + BitLen(e) && e / 2 == f;
    assert BitLen(e) == 1 + BitLen(f) && f / 2 == x / 128;
  }

  lemma BitLenSmall(x: nat)
    requires 0 < x < 128
    ensures 1 <= BitLen(x) <= 7
  {
    var a, b := x / 2, x / 4;
    var c, d, e, f := x / 8, x / 16, x / 32, x / 64;
    assert a / 2 == b && b / 2 == c && c / 2 == d && d / 2 == e && e / 2 == f && f / 2 == 0;
    assert BitLen(f) <= 1;
    assert BitLen(e) <= 2;
    assert BitLen(d) <= 3;
    assert BitLen(c) <= 4;
    assert BitLen(b) <= 5;
    assert BitLen(a) <= 6;
  }

  /** The closed bit-length formula counts exactly the bytes the writer emits. */
  lemma {:induction false} SovIsLength(v: nat)
    ensures |Encode(v)| == Sov(v)
  {
    OrOne(v);
    if v < 128 {
      BitLenSmall(Or(v, 1));
    } else {
      SovIsLength(v / 128);
      BitLenSeven(Or(v, 1));
      OrOne(v / 128);
      assert Or(v, 1) / 128 == v / 128;
      BitLenOr(v / 128);
    }
  }

  /** Setting the lowest bit of a non-zero word does not lengthen it. */
  lemma BitLenOr(x: nat)
    requires x > 0
    ensures BitLen(Or(x, 1)) == BitLen(x)
  {
    OrOne(x);
    assert Or(x, 1) / 2 == x / 2;
  }

  lemma {:induction false} EncodeDigits(v: nat)
    ensures Digits(Encode(v)) == v
  {
    if v >= 128 {
      EncodeDigits(v / 128);
      assert Encode(v)[1..] == Encode(v / 128);
    }
  }

  lemma {:induction false} EncodeShape(v: nat)
    ensures forall k :: 0 <= k < |Encode(v)| - 1 ==> Encode(v)[k] >= 128
    ensures Encode(v)[|Encode(v)| - 1] < 128
  {
    if v >= 128 {
      EncodeShape(v / 128);
    }
  }

  lemma {:induction false} EncodeLength(v: nat, n: nat)
    requires n > 0 && v < Pow2(7 * n)
    ensures |Encode(v)| <= n
  {
    if v >= 128 {
      Pow2Times128(n - 1);
      assert n > 1;
      EncodeLength(v / 128, n - 1);
    }
  }

  /** Every 64-bit word is written as one varint that stands for that word. */
  lemma EncodeIsVarint(v: uint64)
    ensures IsVarint(Encode(v)) && Value(Encode(v)) == v
  {
    EncodeShape(v);
    EncodeDigits(v);
    assert v < Pow2(7 * MAX_VARINT) by {
      Pow2Values();
      Pow2Adds(64, 6);
    }
    EncodeLength(v, MAX_VARINT);
  }

  /** Round trip: the writer's bytes, anywhere in an input, are read back and all consumed. */
  lemma RoundTrip(s: bytes, i: nat, v: uint64)
    requires i + |Encode(v)| <= |s| && s[i..i + |Encode(v)|] == Encode(v)
    ensures Read(s, i) == Ok((v, i + Sov(v)))
  {
    EncodeIsVarint(v);
    SovIsLength(v);
    ReadComplete(s, i, Encode(v));
  }

  lemma {:induction false} DigitsBound(s: bytes)
    ensures Digits(s) < Pow2(7 * |s|)
  {
    if s != [] {
      DigitsBound(s[1..]);
      Pow2Times128(|s| - 1);
    }
  }

  /** No encoding that is read back as a word is shorter than the one written for it. */
  lemma Minimal(s: bytes, i: nat)
    requires i <= |s| && Read(s, i).Ok?
    ensures Sov(Read(s, i).value.0) <= Read(s, i).value.1 - i
  {
    var (v, j) := Read(s, i).value;
    DigitsBound(s[i..j]);
    EncodeLength(v, j - i);
    SovIsLength(v);
  }

  // ---------------------------------------------------------------- the loops

  lemma {:induction false} DigitsAppend(s: bytes, b: byte)
    ensures Digits(s + [b]) == Digits(s) + ShiftLeft(b % 128, 7 * |s|)
  {
    if s == [] {
      assert s + [b] == [b] && [b][1..] == [];
    } else {
      var t := s[1..];
      DigitsAppend(t, b);
      assert (s + [b])[1..] == t + [b];
      ShiftIsProduct(b % 128, 7 * |t|);
      ShiftIsProduct(b % 128, 7 * |s|);
      Pow2Times128(|t|);
      MulThrough(b % 128, Pow2(7 * |t|));
    }
  }

  lemma MulThrough(d: nat, p: nat)
    ensures 128 * (d * p) == d * (128 * p)
  {}

  /** What the first `k` bytes from `i` add up to. */
  function Partial(s: bytes, i: nat, k: nat): nat
    requires i + k <= |s|
  {
    if k == 0 then 0 else Partial(s, i, k - 1) + ShiftLeft(s[i + k - 1] % 128, 7 * (k - 1))
  }

  lemma {:induction false} PartialIsDigits(s: bytes, i: nat, k: nat)
    requires i + k <= |s|
    ensures Partial(s, i, k) == Digits(s[i..i + k])
  {
    if k == 0 {
      assert s[i..i + k] == [];
    } else {
      PartialIsDigits(s, i, k - 1);
      DigitsAppend(s[i..i + k - 1], s[i + k - 1]);
      assert s[i..i + k - 1] + [s[i + k - 1]] == s[i..i + k];
    }
  }

  /** One turn of the shift loop. */
  lemma Accumulate(s: bytes, i: nat, k: nat, bits: nat)
    requires i + k < |s|
    ensures Or(Truncate(Partial(s, i, k), bits), Truncate(ShiftLeft(s[i + k] % 128, 7 * k), bits))
         == Truncate(Partial(s, i, k + 1), bits)
  {
    PartialIsDigits(s, i, k);
    DigitsBound(s[i..i + k]);
    OrWord(Partial(s, i, k), s[i + k] % 128, 7 * k, bits);
  }

  lemma OrWord(acc: nat, d: nat, shift: nat, bits: nat)
    requires acc < Pow2(shift)
    ensures Or(Truncate(acc, bits), Truncate(ShiftLeft(d, shift), bits)) == Truncate(acc + ShiftLeft(d, shift), bits)
  {
    var t := ShiftLeft(d, shift);
    ShiftIsProduct(d, shift);
    TruncateIsMod(acc, bits);
    TruncateIsMod(t, bits);
    TruncateIsMod(acc + t, bits);
    if shift < bits {
      var q := Pow2(bits - shift);
      Pow2Adds(bits - shift, shift);
      OrIsSum(acc, d % q, shift);
      TruncateBelow(acc, d, Pow2(shift), q, Pow2(bits));
    } else {
      Pow2Adds(shift - bits, bits);
      TruncateAbove(acc, d, Pow2(shift - bits), Pow2(bits));
    }
  }

  lemma TruncateBelow(acc: nat, d: nat, p: nat, q: nat, w: nat)
    requires p > 0 && q > 0 && w == q * p && w > 0 && acc < p
    ensures acc % w == acc && (d * p) % w == (d % q) * p && (acc + d * p) % w == acc + (d % q) * p
  {
    AtLeast(q, p);
    ModUnique(acc, 0, w, acc);
    ModOfProduct(d, p, q);
    var t := d % q;
    Below(t, q, p);
    ModUnique(t * p + acc, 0, w, t * p + acc);
    ModAdds(d * p, acc, w);
  }

  lemma TruncateAbove(acc: nat, d: nat, p: nat, w: nat)
    requires w > 0
    ensures (d * (p * w)) % w == 0 && (acc + d * (p * w)) % w == acc % w
  {
    assert d * (p * w) == (d * p) * w;
    ModUnique(d * (p * w), d * p, w, 0);
    ModUnique(acc + d * (p * w), d * p + acc / w, w, acc % w) by {
      Distribute(d * p, -(acc / w), w);
    }
  }

  lemma PartialZero(s: bytes, i: nat, bits: nat)
    requires i <= |s|
    ensures Truncate(Partial(s, i, 0), bits) == 0
  {
    TruncateZero(bits);
  }

  /** `acc |= T(b&0x7F) << shift`, for an accumulator type `T` of `bits` bits. */
  method OrByte(acc: nat, b: byte, shift: nat, bits: nat, ghost s: bytes, ghost i: nat, ghost k: nat)
    returns (next: nat)
    requires i + k < |s| && b == s[i + k] && shift == 7 * k
    requires acc == Truncate(Partial(s, i, k), bits)
    ensures next == Truncate(Partial(s, i, k + 1), bits)
  {
    next := Or(acc, Truncate(ShiftLeft(b % 128, shift), bits));
    Accumulate(s, i, k, bits);
  }

  /** The first `k` bytes from `i` all ask for another one. */
  predicate Open(s: bytes, i: nat, k: nat) {
    i + k <= |s| && forall n :: i <= n < i + k ==> s[n] >= 128
  }

  lemma {:induction false} ScanOpen(s: bytes, i: nat, j: nat, k: nat)
    requires j <= k <= MAX_VARINT && Open(s, i, k)
    ensures Scan(s, i, j) == Scan(s, i, k)
    decreases k - j
  {
    if j < k {
      ScanOpen(s, i, j + 1, k);
    }
  }

  lemma ReadIs(s: bytes, i: nat, k: nat, bits: nat)
    requires k < MAX_VARINT && Open(s, i, k) && i + k < |s| && s[i + k] < 128 && bits <= 64
    ensures Read(s, i).Ok? && Read(s, i).value.1 == i + k + 1
    ensures Truncate(Read(s, i).value.0, bits) == Truncate(Partial(s, i, k + 1), bits)
  {
    ScanOpen(s, i, 0, k);
    var d := Digits(s[i..i + k + 1]);
    PartialIsDigits(s, i, k + 1);
    TruncateTwice(d, 64, bits);
    TruncateWidths(d);
  }

  lemma ReadFails(s: bytes, i: nat, k: nat)
    requires k <= MAX_VARINT && Open(s, i, k) && (k == MAX_VARINT || i + k == |s|)
    ensures Read(s, i) == Err(if k == MAX_VARINT then IntOverflow else UnexpectedEOF)
  {
    ScanOpen(s, i, 0, k);
  }

  /**
   The shift loop, for an accumulator of 32 bits (`uint32`, `EventStatus`) or 64 bits (`uint64`, `int`):
   it reads exactly the varint at `start`, truncated to the accumulator.
   */
  method ReadVarint(dAtA: bytes, start: nat, bits: nat) returns (r: Result<(nat, nat)>)
    requires start <= |dAtA| && (bits == 32 || bits == 64)
    ensures Read(dAtA, start).Err? ==> r == Err(Read(dAtA, start).error)
    ensures Read(dAtA, start).Ok? ==>
              r == Ok((Truncate(Read(dAtA, start).value.0, bits), Read(dAtA, start).value.1))
  {
    hide Truncate, Partial, Read;
    PartialZero(dAtA, start, bits);
    var l := |dAtA|;
    var iNdEx, acc, shift := start, 0, 0;
    ghost var k: nat := 0;
    while true
      invariant k <= MAX_VARINT && shift == 7 * k && iNdEx == start + k <= l
      invariant acc == Truncate(Partial(dAtA, start, k), bits)
      invariant Open(dAtA, start, k)
      decreases MAX_VARINT - k
    {
      if shift >= 64 {
        ReadFails(dAtA, start, k);
        return Err(IntOverflow);
      }
      if iNdEx >= l {
        ReadFails(dAtA, start, k);
        return Err(UnexpectedEOF);
      }
      var b := dAtA[iNdEx];
      iNdEx := iNdEx + 1;
      acc := OrByte(acc, b, shift, bits, dAtA, start, k);
      if b < 128 {
        ReadIs(dAtA, start, k, bits);
        return Ok((acc, iNdEx));
      }
      shift := shift + 7;
      k := k + 1;
    }
  }

  /**
   `encodeVarintEvent`: makes room below `offset`, then writes the varint upwards. The bytes on
   either side of it stay as they were.
   */
  method EncodeVarint(dAtA: array<byte>, offset: nat, v: uint64) returns (base: nat)
    requires Sov(v) <= offset <= dAtA.Length
    modifies dAtA
    ensures base == offset - Sov(v)
    ensures dAtA[base..offset] == Encode(v)
    ensures dAtA[..base] == old(dAtA[..base]) && dAtA[offset..] == old(dAtA[offset..])
  {
    SovIsLength(v);
    base := offset - Sov(v);
    var at: nat, w: nat := base, v;
    ghost var done: bytes := [];
    while w >= 128
      invariant base <= at && at + |Encode(w)| == offset
      invariant done == dAtA[base..at] && done + Encode(w) == Encode(v)
      invariant forall k :: (0 <= k < base || offset <= k < dAtA.Length) ==> dAtA[k] == old(dAtA[k])
    {
      dAtA[at] := w % 128 + 128;
      assert done + Encode(w) == (done + [w % 128 + 128]) + Encode(w / 128);
      done := done + [w % 128 + 128];
      w := w / 128;
      at := at + 1;
    }
    dAtA[at] := w;
    assert dAtA[base..offset] == done + [w];
  }
}
