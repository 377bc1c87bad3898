/**
 The pieces that the generated methods repeat inline: writing one field in front of what a buffer already
 holds, and reading one length-delimited payload.
 */
module Buffer {
  import opened Bytes
  import opened Encoding
  import Message
  import Records
  import Varint

  /** `copy(dAtA[i:], b)`, for a `b` that fits. */
  method Copy(dAtA: array<byte>, i: nat, b: bytes)
    requires i + |b| <= dAtA.Length
    modifies dAtA
    ensures dAtA[i..i + |b|] == b
    ensures forall k :: (0 <= k < i || i + |b| <= k < dAtA.Length) ==> dAtA[k] == old(dAtA[k])
  {
    for k := 0 to |b|
      invariant dAtA[i..i + k] == b[..k]
      invariant forall n :: (0 <= n < i || i + |b| <= n < dAtA.Length) ==> dAtA[n] == old(dAtA[n])
    {
      dAtA[i + k] := b[k];
    }
  }

  /** The buffer holds `text` from index `i` to its end, and what it held `before` in front of that. */
  predicate Holds(dAtA: array<byte>, i: nat, text: bytes, before: bytes)
    reads dAtA
  {
    && i + |text| == dAtA.Length == |before|
    && dAtA[i..] == text
    && dAtA[..i] == before[..i]
  }

  /** Bytes written as they are. */
  method PutRaw(dAtA: array<byte>, end: nat, b: bytes, ghost rest: bytes, ghost before: bytes) returns (i: nat)
    requires Holds(dAtA, end, rest, before) && |b| <= end
    modifies dAtA
    ensures Holds(dAtA, i, b + rest, before)
  {
    i := end - |b|;
    Copy(dAtA, i, b);
    assert dAtA[i..] == dAtA[i..end] + dAtA[end..];
    assert dAtA[end..] == rest;
  }

  /** One varint. */
  method PutVarint(dAtA: array<byte>, end: nat, v: uint64, ghost rest: bytes, ghost before: bytes) returns (i: nat)
    requires Holds(dAtA, end, rest, before) && |Varint.Encode(v)| <= end
    modifies dAtA
    ensures Holds(dAtA, i, Varint.Encode(v) + rest, before)
  {
    hide Varint.Encode, Varint.Sov;
    Varint.SovIsLength(v);
    i := Varint.EncodeVarint(dAtA, end, v);
    assert dAtA[i..] == dAtA[i..end] + dAtA[end..];
    assert old(dAtA[..i]) == before[..end][..i];
  }

  /** One tag byte. */
  method PutTag(dAtA: array<byte>, end: nat, tag: byte, ghost rest: bytes, ghost before: bytes) returns (i: nat)
    requires Holds(dAtA, end, rest, before) && end > 0
    modifies dAtA
    ensures Holds(dAtA, i, [tag] + rest, before)
  {
    i := end - 1;
    dAtA[i] := tag;
    assert before[..i] == before[..end][..i];
  }

  lemma Gather(a: bytes, b: bytes, c: bytes, rest: bytes)
    ensures a + (b + rest) == (a + b) + rest
    ensures a + (b + (c + rest)) == (a + (b + c)) + rest
  {}

  /** A varint field, unless it is zero. */
  method PutNumber(dAtA: array<byte>, end: nat, num: nat, v: uint64, ghost rest: bytes, ghost before: bytes)
    returns (i: nat)
    requires num < 16 && Holds(dAtA, end, rest, before) && |NumberField(num, v)| <= end
    modifies dAtA
    ensures Holds(dAtA, i, NumberField(num, v) + rest, before)
  {
    hide Varint.Encode, Holds;
    i := end;
    if v != 0 {
      Fits(dAtA, i, rest, before);
      i := PutVarint(dAtA, i, v, rest, before);
      Fits(dAtA, i, Varint.Encode(v) + rest, before);
      i := PutTag(dAtA, i, 8 * num, Varint.Encode(v) + rest, before);
      Gather([8 * num], Varint.Encode(v), [], rest);
    } else {
      assert [] + rest == rest;
    }
  }

  lemma Fits(dAtA: array<byte>, i: nat, text: bytes, before: bytes)
    requires Holds(dAtA, i, text, before)
    ensures i + |text| == dAtA.Length == |before|
  {}

  lemma Unpack(dAtA: array<byte>, i: nat, text: bytes, before: bytes)
    requires Holds(dAtA, i, text, before)
    ensures i <= dAtA.Length == |before| && dAtA[i..] == text && dAtA[..i] == before[..i]
    ensures dAtA.Length - i == |text|
  {}

  /** A length-delimited field. */
  method PutBlob(dAtA: array<byte>, end: nat, num: nat, b: bytes, ghost rest: bytes, ghost before: bytes)
    returns (i: nat)
    requires num < 16 && Holds(dAtA, end, rest, before) && |Blob(num, b)| <= end && |b| < TWO_64
    modifies dAtA
    ensures Holds(dAtA, i, Blob(num, b) + rest, before)
  {
    hide Varint.Encode, Holds;
    Fits(dAtA, end, rest, before);
    i := PutRaw(dAtA, end, b, rest, before);
    Fits(dAtA, i, b + rest, before);
    i := PutVarint(dAtA, i, |b|, b + rest, before);
    Fits(dAtA, i, Varint.Encode(|b|) + (b + rest), before);
    i := PutTag(dAtA, i, 8 * num + 2, Varint.Encode(|b|) + (b + rest), before);
    Gather([8 * num + 2], Varint.Encode(|b|), b, rest);
  }

  /** A string field, unless it is empty. */
  method PutBytes(dAtA: array<byte>, end: nat, num: nat, b: bytes, ghost rest: bytes, ghost before: bytes)
    returns (i: nat)
    requires num < 16 && Holds(dAtA, end, rest, before) && |BytesField(num, b)| <= end && |b| < TWO_64
    modifies dAtA
    ensures Holds(dAtA, i, BytesField(num, b) + rest, before)
  {
    hide Holds, Blob;
    i := end;
    if |b| > 0 {
      i := PutBlob(dAtA, end, num, b, rest, before);
    } else {
      assert [] + rest == rest;
    }
  }

  /** The timestamp field, if there is a timestamp. */
  method PutTime(dAtA: array<byte>, end: nat, time: Option<bytes>, ghost rest: bytes, ghost before: bytes)
    returns (i: nat)
    requires Holds(dAtA, end, rest, before) && |TimeField(time)| <= end && (time.Some? ==> |time.value| < TWO_64)
    modifies dAtA
    ensures Holds(dAtA, i, TimeField(time) + rest, before)
  {
    hide Holds, Blob;
    i := end;
    if time.Some? {
      i := PutBlob(dAtA, end, 7, time.value, rest, before);
    } else {
      assert [] + rest == rest;
    }
  }

  /** The end of either message: fields 5 to 7 and the unrecognized bytes, from the last to the first. */
  method PutTrailer(dAtA: array<byte>, m: Message.Msg) returns (i: nat)
    requires |NumberField(5, m.retry)| + |NumberField(6, SignExtend(m.status))| + |TimeField(m.updatedAt)|
             + |m.unrecognized| <= dAtA.Length
    requires m.updatedAt.Some? ==> |m.updatedAt.value| < TWO_64
    modifies dAtA
    ensures Holds(dAtA, i, Trailer(m), old(dAtA[..]))
  {
    hide Holds, NumberField, TimeField, SignExtend;
    ghost var before := dAtA[..];
    Start(dAtA);
    i := PutRaw(dAtA, dAtA.Length, m.unrecognized, [], before);
    assert m.unrecognized + [] == m.unrecognized;
    Fits(dAtA, i, m.unrecognized, before);
    i := PutTime(dAtA, i, m.updatedAt, m.unrecognized, before);
    ghost var t := TimeField(m.updatedAt) + m.unrecognized;
    Fits(dAtA, i, t, before);
    i := PutNumber(dAtA, i, 6, SignExtend(m.status), t, before);
    Fits(dAtA, i, NumberField(6, SignExtend(m.status)) + t, before);
    i := PutNumber(dAtA, i, 5, m.retry, NumberField(6, SignExtend(m.status)) + t, before);
  }

  function Trailer(m: Message.Msg): bytes {
    NumberField(5, m.retry) + (NumberField(6, SignExtend(m.status)) + (TimeField(m.updatedAt) + m.unrecognized))
  }

  lemma Start(dAtA: array<byte>)
    ensures Holds(dAtA, dAtA.Length, [], dAtA[..])
  {
    assert dAtA[..dAtA.Length] == dAtA[..] == dAtA[..][..dAtA.Length];
  }

  /** The length test and the slice; the sum wraps round as Go's does. */
  method ReadBlob(dAtA: bytes, start: nat) returns (r: Result<(bytes, nat)>)
    requires start <= |dAtA| <= MAX_INT
    ensures r == Message.Blob(dAtA, start)
  {
    hide Varint.Read;
    var v := Records.ReadWord(dAtA, start);
    if v.Err? {
      return Err(v.error);
    }
    var length := AsInt64(v.value.0);
    if length < 0 {
      return Err(InvalidLength);
    }
    var iNdEx := v.value.1;
    var postIndex := AsInt64(iNdEx + length);
    if postIndex < 0 {
      return Err(InvalidLength);
    }
    if postIndex > |dAtA| {
      return Err(UnexpectedEOF);
    }
    return Ok((dAtA[iNdEx..postIndex], postIndex));
  }

  /** The bytes one varint field adds to a size. */
  method NumberSize(num: nat, v: uint64) returns (n: nat)
    requires num < 16
    ensures n == |NumberField(num, v)|
  {
    n := 0;
    if v != 0 {
      Varint.SovIsLength(v);
      n := 1 + Varint.Sov(v);
    }
  }

  /** The bytes one length-delimited field adds to a size. */
  method BlobSize(num: nat, l: nat, ghost b: bytes) returns (n: nat)
    requires num < 16 && l == |b|
    ensures n == |Blob(num, b)|
  {
    Varint.SovIsLength(l);
    n := 1 + l + Varint.Sov(l);
  }
}
