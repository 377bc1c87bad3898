/**
 The bytes `Marshal` produces, and the laws that tie them to `Unmarshal`: merging a stored record into a
 populated receiver, the round trip, and the normal form.
 */
module Encoding {
  import opened Bytes
  import opened Records
  import opened Message
  import Arithmetic
  import Varint

  // ---------------------------------------------------------------- the format

  /** A zero number is left out. */
  function NumberField(num: nat, v: uint64): bytes
    requires num < 16
  {
    if v == 0 then [] else [8 * num] + Varint.Encode(v)
  }

  /** An empty string is left out. */
  function BytesField(num: nat, b: bytes): bytes
    requires num < 16
  {
    if b == [] then [] else Blob(num, b)
  }

  function Blob(num: nat, b: bytes): bytes
    requires num < 16
  {
    [8 * num + 2] + (Varint.Encode(|b|) + b)
  }

  function BodyField(b: Body): bytes {
    match b
    case Amount(text) => BytesField(4, text)
    case TokenId(n) => NumberField(4, n)
  }

  /** A timestamp that is there is written, even an empty one. */
  function TimeField(t: Option<bytes>): bytes {
    match t
    case None => []
    case Some(b) => Blob(7, b)
  }

  /** The known fields in ascending order. */
  function KnownText(m: Msg): bytes {
    NumberField(1, m.id) + (BytesField(2, m.token) + (BytesField(3, m.sender) + (BodyField(m.body)
      + (NumberField(5, m.retry) + (NumberField(6, SignExtend(m.status)) + TimeField(m.updatedAt))))))
  }

  /** The known fields in ascending order, then the unrecognized bytes. */
  function Encode(m: Msg): bytes {
    KnownText(m) + m.unrecognized
  }

  /** A message of each kind, byte by byte. */
  lemma Spelled()
    ensures Encode(Msg(300, [116], [115], Amount([55]), 3, SUCCEEDED, Some([9]), [120, 1]))
         == [8, 172, 2] + ([18, 1, 116] + ([26, 1, 115] + ([34, 1, 55] + ([40, 3] + ([48, 2] + [58, 1, 9])))))
            + [120, 1]
    ensures Encode(Msg(300, [116], [115], TokenId(7), 3, FAILED, None, []))
         == [8, 172, 2] + ([18, 1, 116] + ([26, 1, 115] + ([32, 7] + ([40, 3] + ([48, 1] + []))))) + []
  {
    FieldsSpelled();
    hide NumberField, BytesField, SignExtend, Blob;
  }

  lemma FieldsSpelled()
    ensures NumberField(1, 300) == [8, 172, 2] && NumberField(4, 7) == [32, 7] && NumberField(5, 3) == [40, 3]
    ensures NumberField(6, SignExtend(SUCCEEDED)) == [48, 2] && NumberField(6, SignExtend(FAILED)) == [48, 1]
    ensures BytesField(2, [116]) == [18, 1, 116] && BytesField(3, [115]) == [26, 1, 115]
    ensures BytesField(4, [55]) == [34, 1, 55] && Blob(7, [9]) == [58, 1, 9]
  {
    OneByte();
    hide Varint.Encode, SignExtend;
  }

  lemma OneByte()
    ensures Varint.Encode(1) == [1] && Varint.Encode(2) == [2] && Varint.Encode(3) == [3] && Varint.Encode(7) == [7]
    ensures Varint.Encode(300) == [172, 2] && SignExtend(SUCCEEDED) == 2 && SignExtend(FAILED) == 1
  {
    assert Varint.Encode(300) == [172] + Varint.Encode(2);
  }

  // ---------------------------------------------------------------- reading it back

  /** The receiver `m0` with everything `m` has to say written over it. */
  function Overlay(m0: Msg, m: Msg): Msg {
    Msg(
      if m.id != 0 then m.id else m0.id,
      if m.token != [] then m.token else m0.token,
      if m.sender != [] then m.sender else m0.sender,
      if m.body == TokenId(0) || m.body == Amount([]) then m0.body else m.body,
      if m.retry != 0 then m.retry else m0.retry,
      if m.status != 0 then m.status else m0.status,
      if m.updatedAt.Some? then m.updatedAt else m0.updatedAt,
      m0.unrecognized + m.unrecognized)
  }

  /** Some records spell `t`, and folding them takes `m` to `n`. */
  ghost predicate Takes(t: bytes, m: Msg, n: Msg) {
    exists rs :: Spells(rs, t, m.body.TokenId?) && n == ApplyAll(rs, m)
  }

  lemma TakesAppend(a: bytes, b: bytes, m: Msg, n: Msg, o: Msg)
    requires Takes(a, m, n) && Takes(b, n, o)
    ensures Takes(a + b, m, o)
  {
    hide ApplyAll, AllText, AllWellFormed, AllLegal;
    var p :| Spells(p, a, m.body.TokenId?) && n == ApplyAll(p, m);
    var q :| Spells(q, b, n.body.TokenId?) && o == ApplyAll(q, n);
    AppendText(p, q);
    ApplyAppend(p, q, m);
    assert Spells(Append(p, q), a + b, m.body.TokenId?);
  }

  lemma TakesOne(r: Record, t: bytes, m: Msg)
    requires WellFormed(r) && Legal(r, m.body.TokenId?) && Text(r) == t
    ensures Takes(t, m, Apply(r, m))
  {
    hide Text, WellFormed, Legal, Apply;
    var rs := Cons(r, Nil);
    assert AllText(rs) == t + [] == t;
    assert ApplyAll(rs, m) == Apply(r, m);
    assert AllWellFormed(rs);
    assert AllLegal(rs, m.body.TokenId?);
    assert Spells(rs, t, m.body.TokenId?);
  }

  lemma TakesNothing(m: Msg)
    ensures Takes([], m, m)
  {
    var rs := Records.Nil;
    assert Spells(rs, [], m.body.TokenId?) && ApplyAll(rs, m) == m;
  }

  lemma TagIs(num: nat, wireType: nat)
    requires 0 < num < 16 && wireType < 8
    ensures Varint.IsVarint([8 * num + wireType])
    ensures WireType([8 * num + wireType]) == wireType
    ensures FieldNum(Varint.Value([8 * num + wireType])) == num
  {
    var t := [8 * num + wireType];
    assert t[1..] == [];
    assert Varint.Digits(t) == 8 * num + wireType;
  }

  lemma TakesNumber(num: nat, v: uint64, m: Msg)
    requires Known(num) && IsNumber(num, m.body.TokenId?)
    ensures Takes(NumberField(num, v), m, if v == 0 then m else SetNumber(m, num, v))
  {
    hide Varint.IsVarint, Varint.Value, Varint.Encode, FieldNum, Takes;
    if v == 0 {
      TakesNothing(m);
    } else {
      TagIs(num, 0);
      Varint.EncodeIsVarint(v);
      var r := Scalar([8 * num], Varint.Encode(v));
      TakesOne(r, NumberField(num, v), m);
    }
  }

  lemma TakesBlob(num: nat, b: bytes, m: Msg)
    requires Known(num) && !IsNumber(num, m.body.TokenId?) && |b| <= MAX_INT
    ensures Takes(Blob(num, b), m, SetBytes(m, num, b))
  {
    hide Varint.IsVarint, Varint.Value, Varint.Encode, FieldNum, Takes;
    TagIs(num, 2);
    Varint.EncodeIsVarint(|b|);
    var r := Delimited([8 * num + 2], Varint.Encode(|b|), b);
    TakesOne(r, Blob(num, b), m);
  }

  lemma TakesBytes(num: nat, b: bytes, m: Msg)
    requires Known(num) && !IsNumber(num, m.body.TokenId?) && |b| <= MAX_INT
    ensures Takes(BytesField(num, b), m, if b == [] then m else SetBytes(m, num, b))
  {
    hide Takes;
    if b == [] {
      TakesNothing(m);
    } else {
      TakesBlob(num, b, m);
    }
  }

  lemma TakesBody(b: Body, m: Msg)
    requires b.TokenId? == m.body.TokenId? && (b.Amount? ==> |b.text| <= MAX_INT)
    ensures Takes(BodyField(b), m, if b == TokenId(0) || b == Amount([]) then m else m.(body := b))
  {
    hide Takes;
    match b
    case Amount(text) => TakesBytes(4, text, m);
    case TokenId(n) => TakesNumber(4, n, m);
  }

  lemma TakesTime(t: Option<bytes>, m: Msg)
    requires t.Some? ==> |t.value| <= MAX_INT
    ensures Takes(TimeField(t), m, if t.None? then m else m.(updatedAt := t))
  {
    hide Takes;
    match t
    case None => TakesNothing(m);
    case Some(b) => TakesBlob(7, b, m);
  }

  /** A status survives the sign extension to 64 bits and the truncation to 32. */
  lemma StatusSurvives(n: int32)
    ensures AsInt32(SignExtend(n)) == n && (SignExtend(n) == 0 <==> n == 0)
  {}

  lemma PartsFit(m: Msg)
    requires |Encode(m)| <= MAX_INT
    ensures |m.token| <= MAX_INT && |m.sender| <= MAX_INT
    ensures (m.body.Amount? ==> |m.body.text| <= MAX_INT) && (m.updatedAt.Some? ==> |m.updatedAt.value| <= MAX_INT)
  {
    hide Varint.Encode;
  }

  /** Fields 5 to 7, written over `m4`. */
  function Tail(m: Msg, m4: Msg): Msg {
    m4.(retry := if m.retry != 0 then m.retry else m4.retry,
        status := if m.status != 0 then m.status else m4.status,
        updatedAt := if m.updatedAt.Some? then m.updatedAt else m4.updatedAt)
  }

  lemma TakesTail(m: Msg, m4: Msg)
    requires m.updatedAt.Some? ==> |m.updatedAt.value| <= MAX_INT
    ensures Takes(NumberField(5, m.retry) + (NumberField(6, SignExtend(m.status)) + TimeField(m.updatedAt)), m4,
                  Tail(m, m4))
  {
    StatusSurvives(m.status);
    hide Takes, NumberField, TimeField, AsInt32, SignExtend;
    var m5 := if m.retry == 0 then m4 else SetNumber(m4, 5, m.retry);
    var m6 := if m.status == 0 then m5 else SetNumber(m5, 6, SignExtend(m.status));
    TakesNumber(5, m.retry, m4);
    TakesNumber(6, SignExtend(m.status), m5);
    TakesTime(m.updatedAt, m6);
    TakesAppend(NumberField(6, SignExtend(m.status)), TimeField(m.updatedAt), m5, m6, Tail(m, m4));
    TakesAppend(NumberField(5, m.retry), NumberField(6, SignExtend(m.status)) + TimeField(m.updatedAt), m4, m5,
                Tail(m, m4));
  }

  /** Fields 1 to 4, written over `m0`. */
  function Front(m: Msg, m0: Msg): Msg {
    m0.(id := if m.id != 0 then m.id else m0.id,
        token := if m.token != [] then m.token else m0.token,
        sender := if m.sender != [] then m.sender else m0.sender,
        body := if m.body == TokenId(0) || m.body == Amount([]) then m0.body else m.body)
  }

  lemma TakesFront(m: Msg, m0: Msg, rest: bytes, n: Msg)
    requires SameKind(m0, m) && Takes(rest, Front(m, m0), n)
    requires |m.token| <= MAX_INT && |m.sender| <= MAX_INT && (m.body.Amount? ==> |m.body.text| <= MAX_INT)
    ensures Takes(
              NumberField(1, m.id) + (BytesField(2, m.token) + (BytesField(3, m.sender) + (BodyField(m.body) + rest))),
              m0, n)
  {
    hide Takes, NumberField, BytesField, BodyField;
    var m1 := if m.id == 0 then m0 else SetNumber(m0, 1, m.id);
    var m2 := if m.token == [] then m1 else SetBytes(m1, 2, m.token);
    var m3 := if m.sender == [] then m2 else SetBytes(m2, 3, m.sender);
    TakesBody(m.body, m3);
    TakesAppend(BodyField(m.body), rest, m3, Front(m, m0), n);
    var t3 := BodyField(m.body) + rest;
    TakesBytes(3, m.sender, m2);
    TakesAppend(BytesField(3, m.sender), t3, m2, m3, n);
    TakesBytes(2, m.token, m1);
    TakesAppend(BytesField(2, m.token), BytesField(3, m.sender) + t3, m1, m2, n);
    TakesNumber(1, m.id, m0);
    TakesAppend(NumberField(1, m.id), BytesField(2, m.token) + (BytesField(3, m.sender) + t3), m0, m1, n);
  }

  lemma TakesKnown(m: Msg, m0: Msg)
    requires SameKind(m0, m) && |Encode(m)| <= MAX_INT
    ensures Takes(KnownText(m), m0, Overlay(m0, m.(unrecognized := [])))
  {
    PartsFit(m);
    hide Takes, NumberField, BytesField, BodyField, TimeField, SignExtend, Encode;
    TakesTail(m, Front(m, m0));
    TakesFront(m, m0, NumberField(5, m.retry) + (NumberField(6, SignExtend(m.status)) + TimeField(m.updatedAt)),
               Tail(m, Front(m, m0)));
    assert m0.unrecognized + [] == m0.unrecognized;
  }

  /** Records with field numbers past the known ones, and so none that `Unmarshal` would take apart. */
  predicate AllUnknown(rs: Records) {
    rs.Cons? ==> Number(rs.head) > 7 && AllUnknown(rs.tail)
  }

  /** A sequence of complete unknown records. */
  ghost predicate UnknownOnly(t: bytes) {
    exists rs :: AllWellFormed(rs) && AllUnknown(rs) && AllText(rs) == t
  }

  lemma {:induction false} ApplyUnknown(rs: Records, m: Msg)
    requires AllUnknown(rs)
    ensures AllLegal(rs, m.body.TokenId?)
    ensures ApplyAll(rs, m) == m.(unrecognized := m.unrecognized + AllText(rs))
    decreases rs
  {
    hide Text, Number;
    match rs
    case Nil =>
    case Cons(r, rest) =>
      ApplyUnknown(rest, m.(unrecognized := m.unrecognized + Text(r)));
      assert m.unrecognized + Text(r) + AllText(rest) == m.unrecognized + (Text(r) + AllText(rest));
  }

  lemma TakesUnknown(t: bytes, m: Msg)
    requires UnknownOnly(t)
    ensures Takes(t, m, m.(unrecognized := m.unrecognized + t))
  {
    hide AllText, AllWellFormed, ApplyAll, AllLegal, AllUnknown;
    var rs :| AllWellFormed(rs) && AllUnknown(rs) && AllText(rs) == t;
    ApplyUnknown(rs, m);
    assert Spells(rs, t, m.body.TokenId?);
  }

  // ---------------------------------------------------------------- the laws

  /**
   Reading a written message into any receiver of its kind overlays it: what the writer left out for being
   zero keeps the receiver's value, and the unrecognized bytes go to the end of the receiver's.
   */
  lemma MergeRead(m: Msg, m0: Msg)
    requires SameKind(m0, m) && |Encode(m)| <= MAX_INT && UnknownOnly(m.unrecognized)
    ensures Unmarshal(Encode(m), m0) == Ok(Overlay(m0, m))
  {
    hide Takes, KnownText, UnknownOnly, Unmarshal;
    var k := Overlay(m0, m.(unrecognized := []));
    TakesKnown(m, m0);
    TakesUnknown(m.unrecognized, k);
    assert m0.unrecognized + [] + m.unrecognized == m0.unrecognized + m.unrecognized;
    TakesAppend(KnownText(m), m.unrecognized, m0, k, Overlay(m0, m));
    TakesIsUnmarshal(Encode(m), m0, Overlay(m0, m));
  }

  lemma TakesIsUnmarshal(t: bytes, m: Msg, n: Msg)
    requires |t| <= MAX_INT
    ensures Takes(t, m, n) <==> Unmarshal(t, m) == Ok(n)
  {
    UnmarshalIsFold(t, m, n);
  }

  /** The receivers that a record can be read back into and come out as itself: exactly these. */
  predicate Receives(m0: Msg, m: Msg) {
    && (m.id == 0 ==> m0.id == 0)
    && (m.token == [] ==> m0.token == [])
    && (m.sender == [] ==> m0.sender == [])
    && (m.body == TokenId(0) || m.body == Amount([]) ==> m0.body == m.body)
    && (m.retry == 0 ==> m0.retry == 0)
    && (m.status == 0 ==> m0.status == 0)
    && (m.updatedAt.None? ==> m0.updatedAt.None?)
    && m0.unrecognized == []
  }

  lemma MergeReadIsExact(m: Msg, m0: Msg)
    requires SameKind(m0, m) && |Encode(m)| <= MAX_INT && UnknownOnly(m.unrecognized)
    ensures Unmarshal(Encode(m), m0) == Ok(m) <==> Receives(m0, m)
  {
    hide Unmarshal, Encode, UnknownOnly;
    MergeRead(m, m0);
    if Overlay(m0, m) == m {
      assert |m0.unrecognized + m.unrecognized| == |m.unrecognized|;
    }
    if Receives(m0, m) {
      assert m0.unrecognized + m.unrecognized == m.unrecognized;
    }
  }

  // ---------------------------------------------------------------- the normal form

  lemma {:induction false} UnknownsAreUnknown(rs: Records, nft: bool)
    requires AllWellFormed(rs) && AllLegal(rs, nft)
    ensures AllWellFormed(Unknowns(rs)) && AllUnknown(Unknowns(rs))
  {
    hide WellFormed, Number;
    if rs.Cons? {
      UnknownsAreUnknown(rs.tail, nft);
    }
  }

  /** What `Unmarshal` collects as unrecognized is always a sequence of complete unknown records. */
  lemma UnknownOnlyKept(s: bytes, nft: bool, m: Msg)
    requires |s| <= MAX_INT && Unmarshal(s, Zero(nft)) == Ok(m)
    ensures UnknownOnly(m.unrecognized)
  {
    hide AllText, AllWellFormed, ApplyAll, AllLegal, AllUnknown, Unknowns, Step;
    var rs := ParseSound(s, 0, Zero(nft));
    UnknownsKept(rs, Zero(nft));
    UnknownsAreUnknown(rs, nft);
    assert m.unrecognized == AllText(Unknowns(rs));
  }

  /** Round trip through the zero message: exactly when the unrecognized bytes are complete unknown records. */
  lemma RoundTrip(m: Msg)
    requires |Encode(m)| <= MAX_INT
    ensures Unmarshal(Encode(m), Zero(m.body.TokenId?)) == Ok(m) <==> UnknownOnly(m.unrecognized)
  {
    hide Unmarshal, Encode, UnknownOnly;
    if UnknownOnly(m.unrecognized) {
      MergeReadIsExact(m, Zero(m.body.TokenId?));
    }
    if Unmarshal(Encode(m), Zero(m.body.TokenId?)) == Ok(m) {
      UnknownOnlyKept(Encode(m), m.body.TokenId?, m);
    }
  }

  /** The length of the encoding without the status field. */
  function Bulk(m: Msg): nat {
    |NumberField(1, m.id)| + |BytesField(2, m.token)| + |BytesField(3, m.sender)| + |BodyField(m.body)|
    + |NumberField(5, m.retry)| + |TimeField(m.updatedAt)| + |m.unrecognized|
  }

  /**
   A status with its top bit set is read from five bytes and written, sign-extended, as ten. This is the
   one place where a message can be written longer than it was read, and `Cost` allows for it.
   */
  function Cost(m: Msg): nat {
    var status := |NumberField(6, SignExtend(m.status))|;
    Bulk(m) + if status > 5 then status - 5 else 0
  }

  lemma ValueFits(s: bytes, v: nat)
    requires Varint.IsVarint(s) && v <= Varint.Value(s)
    ensures |Varint.Encode(v)| <= |s|
  {
    Varint.DigitsBound(s);
    Varint.EncodeLength(v, |s|);
  }

  lemma NumberFits(tag: bytes, s: bytes, num: nat, v: uint64)
    requires tag != [] && Varint.IsVarint(s) && v <= Varint.Value(s) && num < 16
    ensures |NumberField(num, v)| <= |tag| + |s|
  {
    hide Varint.Encode, Varint.IsVarint, Varint.Value;
    ValueFits(s, v);
  }

  lemma BytesFit(tag: bytes, length: bytes, b: bytes, num: nat)
    requires tag != [] && Varint.IsVarint(length) && |b| == Varint.Value(length) && num < 16
    ensures |BytesField(num, b)| <= |Blob(num, b)| <= |tag| + (|length| + |b|)
  {
    hide Varint.Encode, Varint.IsVarint, Varint.Value;
    ValueFits(length, |b|);
  }

  lemma StatusFits(tag: bytes, s: bytes)
    requires tag != [] && Varint.IsVarint(s)
    ensures |NumberField(6, SignExtend(AsInt32(Varint.Value(s))))| <= |tag| + |s| + 5
  {
    var v := Varint.Value(s);
    var status := AsInt32(v);
    if status >= 0 {
      NumberFits(tag, s, 6, SignExtend(status));
    } else {
      Varint.EncodeIsVarint(SignExtend(status));
      Varint.DigitsBound(s);
      LongValue(|s|, v);
    }
  }

  lemma LongValue(n: nat, v: nat)
    requires v < Arithmetic.Pow2(7 * n) && v >= TWO_31
    ensures n >= 5
  {
    if n < 5 {
      Arithmetic.Pow2Values();
      Arithmetic.Pow2Grows(7 * n, 31);
    }
  }

  lemma VarintNotEmpty(t: bytes)
    requires Varint.IsVarint(t)
    ensures t != []
  {}

  lemma ApplyCost(r: Record, m: Msg)
    requires WellFormed(r) && Legal(r, m.body.TokenId?)
    ensures Cost(Apply(r, m)) <= Cost(m) + |Text(r)|
  {
    hide Varint.IsVarint, Varint.Value, Varint.Encode, FieldNum, NumberField, BytesField, Blob, AsInt32, SignExtend;
    VarintNotEmpty(r.tag);
    var num := Number(r);
    if !Known(num) {
    } else if r.Scalar? {
      var v := Varint.Value(r.body);
      if num == 6 {
        StatusFits(r.tag, r.body);
      } else if num == 5 {
        NumberFits(r.tag, r.body, 5, v % TWO_32);
      } else {
        NumberFits(r.tag, r.body, num, v);
      }
    } else {
      BytesFit(r.tag, r.length, r.body, num);
    }
  }

  lemma {:induction false} ApplyAllCost(rs: Records, m: Msg)
    requires AllWellFormed(rs) && AllLegal(rs, m.body.TokenId?)
    ensures Cost(ApplyAll(rs, m)) <= Cost(m) + |AllText(rs)|
    decreases rs
  {
    hide Cost, Apply, Text, WellFormed, Legal;
    match rs
    case Nil =>
    case Cons(r, rest) =>
      ApplyCost(r, m);
      ApplyAllCost(rest, Apply(r, m));
  }

  lemma EncodeCost(m: Msg)
    ensures |Encode(m)| <= Cost(m) + 5
    ensures Cost(Zero(m.body.TokenId?)) == 0
  {
    hide NumberField, BytesField, TimeField, BodyField;
    assert NumberField(1, 0) == NumberField(5, 0) == NumberField(6, 0) == [] by { ZeroFields(); }
    assert BytesField(2, []) == BytesField(3, []) == TimeField(None) == [] by { ZeroFields(); }
    assert BodyField(TokenId(0)) == BodyField(Amount([])) == [] by { ZeroFields(); }
  }

  lemma ZeroFields()
    ensures NumberField(1, 0) == NumberField(5, 0) == NumberField(6, 0) == []
    ensures BytesField(2, []) == BytesField(3, []) == TimeField(None) == []
    ensures BodyField(TokenId(0)) == BodyField(Amount([])) == []
  {}

  /** Writing what was read takes at most five bytes more than the input did. */
  lemma Growth(s: bytes, nft: bool, m: Msg)
    requires |s| <= MAX_INT && Unmarshal(s, Zero(nft)) == Ok(m)
    ensures |Encode(m)| <= |s| + 5
  {
    hide AllText, AllWellFormed, AllLegal, Step, Encode, Cost;
    var rs := ParseSound(s, 0, Zero(nft));
    ApplyAllCost(rs, Zero(nft));
    EncodeCost(m);
  }

  /**
   Normal form: whatever `Unmarshal` accepts into a zero message, writing the result and reading that
   back gives the same message.
   */
  lemma NormalForm(s: bytes, nft: bool, m: Msg)
    requires |s| <= MAX_INT - 5 && Unmarshal(s, Zero(nft)) == Ok(m)
    ensures Unmarshal(Encode(m), Zero(nft)) == Ok(m)
  {
    hide Unmarshal, Encode, UnknownOnly;
    Growth(s, nft, m);
    UnknownOnlyKept(s, nft, m);
    KindKept(s, Zero(nft), m);
    RoundTrip(m);
  }

  lemma KindKept(s: bytes, m: Msg, n: Msg)
    requires |s| <= MAX_INT && Unmarshal(s, m) == Ok(n)
    ensures SameKind(m, n)
  {
    hide Step, AllText, AllWellFormed, AllLegal;
    var rs := ParseSound(s, 0, m);
  }

  lemma SignBit()
    ensures Varint.IsVarint([0x80, 0x80, 0x80, 0x80, 0x08])
    ensures Varint.Value([0x80, 0x80, 0x80, 0x80, 0x08]) == TWO_31
  {
    var v: bytes := [0x80, 0x80, 0x80, 0x80, 0x08];
    assert v[1..] == [0x80, 0x80, 0x80, 0x08] && v[1..][1..] == [0x80, 0x80, 0x08];
    assert v[1..][1..][1..] == [0x80, 0x08] && v[1..][1..][1..][1..] == [0x08] && [0x08][1..] == [];
  }

  /** The five bytes are needed: a negative status read from six bytes is written as eleven. */
  lemma GrowthIsTight(nft: bool)
    ensures var s := [0x30, 0x80, 0x80, 0x80, 0x80, 0x08];
            Unmarshal(s, Zero(nft)).Ok? && |Encode(Unmarshal(s, Zero(nft)).value)| == |s| + 5
  {
    var m := Zero(nft).(status := -TWO_31);
    TopEncoded(nft);
    hide Varint.IsVarint, Varint.Value, Takes, Encode, Unmarshal;
    SignBit();
    TagIs(6, 0);
    var r := Scalar([0x30], [0x80, 0x80, 0x80, 0x80, 0x08]);
    TakesOne(r, [0x30, 0x80, 0x80, 0x80, 0x80, 0x08], Zero(nft));
    TakesIsUnmarshal([0x30, 0x80, 0x80, 0x80, 0x80, 0x08], Zero(nft), m);
  }

  lemma TopEncoded(nft: bool)
    ensures |Encode(Zero(nft).(status := -TWO_31))| == 11
  {
    ZeroFields();
    TopLength();
    hide NumberField, BytesField, SignExtend;
  }

  lemma TopLength()
    ensures |NumberField(6, SignExtend(-TWO_31))| == 11
  {
    var v := SignExtend(-TWO_31);
    Varint.EncodeIsVarint(v);
    Varint.EncodeDigits(v);
    Varint.DigitsBound(Varint.Encode(v));
    hide Varint.Encode, Varint.Digits;
    LongTop(|Varint.Encode(v)|, v);
  }

  lemma LongTop(n: nat, v: nat)
    requires v < Arithmetic.Pow2(7 * n) && v >= TWO_63
    ensures n >= 10
  {
    if n < 10 {
      Arithmetic.Pow2Values();
      Arithmetic.Pow2Grows(7 * n, 63);
    }
  }

  // ---------------------------------------------------------------- where the merge law ends

  lemma NineBytes()
    ensures |Varint.Encode(MAX_INT - 10)| == 9
  {
    var v := MAX_INT - 10;
    Arithmetic.Pow2Values();
    Arithmetic.Pow2Adds(56, 7);
    hide Varint.Encode, Varint.Digits, Arithmetic.Pow2;
    Varint.EncodeLength(v, 9);
    Varint.EncodeDigits(v);
    Varint.EncodeIsVarint(v);
    Varint.DigitsBound(Varint.Encode(v));
    if |Varint.Encode(v)| < 9 {
      Arithmetic.Pow2Grows(7 * |Varint.Encode(v)|, 56);
    }
  }

  lemma OneId()
    ensures Unmarshal(NumberField(1, 1), Zero(false)) == Ok(Zero(false).(id := 1)) && |NumberField(1, 1)| == 2
  {
    TakesNumber(1, 1, Zero(false));
    hide Unmarshal, Takes;
    TakesIsUnmarshal(NumberField(1, 1), Zero(false), Zero(false).(id := 1));
  }

  /** A token whose length ends exactly at the largest int, and two bytes in front of it that push it past. */
  lemma MergeLawEnds()
    ensures var a, b := NumberField(1, 1), [0x12] + Varint.Encode(MAX_INT - 10); var m := Zero(false).(id := 1);
            Unmarshal(a, Zero(false)) == Ok(m) && |a + b| <= MAX_INT && Crosses(b, 0, m, |a|)
  {
    var b, m := [0x12] + Varint.Encode(MAX_INT - 10), Zero(false).(id := 1);
    NineBytes();
    OneId();
    TagIs(2, 2);
    hide Varint.Encode, Varint.Read, Varint.Value, Varint.IsVarint, Unmarshal, NumberField, FieldNum;
    Varint.ReadComplete(b, 0, [0x12]);
    Varint.SovIsLength(MAX_INT - 10);
    Varint.RoundTrip(b, 1, MAX_INT - 10);
  }
}
