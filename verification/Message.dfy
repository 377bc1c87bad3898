/**
 The two event messages as values, `Unmarshal` as a parser over them, and what that parser means: a fold
 over the records of the input. `EventERC20Deposited` and `EventNFTDeposited` differ in field 4 only, a
 string against a number; `body` says which of the two a message is.
 */
module Message {
  import opened Bytes
  import opened Records
  import Varint

  datatype Body = Amount(text: bytes) | TokenId(number: uint64)

  datatype Msg = Msg(
    id: uint64,
    token: bytes,
    sender: bytes,
    body: Body,
    retry: uint32,
    status: int32,
    updatedAt: Option<bytes>,
    unrecognized: bytes)

  const UNDEFINED: int32 := 0
  const FAILED: int32 := 1
  const SUCCEEDED: int32 := 2

  predicate SameKind(a: Msg, b: Msg) {
    a.body.TokenId? <==> b.body.TokenId?
  }

  /** The zero message of a kind. */
  function Zero(nft: bool): Msg {
    Msg(0, [], [], if nft then TokenId(0) else Amount([]), 0, UNDEFINED, None, [])
  }

  // ---------------------------------------------------------------- the fields

  /** `int32(wire >> 3)`. */
  function FieldNum(wire: uint64): int32 {
    AsInt32(wire / 8)
  }

  predicate Known(num: int) {
    1 <= num <= 7
  }

  /** The fields that are varints; the other known fields are length-delimited. */
  predicate IsNumber(num: int, nft: bool) {
    num == 1 || num == 5 || num == 6 || (num == 4 && nft)
  }

  function SetNumber(m: Msg, num: int, v: uint64): Msg {
    if num == 1 then m.(id := v)
    else if num == 4 then m.(body := TokenId(v))
    else if num == 5 then m.(retry := v % TWO_32)
    else m.(status := AsInt32(v))
  }

  function SetBytes(m: Msg, num: int, b: bytes): Msg {
    if num == 2 then m.(token := b)
    else if num == 3 then m.(sender := b)
    else if num == 4 then m.(body := Amount(b))
    else m.(updatedAt := Some(b))
  }

  // ---------------------------------------------------------------- the parser

  /** A length and that many bytes; the sum of index and length wraps round past the largest int. */
  function Blob(s: bytes, j: nat): (r: Result<(bytes, nat)>)
    ensures r.Ok? ==> j < r.value.1 <= |s|
  {
    match Varint.Read(s, j)
    case Err(e) => Err(e)
    case Ok((n, k)) =>
      if n >= TWO_63 || k + n > MAX_INT then Err(InvalidLength)
      else if k + n > |s| then Err(UnexpectedEOF)
      else Ok((s[k..k + n], k + n))
  }

  /** The arms for fields 1 to 7. */
  function KnownField(s: bytes, num: int, wireType: int, j: nat, m: Msg): (r: Result<(Msg, nat)>)
    requires Known(num)
    ensures r.Ok? ==> j < r.value.1 <= |s|
  {
    if IsNumber(num, m.body.TokenId?) then
      if wireType != 0 then Err(WrongWireType)
      else match Varint.Read(s, j)
        case Err(e) => Err(e)
        case Ok((v, k)) => Ok((SetNumber(m, num, v), k))
    else if wireType != 2 then Err(WrongWireType)
    else match Blob(s, j)
      case Err(e) => Err(e)
      case Ok((b, k)) => Ok((SetBytes(m, num, b), k))
  }

  /** The default arm: the record that starts at `i` is kept as it is. */
  function UnknownField(s: bytes, i: nat, m: Msg): (r: Result<(Msg, nat)>)
    requires i < |s|
    ensures r.Ok? ==> i < r.value.1 <= |s|
  {
    match Skip(s[i..], 0, 0)
    case Err(e) => Err(e)
    case Ok(n) =>
      if i + n > MAX_INT then Err(InvalidLength)
      else if i + n > |s| then Err(UnexpectedEOF)
      else Ok((m.(unrecognized := m.unrecognized + s[i..i + n]), i + n))
  }

  /** One turn of `Unmarshal`'s loop, from index `i`. */
  function Step(s: bytes, i: nat, m: Msg): (r: Result<(Msg, nat)>)
    requires i < |s|
    ensures r.Ok? ==> i < r.value.1 <= |s|
  {
    match Varint.Read(s, i)
    case Err(e) => Err(e)
    case Ok((wire, j)) =>
      if wire % 8 == 4 then Err(EndGroupForNonGroup)
      else if FieldNum(wire) <= 0 then Err(IllegalTag)
      else if Known(FieldNum(wire)) then KnownField(s, FieldNum(wire), wire % 8, j, m)
      else UnknownField(s, i, m)
  }

  /** `Unmarshal` from index `i` on, into the message `m`. */
  function Parse(s: bytes, i: nat, m: Msg): Result<Msg>
    decreases Left(s, i)
  {
    if i >= |s| then Ok(m)
    else match Step(s, i, m)
      case Err(e) => Err(e)
      case Ok((next, j)) => Parse(s, j, next)
  }

  /** `Unmarshal` of a whole input into a message that may already hold something. */
  function Unmarshal(s: bytes, m: Msg): Result<Msg> {
    Parse(s, 0, m)
  }

  // ---------------------------------------------------------------- the meaning

  function Number(r: Record): int32 {
    FieldNum(Varint.Value(r.tag))
  }

  /** The records `Unmarshal` takes: a positive field number, and the right wire type on a known field. */
  predicate Legal(r: Record, nft: bool) {
    && Number(r) > 0
    && (Known(Number(r)) ==> if IsNumber(Number(r), nft) then r.Scalar? else r.Delimited?)
  }

  predicate AllLegal(rs: Records, nft: bool) {
    rs.Cons? ==> Legal(rs.head, nft) && AllLegal(rs.tail, nft)
  }

  function Apply(r: Record, m: Msg): (n: Msg)
    requires Legal(r, m.body.TokenId?)
    ensures SameKind(m, n)
  {
    if !Known(Number(r)) then m.(unrecognized := m.unrecognized + Text(r))
    else if r.Scalar? then SetNumber(m, Number(r), Varint.Value(r.body))
    else SetBytes(m, Number(r), r.body)
  }

  function ApplyAll(rs: Records, m: Msg): (n: Msg)
    requires AllLegal(rs, m.body.TokenId?)
    ensures SameKind(m, n)
  {
    match rs
    case Nil => m
    case Cons(r, rest) => ApplyAll(rest, Apply(r, m))
  }

  lemma TagAt(r: Record, s: bytes, i: nat)
    requires WellFormed(r) && At(s, i, Text(r))
    ensures Varint.Read(s, i) == Ok((Varint.Value(r.tag), i + |r.tag|))
  {
    hide At, Varint.IsVarint, Varint.Read, Varint.Value;
    match r {
      case Scalar(tag, body) => AtSplits(s, i, tag, body);
      case Fixed(tag, body) => AtSplits(s, i, tag, body);
      case Delimited(tag, length, body) => AtSplits(s, i, tag, length + body);
      case Group(tag, members, end) => AtSplits(s, i, tag, AllText(members) + end);
    }
    VarintAt(s, i, r.tag);
  }

  lemma BlobAt(s: bytes, j: nat, length: bytes, body: bytes)
    requires Varint.IsVarint(length) && Varint.Value(length) == |body| && At(s, j, length + body) && |s| <= MAX_INT
    ensures Blob(s, j) == Ok((body, j + |length| + |body|))
  {
    AtSplits(s, j, length, body);
    VarintAt(s, j, length);
  }

  lemma KnownComplete(r: Record, s: bytes, i: nat, m: Msg)
    requires WellFormed(r) && Legal(r, m.body.TokenId?) && Known(Number(r)) && At(s, i, Text(r)) && |s| <= MAX_INT
    ensures KnownField(s, Number(r), WireType(r.tag), i + |r.tag|, m) == Ok((Apply(r, m), i + |Text(r)|))
  {
    hide Varint.Read, Varint.Value, Varint.IsVarint, At, FieldNum, Blob, SetNumber, SetBytes;
    if r.Scalar? {
      AtSplits(s, i, r.tag, r.body);
      VarintAt(s, i + |r.tag|, r.body);
    } else {
      AtSplits(s, i, r.tag, r.length + r.body);
      BlobAt(s, i + |r.tag|, r.length, r.body);
    }
  }

  lemma UnknownComplete(r: Record, s: bytes, i: nat, m: Msg)
    requires WellFormed(r) && At(s, i, Text(r)) && |s| <= MAX_INT && i < |s|
    ensures UnknownField(s, i, m) == Ok((m.(unrecognized := m.unrecognized + Text(r)), i + |Text(r)|))
  {
    hide Text, WellFormed, Skip;
    var t := s[i..];
    assert t[0..|Text(r)|] == s[i..i + |Text(r)|];
    SkipRecord(r, t, 0, 0);
  }

  /** A legal record at `i` is taken in one turn, whatever surrounds it. */
  lemma StepComplete(r: Record, s: bytes, i: nat, m: Msg)
    requires WellFormed(r) && Legal(r, m.body.TokenId?) && At(s, i, Text(r)) && |s| <= MAX_INT
    ensures i < |s| && Step(s, i, m) == Ok((Apply(r, m), i + |Text(r)|))
  {
    hide KnownField, UnknownField, SetNumber, SetBytes, Varint.Value, Varint.IsVarint, Varint.Read, FieldNum;
    TagAt(r, s, i);
    if Known(Number(r)) {
      KnownComplete(r, s, i, m);
    } else {
      UnknownComplete(r, s, i, m);
    }
  }

  /** What one turn takes is one legal record. */
  lemma StepSound(s: bytes, i: nat, m: Msg) returns (r: Record)
    requires i < |s| <= MAX_INT && Step(s, i, m).Ok?
    ensures WellFormed(r) && Legal(r, m.body.TokenId?)
    ensures Step(s, i, m).value.0 == Apply(r, m) && Text(r) == s[i..Step(s, i, m).value.1]
  {
    var (wire, j) := Varint.Read(s, i).value;
    var k := Step(s, i, m).value.1;
    if Known(FieldNum(wire)) {
      r := KnownSound(s, i, m);
    } else {
      r := UnknownSound(s, i, m);
    }
  }

  lemma KnownSound(s: bytes, i: nat, m: Msg) returns (r: Record)
    requires i < |s| <= MAX_INT && Step(s, i, m).Ok? && Known(FieldNum(Varint.Read(s, i).value.0))
    ensures WellFormed(r) && Legal(r, m.body.TokenId?)
    ensures Step(s, i, m).value.0 == Apply(r, m) && Text(r) == s[i..Step(s, i, m).value.1]
  {
    hide Varint.Read, Varint.IsVarint, Varint.Value, FieldNum, SetNumber, SetBytes;
    var (wire, j) := Varint.Read(s, i).value;
    var k := Step(s, i, m).value.1;
    Varint.ReadSound(s, i);
    Varint.ReadSound(s, j);
    Join(s, i, j, k);
    if IsNumber(FieldNum(wire), m.body.TokenId?) {
      r := Scalar(s[i..j], s[j..k]);
    } else {
      var p := Varint.Read(s, j).value.1;
      Join(s, j, p, k);
      r := Delimited(s[i..j], s[j..p], s[p..k]);
    }
  }

  lemma UnknownSound(s: bytes, i: nat, m: Msg) returns (r: Record)
    requires i < |s| <= MAX_INT && Step(s, i, m).Ok? && !Known(FieldNum(Varint.Read(s, i).value.0))
    ensures WellFormed(r) && Legal(r, m.body.TokenId?)
    ensures Step(s, i, m).value.0 == Apply(r, m) && Text(r) == s[i..Step(s, i, m).value.1]
  {
    hide Varint.Read, Varint.IsVarint, Varint.Value, FieldNum, Text, WellFormed, Skip;
    var n := Skip(s[i..], 0, 0).value;
    r := SkipOneSound(s[i..], 0);
    assert s[i..][0..n] == s[i..i + n];
    TagAt(r, s, i);
  }

  // ---------------------------------------------------------------- the parser is the grammar

  lemma {:induction false} ParseComplete(rs: Records, s: bytes, i: nat, m: Msg)
    requires AllWellFormed(rs) && AllLegal(rs, m.body.TokenId?) && At(s, i, AllText(rs)) && |s| <= MAX_INT
    ensures Parse(s, i, m) == Parse(s, i + |AllText(rs)|, ApplyAll(rs, m))
    decreases rs
  {
    hide Step, Apply, At, Text;
    match rs
    case Nil =>
    case Cons(r, rest) =>
      AtSplits(s, i, Text(r), AllText(rest));
      StepComplete(r, s, i, m);
      ParseComplete(rest, s, i + |Text(r)|, Apply(r, m));
  }

  lemma {:induction false} ParseSound(s: bytes, i: nat, m: Msg) returns (rs: Records)
    requires i <= |s| <= MAX_INT && Parse(s, i, m).Ok?
    ensures AllWellFormed(rs) && AllLegal(rs, m.body.TokenId?)
    ensures AllText(rs) == s[i..] && Parse(s, i, m).value == ApplyAll(rs, m)
    decreases |s| - i
  {
    hide Step, Apply, Text;
    if i == |s| {
      rs := Nil;
    } else {
      var r := StepSound(s, i, m);
      var (next, j) := Step(s, i, m).value;
      var rest := ParseSound(s, j, next);
      rs := Cons(r, rest);
      assert s[i..j] + s[j..] == s[i..];
    }
  }

  /** `s` is the text of these records, and `Unmarshal` takes them all. */
  predicate Spells(rs: Records, s: bytes, nft: bool) {
    AllWellFormed(rs) && AllLegal(rs, nft) && AllText(rs) == s
  }

  /** `Unmarshal` accepts exactly the sequences of legal records, and folds them into the receiver. */
  lemma UnmarshalIsFold(s: bytes, m: Msg, n: Msg)
    requires |s| <= MAX_INT
    ensures Unmarshal(s, m) == Ok(n) <==> exists rs :: Spells(rs, s, m.body.TokenId?) && n == ApplyAll(rs, m)
  {
    hide Apply, Step, Text;
    if Unmarshal(s, m) == Ok(n) {
      var rs := ParseSound(s, 0, m);
      assert Spells(rs, s, m.body.TokenId?);
    }
    forall rs | Spells(rs, s, m.body.TokenId?) && n == ApplyAll(rs, m)
      ensures Unmarshal(s, m) == Ok(n)
    {
      ParseComplete(rs, s, 0, m);
    }
  }

  // ---------------------------------------------------------------- last one wins

  /** The last record that carries field `num`. */
  function Last(rs: Records, num: int, nft: bool): (last: Option<Record>)
    requires AllLegal(rs, nft)
    ensures last.Some? ==> Legal(last.value, nft) && Number(last.value) == num
  {
    match rs
    case Nil => None
    case Cons(r, rest) =>
      if Last(rest, num, nft).Some? then Last(rest, num, nft)
      else if Number(r) == num then Some(r) else None
  }

  datatype FieldValue = Num(n: int) | Str(s: bytes) | Time(t: Option<bytes>)

  /** The value of a known field. */
  function Field(m: Msg, num: int): FieldValue
    requires Known(num)
  {
    if num == 1 then Num(m.id)
    else if num == 2 then Str(m.token)
    else if num == 3 then Str(m.sender)
    else if num == 4 then (match m.body case Amount(t) => Str(t) case TokenId(n) => Num(n))
    else if num == 5 then Num(m.retry)
    else if num == 6 then Num(m.status)
    else Time(m.updatedAt)
  }

  /** The records that `Unmarshal` does not know, in the order they come in. */
  function Unknowns(rs: Records): (us: Records) {
    match rs
    case Nil => Nil
    case Cons(r, rest) => if Known(Number(r)) then Unknowns(rest) else Cons(r, Unknowns(rest))
  }

  lemma ApplyField(r: Record, m: Msg, n: Msg, num: int)
    requires SameKind(m, n) && Legal(r, m.body.TokenId?) && Known(num)
    ensures Field(Apply(r, m), num) == if Number(r) == num then Field(Apply(r, n), num) else Field(m, num)
  {
    hide Text, Number, Varint.Value;
  }

  /**
   Duplicate fields resolve to the last one: a known field ends up as its last record alone would leave
   it, and is left alone when there is none.
   */
  lemma {:induction false} LastOneWins(rs: Records, m: Msg, num: int)
    requires AllLegal(rs, m.body.TokenId?) && Known(num)
    ensures Field(ApplyAll(rs, m), num)
         == match Last(rs, num, m.body.TokenId?)
            case None => Field(m, num)
            case Some(r) => Field(Apply(r, m), num)
    decreases rs
  {
    hide Apply, Field, Legal;
    match rs
    case Nil =>
    case Cons(r, rest) =>
      var next := Apply(r, m);
      LastOneWins(rest, next, num);
      ApplyField(r, m, m, num);
      match Last(rest, num, m.body.TokenId?)
      case None =>
      case Some(last) => ApplyField(last, next, m, num);
  }

  /** Unknown records are kept verbatim, in order, after those that were there. */
  lemma {:induction false} UnknownsKept(rs: Records, m: Msg)
    requires AllLegal(rs, m.body.TokenId?)
    ensures ApplyAll(rs, m).unrecognized == m.unrecognized + AllText(Unknowns(rs))
    decreases rs
  {
    hide Text, Number;
    match rs
    case Nil =>
    case Cons(r, rest) =>
      UnknownsKept(rest, Apply(r, m));
      if !Known(Number(r)) {
        assert m.unrecognized + Text(r) + AllText(Unknowns(rest))
            == m.unrecognized + (Text(r) + AllText(Unknowns(rest)));
      }
  }

  lemma {:induction false} ApplyAppend(a: Records, b: Records, m: Msg)
    requires AllLegal(a, m.body.TokenId?) && AllLegal(b, m.body.TokenId?)
    ensures AllLegal(Append(a, b), m.body.TokenId?)
    ensures ApplyAll(Append(a, b), m) == ApplyAll(b, ApplyAll(a, m))
    decreases a
  {
    hide Apply, Legal;
    if a.Cons? {
      ApplyAppend(a.tail, b, Apply(a.head, m));
    }
  }

  // ---------------------------------------------------------------- the merge law

  lemma {:induction false} ScanShift(a: bytes, b: bytes, i: nat, k: nat)
    requires k <= Varint.MAX_VARINT
    ensures Varint.Scan(a + b, |a| + i, k)
         == match Varint.Scan(b, i, k) case Err(e) => Err(e) case Ok(j) => Ok(|a| + j)
    decreases Varint.MAX_VARINT - k
  {
    if k < Varint.MAX_VARINT && i + k < |b| {
      ScanShift(a, b, i, k + 1);
    }
  }

  lemma ReadShift(a: bytes, b: bytes, i: nat)
    ensures Varint.Read(a + b, |a| + i)
         == match Varint.Read(b, i) case Err(e) => Err(e) case Ok((v, j)) => Ok((v, |a| + j))
  {
    hide Varint.Scan, Varint.Value;
    ScanShift(a, b, i, 0);
    match Varint.Scan(b, i, 0)
    case Err(_) =>
    case Ok(j) => assert (a + b)[|a| + i..|a| + j] == b[i..j];
  }

  /** The end that a length at the head of the record at `i` declares, before it is held against the input. */
  function Declared(s: bytes, i: nat, m: Msg): Option<nat>
    requires i < |s|
  {
    match Varint.Read(s, i)
    case Err(_) => None
    case Ok((wire, j)) =>
      if wire % 8 == 4 || FieldNum(wire) <= 0 then None
      else if Known(FieldNum(wire)) then DeclaredBlob(s, FieldNum(wire), wire % 8, j, m)
      else (match Skip(s[i..], 0, 0) case Err(_) => None case Ok(n) => Some(i + n))
  }

  function DeclaredBlob(s: bytes, num: int, wireType: int, j: nat, m: Msg): Option<nat> {
    if IsNumber(num, m.body.TokenId?) || wireType != 2 then None
    else match Varint.Read(s, j)
      case Err(_) => None
      case Ok((n, k)) => if n < TWO_63 then Some(k + n) else None
  }

  /** An end past the input, in the int range at its own index but not `shift` further on. */
  predicate Over(end: Option<nat>, length: nat, shift: nat) {
    end.Some? && length < end.value <= MAX_INT < shift + end.value
  }

  /** The turn at which `Unmarshal` gives up is one whose declared end goes over. */
  predicate Crosses(s: bytes, i: nat, m: Msg, shift: nat)
    decreases Left(s, i)
  {
    i < |s| &&
    match Step(s, i, m)
    case Err(_) => Over(Declared(s, i, m), |s|, shift)
    case Ok((next, j)) => Crosses(s, j, next, shift)
  }

  function Moved(r: Result<(Msg, nat)>, offset: nat): Result<(Msg, nat)> {
    match r case Err(e) => Err(e) case Ok((m, j)) => Ok((m, offset + j))
  }

  /** Further on in an input the outcome is the same, but that a length that goes over is another error. */
  predicate Shifted<T(==)>(r: Result<T>, q: Result<T>, q': Result<T>, over: bool) {
    if over then r == Err(InvalidLength) && q == Err(UnexpectedEOF) else r == q'
  }

  lemma KnownShift(a: bytes, b: bytes, num: int, wireType: int, j: nat, m: Msg)
    requires Known(num) && |a + b| <= MAX_INT && j <= |b|
    ensures Shifted(KnownField(a + b, num, wireType, |a| + j, m), KnownField(b, num, wireType, j, m),
                    Moved(KnownField(b, num, wireType, j, m), |a|),
                    Over(DeclaredBlob(b, num, wireType, j, m), |b|, |a|))
  {
    hide Varint.Read, SetNumber, SetBytes;
    ReadShift(a, b, j);
    match Varint.Read(b, j)
    case Err(_) =>
    case Ok((n, k)) =>
      if k + n <= |b| {
        assert (a + b)[|a| + k..|a| + k + n] == b[k..k + n];
      }
  }

  lemma UnknownShift(a: bytes, b: bytes, i: nat, m: Msg)
    requires |a + b| <= MAX_INT && i < |b|
    ensures Shifted(UnknownField(a + b, |a| + i, m), UnknownField(b, i, m), Moved(UnknownField(b, i, m), |a|),
                    Over(match Skip(b[i..], 0, 0) case Err(_) => None case Ok(n) => Some(i + n), |b|, |a|))
  {
    hide Skip;
    assert (a + b)[|a| + i..] == b[i..];
    match Skip(b[i..], 0, 0)
    case Err(_) =>
    case Ok(n) =>
      if i + n <= |b| {
        assert (a + b)[|a| + i..|a| + i + n] == b[i..i + n];
      }
  }

  lemma StepShift(a: bytes, b: bytes, i: nat, m: Msg)
    requires |a + b| <= MAX_INT && i < |b|
    ensures Shifted(Step(a + b, |a| + i, m), Step(b, i, m), Moved(Step(b, i, m), |a|),
                    Over(Declared(b, i, m), |b|, |a|))
  {
    hide Varint.Read, KnownField, UnknownField, DeclaredBlob, Skip;
    ReadShift(a, b, i);
    UnknownShift(a, b, i, m);
    match Varint.Read(b, i)
    case Err(_) =>
    case Ok((wire, j)) =>
      if Known(FieldNum(wire)) {
        KnownShift(a, b, FieldNum(wire), wire % 8, j, m);
      }
  }

  lemma {:induction false} ParseShift(a: bytes, b: bytes, i: nat, m: Msg)
    requires |a + b| <= MAX_INT
    ensures Shifted(Parse(a + b, |a| + i, m), Parse(b, i, m), Parse(b, i, m), Crosses(b, i, m, |a|))
    decreases Left(b, i)
  {
    hide Step, Declared;
    if i < |b| {
      StepShift(a, b, i, m);
      match Step(b, i, m)
      case Err(_) =>
      case Ok((next, j)) => ParseShift(a, b, j, next);
    }
  }

  /**
   Parsing two inputs one after the other is parsing their concatenation, with the same result or the same
   error, unless the second breaks off at a length that the first pushes out of the int range: then the
   error is another one.
   */
  lemma MergeLaw(a: bytes, b: bytes, m0: Msg, m1: Msg)
    requires |a + b| <= MAX_INT && Unmarshal(a, m0) == Ok(m1)
    ensures Unmarshal(a + b, m0) == Unmarshal(b, m1) <==> !Crosses(b, 0, m1, |a|)
    ensures Crosses(b, 0, m1, |a|) ==>
              Unmarshal(a + b, m0) == Err(InvalidLength) && Unmarshal(b, m1) == Err(UnexpectedEOF)
  {
    hide Step, Apply, Text, Crosses;
    var rs := ParseSound(a, 0, m0);
    assert At(a + b, 0, AllText(rs));
    ParseComplete(rs, a + b, 0, m0);
    ParseShift(a, b, 0, m1);
  }
}
