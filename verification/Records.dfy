/**
 Wire records as trees, and `skipEvent`: the loop with a depth counter that finds where an unknown
 record ends. The trees follow the "Message Structure" and "Groups" sections of the Protocol Buffers
 encoding; a group is balanced by counting, whatever its field numbers are.
 */
module Records {
  import opened Bytes
  import Arithmetic
  import Varint

  // ---------------------------------------------------------------- the grammar

  datatype Record =
    | Scalar(tag: bytes, body: bytes)
    | Fixed(tag: bytes, body: bytes)
    | Delimited(tag: bytes, length: bytes, body: bytes)
    | Group(tag: bytes, members: Records, end: bytes)

  datatype Records = Nil | Cons(head: Record, tail: Records)

  function WireType(tag: bytes): nat {
    Varint.Value(tag) % 8
  }

  predicate WellFormed(r: Record) {
    && Varint.IsVarint(r.tag)
    && match r
       case Scalar(tag, body) => WireType(tag) == 0 && Varint.IsVarint(body)
       case Fixed(tag, body) => (WireType(tag) == 1 && |body| == 8) || (WireType(tag) == 5 && |body| == 4)
       case Delimited(tag, length, body) =>
         WireType(tag) == 2 && Varint.IsVarint(length) && Varint.Value(length) == |body| <= MAX_INT
       case Group(tag, members, end) =>
         && WireType(tag) == 3 && AllWellFormed(members)
         && Varint.IsVarint(end) && WireType(end) == 4
  }

  predicate AllWellFormed(rs: Records) {
    rs.Cons? ==> WellFormed(rs.head) && AllWellFormed(rs.tail)
  }

  /** The bytes a record stands for. */
  function Text(r: Record): bytes {
    match r
    case Scalar(tag, body) => tag + body
    case Fixed(tag, body) => tag + body
    case Delimited(tag, length, body) => tag + (length + body)
    case Group(tag, members, end) => tag + (AllText(members) + end)
  }

  function AllText(rs: Records): bytes {
    match rs
    case Nil => []
    case Cons(r, rest) => Text(r) + AllText(rest)
  }

  function Append(a: Records, b: Records): Records {
    match a
    case Nil => b
    case Cons(r, rest) => Cons(r, Append(rest, b))
  }

  lemma {:induction false} AppendText(a: Records, b: Records)
    ensures AllText(Append(a, b)) == AllText(a) + AllText(b)
    ensures AllWellFormed(a) && AllWellFormed(b) ==> AllWellFormed(Append(a, b))
  {
    match a
    case Nil =>
    case Cons(r, rest) =>
      AppendText(rest, b);
      assert Text(r) + (AllText(rest) + AllText(b)) == Text(r) + AllText(rest) + AllText(b);
  }

  // ---------------------------------------------------------------- the loop

  /** One turn after its tag: the payload that starts at `j` moves the index and the depth. */
  function Payload(s: bytes, wire: uint64, j: nat, depth: nat): (r: Result<(nat, nat)>)
    requires j <= |s|
    ensures r.Ok? ==> r.value.0 >= j
  {
    match wire % 8
    case 0 => (match Varint.Read(s, j) case Err(e) => Err(e) case Ok((_, k)) => Ok((k, depth)))
    case 1 => Ok((j + 8, depth))
    case 2 =>
      (match Varint.Read(s, j)
       case Err(e) => Err(e)
       case Ok((n, k)) => if n >= TWO_63 then Err(InvalidLength) else Ok((k + n, depth)))
    case 3 => Ok((j, depth + 1))
    case 4 => if depth == 0 then Err(UnexpectedEndOfGroup) else Ok((j, depth - 1))
    case 5 => Ok((j + 4, depth))
    case _ => Err(IllegalWireType)
  }

  function Left(s: bytes, i: nat): nat {
    if i < |s| then |s| - i else 0
  }

  /**
   `skipEvent` from index `i` on, inside `depth` open groups. An index past the largest int has
   wrapped round to a negative one in the source.
   */
  function Skip(s: bytes, i: nat, depth: nat): (r: Result<nat>)
    ensures r.Ok? ==> i < r.value <= MAX_INT
    decreases Left(s, i), 0
  {
    if i >= |s| then Err(UnexpectedEOF)
    else match Varint.Read(s, i)
      case Err(e) => Err(e)
      case Ok((wire, j)) =>
        match Payload(s, wire, j, depth)
        case Err(e) => Err(e)
        case Ok((k, d)) => Resume(s, k, d)
  }

  /** The end of one turn, and what follows it. */
  function Resume(s: bytes, k: nat, depth: nat): (r: Result<nat>)
    ensures r.Ok? ==> k <= r.value <= MAX_INT
    decreases Left(s, k), 1
  {
    if k > MAX_INT then Err(InvalidLength)
    else if depth == 0 then Ok(k)
    else Skip(s, k, depth)
  }

  // ---------------------------------------------------------------- completeness

  /** `t` stands in `s` at index `i`. */
  predicate At(s: bytes, i: nat, t: bytes) {
    i + |t| <= |s| && s[i..i + |t|] == t
  }

  lemma AtSplits(s: bytes, i: nat, a: bytes, b: bytes)
    requires At(s, i, a + b)
    ensures At(s, i, a) && At(s, i + |a|, b)
  {
    assert s[i..i + |a|] == (a + b)[..|a|] == a;
    assert s[i + |a|..i + |a| + |b|] == (a + b)[|a|..] == b;
  }

  lemma VarintAt(s: bytes, i: nat, v: bytes)
    requires Varint.IsVarint(v) && At(s, i, v)
    ensures Varint.Read(s, i) == Ok((Varint.Value(v), i + |v|))
  {
    Varint.ReadComplete(s, i, v);
  }

  /** One turn of the loop over a tag that stands at `i`. */
  lemma Turn(s: bytes, i: nat, tag: bytes, depth: nat)
    requires Varint.IsVarint(tag) && At(s, i, tag)
    requires Payload(s, Varint.Value(tag), i + |tag|, depth).Ok?
    ensures var (k, d) := Payload(s, Varint.Value(tag), i + |tag|, depth).value;
            Skip(s, i, depth) == Resume(s, k, d)
  {
    hide Varint.Read, Varint.Value, Varint.IsVarint, At, Payload, Resume;
    AtEnds(s, i, tag);
    VarintAt(s, i, tag);
  }

  /** A record standing at `i` is passed over in one go, whatever surrounds it and however deep it is. */
  lemma {:induction false} SkipRecord(r: Record, s: bytes, i: nat, depth: nat)
    requires WellFormed(r) && At(s, i, Text(r)) && |s| <= MAX_INT
    ensures Skip(s, i, depth) == Resume(s, i + |Text(r)|, depth)
    decreases r
  {
    hide Skip, Resume, At, Varint.Read, Varint.IsVarint, Varint.Value;
    match r
    case Scalar(tag, body) =>
      AtSplits(s, i, tag, body);
      VarintAt(s, i + |tag|, body);
      Turn(s, i, tag, depth);
    case Fixed(tag, body) =>
      AtSplits(s, i, tag, body);
      Turn(s, i, tag, depth);
    case Delimited(tag, length, body) =>
      AtSplits(s, i, tag, length + body);
      AtSplits(s, i + |tag|, length, body);
      VarintAt(s, i + |tag|, length);
      Turn(s, i, tag, depth);
    case Group(tag, members, end) =>
      SkipGroup(tag, members, end, s, i, depth);
  }

  lemma {:induction false} SkipGroup(tag: bytes, members: Records, end: bytes, s: bytes, i: nat, depth: nat)
    requires WellFormed(Group(tag, members, end)) && At(s, i, Text(Group(tag, members, end))) && |s| <= MAX_INT
    ensures Skip(s, i, depth) == Resume(s, i + |Text(Group(tag, members, end))|, depth)
    decreases members, 1
  {
    hide Skip, At, Varint.Read, Varint.IsVarint, Varint.Value;
    var j := i + |tag|;
    AtSplits(s, i, tag, AllText(members) + end);
    AtSplits(s, j, AllText(members), end);
    AtEnds(s, j, AllText(members) + end);
    Turn(s, i, tag, depth);
    SkipRecords(members, s, j, depth + 1);
    Turn(s, j + |AllText(members)|, end, depth + 1);
  }

  lemma AtEnds(s: bytes, i: nat, t: bytes)
    requires At(s, i, t)
    ensures i + |t| <= |s|
  {}

  lemma {:induction false} SkipRecords(rs: Records, s: bytes, i: nat, depth: nat)
    requires AllWellFormed(rs) && At(s, i, AllText(rs)) && |s| <= MAX_INT && depth > 0
    ensures Skip(s, i, depth) == Skip(s, i + |AllText(rs)|, depth)
    decreases rs, 0
  {
    hide Skip, At;
    match rs
    case Nil =>
    case Cons(r, rest) =>
      AtSplits(s, i, Text(r), AllText(rest));
      AtEnds(s, i, Text(r));
      SkipRecord(r, s, i, depth);
      SkipRecords(rest, s, i + |Text(r)|, depth);
  }

  // ---------------------------------------------------------------- soundness

  /**
   What is left of `Depth` open groups: the remaining members of the innermost one, its end tag, and
   then the same for the groups around it.
   */
  datatype Closing = Done | Close(members: Records, end: bytes, outer: Closing)

  function Depth(c: Closing): nat {
    if c.Done? then 0 else 1 + Depth(c.outer)
  }

  predicate ClosingWellFormed(c: Closing) {
    c.Close? ==>
      && AllWellFormed(c.members) && Varint.IsVarint(c.end) && WireType(c.end) == 4
      && ClosingWellFormed(c.outer)
  }

  function ClosingText(c: Closing): bytes {
    match c
    case Done => []
    case Close(members, end, outer) => AllText(members) + (end + ClosingText(outer))
  }

  lemma Join(s: bytes, i: nat, j: nat, k: nat)
    requires i <= j <= k <= |s|
    ensures s[i..j] + s[j..k] == s[i..k]
  {}

  /** A turn that opens or closes no group has passed over one record. */
  lemma LeafSound(s: bytes, i: nat, depth: nat) returns (r: Record)
    requires Varint.Read(s, i).Ok? && Varint.Read(s, i).value.0 % 8 != 3 && Varint.Read(s, i).value.0 % 8 != 4
    requires var (wire, j) := Varint.Read(s, i).value;
             && Payload(s, wire, j, depth).Ok?
             && Payload(s, wire, j, depth).value.0 <= |s| <= MAX_INT
    ensures var (wire, j) := Varint.Read(s, i).value;
            WellFormed(r) && Text(r) == s[i..Payload(s, wire, j, depth).value.0]
  {
    var (wire, j) := Varint.Read(s, i).value;
    var k := Payload(s, wire, j, depth).value.0;
    Varint.ReadSound(s, i);
    Join(s, i, j, k);
    if wire % 8 == 0 {
      Varint.ReadSound(s, j);
      r := Scalar(s[i..j], s[j..k]);
    } else if wire % 8 == 2 {
      var p := Varint.Read(s, j).value.1;
      Varint.ReadSound(s, j);
      Join(s, j, p, k);
      r := Delimited(s[i..j], s[j..p], s[p..k]);
    } else {
      r := Fixed(s[i..j], s[j..k]);
    }
  }

  lemma Regroup(tag: bytes, members: bytes, end: bytes, rest: bytes)
    ensures tag + (members + (end + rest)) == (tag + (members + end)) + rest
  {}

  lemma Prepend(r: Record, c: Closing) returns (d: Closing)
    requires c.Close? && WellFormed(r) && ClosingWellFormed(c)
    ensures ClosingWellFormed(d) && Depth(d) == Depth(c) && ClosingText(d) == Text(r) + ClosingText(c)
  {
    d := Close(Cons(r, c.members), c.end, c.outer);
    assert Text(r) + (AllText(c.members) + (c.end + ClosingText(c.outer)))
        == Text(r) + AllText(c.members) + (c.end + ClosingText(c.outer));
  }

  /** Inside open groups, what the loop accepts is exactly the rest of those groups. */
  lemma {:induction false} SkipSound(s: bytes, i: nat, depth: nat) returns (c: Closing)
    requires depth > 0 && |s| <= MAX_INT && Skip(s, i, depth).Ok? && Skip(s, i, depth).value <= |s|
    ensures ClosingWellFormed(c) && Depth(c) == depth && ClosingText(c) == s[i..Skip(s, i, depth).value]
    decreases Left(s, i)
  {
    hide Varint.Read, Varint.Value, Varint.IsVarint, Text, WellFormed;
    var n := Skip(s, i, depth).value;
    var (wire, j) := Varint.Read(s, i).value;
    var (k, d) := Payload(s, wire, j, depth).value;
    Join(s, i, k, n);
    if wire % 8 == 3 {
      var inner := SkipSound(s, j, depth + 1);
      c := EnterSound(s, i, j, wire, inner, n);
    } else if wire % 8 == 4 {
      Varint.ReadSound(s, i);
      var outer := Done;
      if depth > 1 {
        outer := SkipSound(s, j, depth - 1);
      }
      c := Close(Nil, s[i..j], outer);
    } else {
      var r := LeafSound(s, i, depth);
      var rest := SkipSound(s, k, depth);
      c := Prepend(r, rest);
    }
  }

  lemma EnterSound(s: bytes, i: nat, j: nat, wire: uint64, inner: Closing, n: nat) returns (c: Closing)
    requires Varint.Read(s, i) == Ok((wire, j)) && wire % 8 == 3
    requires ClosingWellFormed(inner) && Depth(inner) > 1
    requires j <= n <= |s| && ClosingText(inner) == s[j..n]
    ensures ClosingWellFormed(c) && Depth(c) == Depth(inner) - 1 && ClosingText(c) == s[i..n]
  {
    hide Varint.Read, Varint.IsVarint;
    Varint.ReadSound(s, i);
    var r := Group(s[i..j], inner.members, inner.end);
    Join(s, i, j, n);
    Regroup(s[i..j], AllText(inner.members), inner.end, ClosingText(inner.outer));
    c := Prepend(r, inner.outer);
  }

  /** What `skipEvent` accepts within its input is exactly one record. */
  lemma {:induction false} SkipOneSound(s: bytes, i: nat) returns (r: Record)
    requires |s| <= MAX_INT && Skip(s, i, 0).Ok? && Skip(s, i, 0).value <= |s|
    ensures WellFormed(r) && Text(r) == s[i..Skip(s, i, 0).value]
  {
    var n := Skip(s, i, 0).value;
    var (wire, j) := Varint.Read(s, i).value;
    if wire % 8 == 3 {
      var inner := SkipSound(s, j, 1);
      Varint.ReadSound(s, i);
      r := Group(s[i..j], inner.members, inner.end);
      Join(s, i, j, n);
      assert ClosingText(Done) == [];
      assert inner.end + [] == inner.end;
    } else {
      r := LeafSound(s, i, 0);
    }
  }

  // ---------------------------------------------------------------- the theorems

  /** `s` starts with the record `r`. */
  predicate StartsWith(s: bytes, r: Record) {
    WellFormed(r) && At(s, 0, Text(r))
  }

  /**
   The depth counter agrees with the grammar: `skipEvent` answers an `n` within the input exactly when
   the first `n` bytes are one record.
   */
  lemma SkipIsGrammar(s: bytes, n: nat)
    requires |s| <= MAX_INT && n <= |s|
    ensures Skip(s, 0, 0) == Ok(n) <==> exists r :: StartsWith(s, r) && |Text(r)| == n
  {
    hide Skip, Text, WellFormed;
    if Skip(s, 0, 0) == Ok(n) {
      var r := SkipOneSound(s, 0);
      assert StartsWith(s, r);
    }
    forall r | StartsWith(s, r) && |Text(r)| == n
      ensures Skip(s, 0, 0) == Ok(n)
    {
      SkipRecord(r, s, 0, 0);
      AtEnds(s, 0, Text(r));
    }
  }

  /** The bytes after the record have no say in the answer. */
  lemma SkipIgnoresRest(s: bytes, t: bytes, n: nat)
    requires |s| <= MAX_INT && |t| <= MAX_INT && n <= |s| && n <= |t| && s[..n] == t[..n]
    requires Skip(s, 0, 0) == Ok(n)
    ensures Skip(t, 0, 0) == Ok(n)
  {
    hide Skip, Text, WellFormed;
    var r := SkipOneSound(s, 0);
    assert At(t, 0, Text(r));
    SkipRecord(r, t, 0, 0);
  }

  /** The varint loop with a 64-bit accumulator gives the word itself. */
  method ReadWord(dAtA: bytes, start: nat) returns (r: Result<(uint64, nat)>)
    requires start <= |dAtA|
    ensures r == Varint.Read(dAtA, start)
  {
    hide Varint.Read, Arithmetic.Truncate;
    var w := Varint.ReadVarint(dAtA, start, 64);
    if w.Err? {
      return Err(w.error);
    }
    Arithmetic.TruncateWidths(Varint.Read(dAtA, start).value.0);
    return Ok((w.value.0, w.value.1));
  }

  /** The `switch` on the wire type; the sums wrap round as Go's do. */
  method SkipPayload(dAtA: bytes, wire: uint64, start: nat, depth: nat) returns (r: Result<(int, nat)>)
    requires start <= |dAtA| <= MAX_INT
    ensures Payload(dAtA, wire, start, depth).Err? ==> r == Err(Payload(dAtA, wire, start, depth).error)
    ensures Payload(dAtA, wire, start, depth).Ok? ==>
              var (k, d) := Payload(dAtA, wire, start, depth).value;
              r == Ok((if k > MAX_INT then k - TWO_64 else k, d))
    ensures Payload(dAtA, wire, start, depth).Ok? ==> Payload(dAtA, wire, start, depth).value.0 < TWO_64
  {
    var wireType := wire % 8;
    if wireType == 0 {
      var v := ReadWord(dAtA, start);
      if v.Err? {
        return Err(v.error);
      }
      return Ok((v.value.1, depth));
    } else if wireType == 1 {
      return Ok((AsInt64(start + 8), depth));
    } else if wireType == 2 {
      var v := ReadWord(dAtA, start);
      if v.Err? {
        return Err(v.error);
      }
      var length := AsInt64(v.value.0);
      if length < 0 {
        return Err(InvalidLength);
      }
      return Ok((AsInt64(v.value.1 + length), depth));
    } else if wireType == 3 {
      return Ok((start, depth + 1));
    } else if wireType == 4 {
      if depth == 0 {
        return Err(UnexpectedEndOfGroup);
      }
      return Ok((start, depth - 1));
    } else if wireType == 5 {
      return Ok((AsInt64(start + 4), depth));
    } else {
      return Err(IllegalWireType);
    }
  }

  /** `skipEvent`: no turn reads outside the input, and every turn moves the index on. */
  method SkipEvent(dAtA: bytes) returns (r: Result<nat>)
    requires |dAtA| <= MAX_INT
    ensures r == Skip(dAtA, 0, 0)
    ensures r.Ok? ==> r.value >= 1
  {
    hide Varint.Read, Payload;
    var l := |dAtA|;
    var iNdEx: int, depth: nat := 0, 0;
    while iNdEx < l
      invariant 0 <= iNdEx <= MAX_INT
      invariant Skip(dAtA, 0, 0) == Skip(dAtA, iNdEx, depth)
      decreases Left(dAtA, iNdEx)
    {
      var tag := ReadWord(dAtA, iNdEx);
      if tag.Err? {
        return Err(tag.error);
      }
      var turn := SkipPayload(dAtA, tag.value.0, tag.value.1, depth);
      if turn.Err? {
        return Err(turn.error);
      }
      iNdEx, depth := turn.value.0, turn.value.1;
      if iNdEx < 0 {
        return Err(InvalidLength);
      }
      if depth == 0 {
        return Ok(iNdEx);
      }
    }
    return Err(UnexpectedEOF);
  }
}
