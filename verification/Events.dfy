/**
 The generated message types as objects: `Size`, `MarshalToSizedBuffer` filling a buffer from its end,
 `Unmarshal` assigning fields in place, and the store access of `event.go` on top of them.
 */
module Events {
  import opened Bytes
  import opened Encoding
  import opened Store
  import opened Seam
  import Arithmetic
  import Bank
  import Buffer
  import Message
  import Records
  import Varint

  lemma Regroup(m: Message.Msg)
    ensures Encode(m) == NumberField(1, m.id) + (BytesField(2, m.token) + (BytesField(3, m.sender)
              + (BodyField(m.body) + Buffer.Trailer(m))))
  {
    hide NumberField, BytesField, BodyField, TimeField, SignExtend;
    var f6, f7, u := NumberField(6, SignExtend(m.status)), TimeField(m.updatedAt), m.unrecognized;
    var f5, f4, f3 := NumberField(5, m.retry), BodyField(m.body), BytesField(3, m.sender);
    var f2, f1 := BytesField(2, m.token), NumberField(1, m.id);
    Buffer.Gather(f6, f7, [], u);
    Buffer.Gather(f5, f6 + f7, [], u);
    Buffer.Gather(f4, f5 + (f6 + f7), [], u);
    Buffer.Gather(f3, f4 + (f5 + (f6 + f7)), [], u);
    Buffer.Gather(f2, f3 + (f4 + (f5 + (f6 + f7))), [], u);
    Buffer.Gather(f1, f2 + (f3 + (f4 + (f5 + (f6 + f7)))), [], u);
  }

  lemma TrailerLength(m: Message.Msg)
    ensures |Buffer.Trailer(m)| == |NumberField(5, m.retry)| + |NumberField(6, SignExtend(m.status))|
              + |TimeField(m.updatedAt)| + |m.unrecognized|
  {
    hide NumberField, TimeField, SignExtend;
  }

  lemma Length(m: Message.Msg)
    ensures |Encode(m)| == |NumberField(1, m.id)| + |BytesField(2, m.token)| + |BytesField(3, m.sender)|
              + |BodyField(m.body)| + |NumberField(5, m.retry)| + |NumberField(6, SignExtend(m.status))|
              + |TimeField(m.updatedAt)| + |m.unrecognized|
  {
    hide NumberField, BytesField, BodyField, TimeField, SignExtend;
  }

  /** What reading the store into an event came to. */
  datatype Outcome = Found | NotFound | Corrupt(error: Error)

  /** The store holds nothing but event records under event keys. */
  ghost predicate HoldsRecords(kv: map<bytes, Value>) {
    forall nft, id :: Find(kv, EventKey(nft, id)).Some? ==>
      Find(kv, EventKey(nft, id)).value.Record? && |Find(kv, EventKey(nft, id)).value.text| <= MAX_INT
  }

  class EventERC20Deposited {
    var id: uint64
    var token: bytes
    var sender: bytes
    var amount: bytes
    var retry: uint32
    var status: int32
    var updatedAt: Option<bytes>
    var unrecognized: bytes

    constructor (id: uint64, token: bytes, sender: bytes, amount: bytes)
      ensures Model() == Message.Msg(id, token, sender, Message.Amount(amount), 0, Message.UNDEFINED, None, [])
    {
      this.id, this.token, this.sender, this.amount := id, token, sender, amount;
      retry, status, updatedAt, unrecognized := 0, Message.UNDEFINED, None, [];
    }

    function Model(): Message.Msg
      reads this
    {
      Message.Msg(id, token, sender, Message.Amount(amount), retry, status, updatedAt, unrecognized)
    }

    /** The size is the length of what `MarshalToSizedBuffer` writes. */
    method Size() returns (n: nat)
      ensures n == |Encode(Model())|
    {
      hide NumberField, Encode;
      Length(Model());
      n := Buffer.NumberSize(1, id);
      if |token| > 0 {
        var s := Buffer.BlobSize(2, |token|, token);
        n := n + s;
      }
      if |sender| > 0 {
        var s := Buffer.BlobSize(3, |sender|, sender);
        n := n + s;
      }
      if |amount| > 0 {
        var s4 := Buffer.BlobSize(4, |amount|, amount);
        n := n + s4;
      }
      var s5 := Buffer.NumberSize(5, retry);
      var s6 := Buffer.NumberSize(6, SignExtend(status));
      n := n + s5 + s6;
      if updatedAt.Some? {
        var s := Buffer.BlobSize(7, |updatedAt.value|, updatedAt.value);
        n := n + s;
      }
      n := n + |unrecognized|;
    }

    /**
     Fields are written from the last to the first, each in front of what is there. The buffer may be
     longer than needed; it is filled from its end and never underrun.
     */
    method MarshalToSizedBuffer(dAtA: array<byte>) returns (n: nat)
      requires |Encode(Model())| <= dAtA.Length <= MAX_INT
      modifies dAtA
      ensures n == |Encode(Model())|
      ensures dAtA[dAtA.Length - n..] == Encode(Model())
      ensures dAtA[..dAtA.Length - n] == old(dAtA[..dAtA.Length - n])
    {
      hide NumberField, BytesField, TimeField, Encode, SignExtend;
      ghost var m := Model();
      PartsFit(m);
      Length(m);
      TrailerLength(m);
      Regroup(m);
      ghost var before := dAtA[..];
      hide Buffer.Holds, Buffer.Trailer;
      var i := Buffer.PutTrailer(dAtA, Model());
      ghost var t := Buffer.Trailer(m);
      Buffer.Fits(dAtA, i, t, before);
      i := Buffer.PutBytes(dAtA, i, 4, amount, t, before);
      t := BodyField(m.body) + t;
      Buffer.Fits(dAtA, i, t, before);
      i := Buffer.PutBytes(dAtA, i, 3, sender, t, before);
      t := BytesField(3, sender) + t;
      Buffer.Fits(dAtA, i, t, before);
      i := Buffer.PutBytes(dAtA, i, 2, token, t, before);
      t := BytesField(2, token) + t;
      Buffer.Fits(dAtA, i, t, before);
      i := Buffer.PutNumber(dAtA, i, 1, id, t, before);
      Buffer.Unpack(dAtA, i, Encode(m), before);
      n := dAtA.Length - i;
    }

    method Marshal() returns (dAtA: array<byte>)
      requires |Encode(Model())| <= MAX_INT
      ensures fresh(dAtA) && dAtA[..] == Encode(Model())
    {
      var size := Size();
      dAtA := new byte[size];
      var n := MarshalToSizedBuffer(dAtA);
      assert dAtA[0..] == dAtA[..];
    }

    /** One turn of the loop of `Unmarshal`: the tag at `start`, the switch on the field number, the payload. */
    method UnmarshalField(dAtA: bytes, start: nat) returns (r: Result<nat>)
      requires start < |dAtA| <= MAX_INT
      modifies this
      ensures Message.Step(dAtA, start, old(Model())).Err? ==> r == Err(Message.Step(dAtA, start, old(Model())).error)
      ensures Message.Step(dAtA, start, old(Model())).Ok? ==>
                Message.Step(dAtA, start, old(Model())) == Ok((Model(), if r.Ok? then r.value else 0)) && r.Ok?
    {
      hide Varint.Read, Message.Blob, Message.UnknownField, AsInt32;
      var tag := Records.ReadWord(dAtA, start);
      if tag.Err? {
        return Err(tag.error);
      }
      var wire, iNdEx := tag.value.0, tag.value.1;
      var fieldNum, wireType := AsInt32(wire / 8), wire % 8;
      if wireType == 4 {
        return Err(EndGroupForNonGroup);
      }
      if fieldNum <= 0 {
        return Err(IllegalTag);
      }
      if fieldNum == 1 || fieldNum == 5 || fieldNum == 6 {
        if wireType != 0 {
          return Err(WrongWireType);
        }
        r := UnmarshalNumber(dAtA, fieldNum, iNdEx);
      } else if fieldNum <= 7 {
        if wireType != 2 {
          return Err(WrongWireType);
        }
        r := UnmarshalBytes(dAtA, fieldNum, iNdEx);
      } else {
        r := UnmarshalUnknown(dAtA, start);
      }
    }

    method UnmarshalNumber(dAtA: bytes, fieldNum: int, iNdEx: nat) returns (r: Result<nat>)
      requires iNdEx <= |dAtA| <= MAX_INT && Message.Known(fieldNum) && Message.IsNumber(fieldNum, false)
      modifies this
      ensures match Varint.Read(dAtA, iNdEx)
              case Err(e) => r == Err(e)
              case Ok((v, k)) => r == Ok(k) && Model() == Message.SetNumber(old(Model()), fieldNum, v)
    {
      hide Varint.Read, Arithmetic.Truncate;
      var bits := if fieldNum == 5 || fieldNum == 6 then 32 else 64;
      var v := Varint.ReadVarint(dAtA, iNdEx, bits);
      if v.Err? {
        return Err(v.error);
      }
      Arithmetic.TruncateWidths(Varint.Read(dAtA, iNdEx).value.0);
      if fieldNum == 1 {
        id := v.value.0;
      } else if fieldNum == 5 {
        retry := v.value.0;
      } else {
        status := AsInt32(v.value.0);
      }
      return Ok(v.value.1);
    }

    method UnmarshalBytes(dAtA: bytes, fieldNum: int, iNdEx: nat) returns (r: Result<nat>)
      requires iNdEx <= |dAtA| <= MAX_INT && Message.Known(fieldNum) && !Message.IsNumber(fieldNum, false)
      modifies this
      ensures match Message.Blob(dAtA, iNdEx)
              case Err(e) => r == Err(e)
              case Ok((b, k)) => r == Ok(k) && Model() == Message.SetBytes(old(Model()), fieldNum, b)
    {
      hide Message.Blob;
      var b := Buffer.ReadBlob(dAtA, iNdEx);
      if b.Err? {
        return Err(b.error);
      }
      if fieldNum == 2 {
        token := b.value.0;
      } else if fieldNum == 3 {
        sender := b.value.0;
      } else if fieldNum == 4 {
        amount := b.value.0;
      } else {
        updatedAt := Some(b.value.0);
      }
      return Ok(b.value.1);
    }

    /** The default arm, which goes back to the start of the record. */
    method UnmarshalUnknown(dAtA: bytes, preIndex: nat) returns (r: Result<nat>)
      requires preIndex < |dAtA| <= MAX_INT
      modifies this
      ensures match Message.UnknownField(dAtA, preIndex, old(Model()))
              case Err(e) => r == Err(e)
              case Ok((m, k)) => r == Ok(k) && Model() == m
    {
      hide Records.Skip;
      var skippy := Records.SkipEvent(dAtA[preIndex..]);
      if skippy.Err? {
        return Err(skippy.error);
      }
      var end := AsInt64(preIndex + skippy.value);
      if end < 0 {
        return Err(InvalidLength);
      }
      if end > |dAtA| {
        return Err(UnexpectedEOF);
      }
      unrecognized := unrecognized + dAtA[preIndex..end];
      return Ok(end);
    }

    /** `Unmarshal` into whatever the object holds already. */
    method Unmarshal(dAtA: bytes) returns (e: Option<Error>)
      requires |dAtA| <= MAX_INT
      modifies this
      ensures match Message.Unmarshal(dAtA, old(Model()))
              case Err(error) => e == Some(error)
              case Ok(m) => e == None && Model() == m
    {
      hide Message.Step, Model;
      var l := |dAtA|;
      var iNdEx := 0;
      while iNdEx < l
        invariant iNdEx <= l
        invariant Message.Parse(dAtA, 0, old(Model())) == Message.Parse(dAtA, iNdEx, Model())
      {
        var turn := UnmarshalField(dAtA, iNdEx);
        if turn.Err? {
          return Some(turn.error);
        }
        iNdEx := turn.value;
      }
      return None;
    }

    method SetRetry(retry: uint32)
      modifies this
      ensures Model() == old(Model()).(retry := retry)
    {
      this.retry := retry;
    }

    method SetStatus(status: int32)
      modifies this
      ensures Model() == old(Model()).(status := status)
    {
      this.status := status;
    }

    /** The stored record, if there is one, is unmarshalled into what the object holds already. */
    method Get(db: DB) returns (r: Outcome)
      requires HoldsRecords(db.kv)
      modifies this
      ensures match Find(db.kv, EventKey(false, old(id)))
              case None => r == NotFound && Model() == old(Model())
              case Some(v) =>
                match Message.Unmarshal(v.text, old(Model()))
                case Err(e) => r == Corrupt(e)
                case Ok(m) => r == Found && Model() == m
    {
      hide Message.Unmarshal;
      var v := db.Get(EventKey(false, id));
      if v.None? {
        return NotFound;
      }
      var e := Unmarshal(v.value.text);
      return if e.None? then Found else Corrupt(e.value);
    }

    method Put(db: DB, works: bool) returns (ok: bool)
      requires |Encode(Model())| <= MAX_INT
      modifies db
      ensures ok == works
      ensures Find(db.kv, EventKey(false, id)) ==
                if ok then Some(Record(Encode(Model()))) else Find(old(db.kv), EventKey(false, id))
      ensures forall l :: l != EventKey(false, id) ==> Find(db.kv, l) == Find(old(db.kv), l)
    {
      hide Encode;
      var value := Marshal();
      ok := db.Put(EventKey(false, id), Record(value[..]), works);
    }
  }

  class EventNFTDeposited {
    var id: uint64
    var token: bytes
    var sender: bytes
    var tokenid: uint64
    var retry: uint32
    var status: int32
    var updatedAt: Option<bytes>
    var unrecognized: bytes

    constructor (id: uint64, token: bytes, sender: bytes, tokenid: uint64)
      ensures Model() == Message.Msg(id, token, sender, Message.TokenId(tokenid), 0, Message.UNDEFINED, None, [])
    {
      this.id, this.token, this.sender, this.tokenid := id, token, sender, tokenid;
      retry, status, updatedAt, unrecognized := 0, Message.UNDEFINED, None, [];
    }

    function Model(): Message.Msg
      reads this
    {
      Message.Msg(id, token, sender, Message.TokenId(tokenid), retry, status, updatedAt, unrecognized)
    }

    /** The size is the length of what `MarshalToSizedBuffer` writes. */
    method Size() returns (n: nat)
      ensures n == |Encode(Model())|
    {
      hide NumberField, Encode;
      Length(Model());
      n := Buffer.NumberSize(1, id);
      if |token| > 0 {
        var s := Buffer.BlobSize(2, |token|, token);
        n := n + s;
      }
      if |sender| > 0 {
        var s := Buffer.BlobSize(3, |sender|, sender);
        n := n + s;
      }
      var s4 := Buffer.NumberSize(4, tokenid);
      n := n + s4;
      var s5 := Buffer.NumberSize(5, retry);
      var s6 := Buffer.NumberSize(6, SignExtend(status));
      n := n + s5 + s6;
      if updatedAt.Some? {
        var s := Buffer.BlobSize(7, |updatedAt.value|, updatedAt.value);
        n := n + s;
      }
      n := n + |unrecognized|;
    }

    /**
     Fields are written from the last to the first, each in front of what is there. The buffer may be
     longer than needed; it is filled from its end and never underrun.
     */
    method MarshalToSizedBuffer(dAtA: array<byte>) returns (n: nat)
      requires |Encode(Model())| <= dAtA.Length <= MAX_INT
      modifies dAtA
      ensures n == |Encode(Model())|
      ensures dAtA[dAtA.Length - n..] == Encode(Model())
      ensures dAtA[..dAtA.Length - n] == old(dAtA[..dAtA.Length - n])
    {
      hide NumberField, BytesField, TimeField, Encode, SignExtend;
      ghost var m := Model();
      PartsFit(m);
      Length(m);
      TrailerLength(m);
      Regroup(m);
      ghost var before := dAtA[..];
      hide Buffer.Holds, Buffer.Trailer;
      var i := Buffer.PutTrailer(dAtA, Model());
      ghost var t := Buffer.Trailer(m);
      Buffer.Fits(dAtA, i, t, before);
      i := Buffer.PutNumber(dAtA, i, 4, tokenid, t, before);
      t := BodyField(m.body) + t;
      Buffer.Fits(dAtA, i, t, before);
      i := Buffer.PutBytes(dAtA, i, 3, sender, t, before);
      t := BytesField(3, sender) + t;
      Buffer.Fits(dAtA, i, t, before);
      i := Buffer.PutBytes(dAtA, i, 2, token, t, before);
      t := BytesField(2, token) + t;
      Buffer.Fits(dAtA, i, t, before);
      i := Buffer.PutNumber(dAtA, i, 1, id, t, before);
      Buffer.Unpack(dAtA, i, Encode(m), before);
      n := dAtA.Length - i;
    }

    method Marshal() returns (dAtA: array<byte>)
      requires |Encode(Model())| <= MAX_INT
      ensures fresh(dAtA) && dAtA[..] == Encode(Model())
    {
      var size := Size();
      dAtA := new byte[size];
      var n := MarshalToSizedBuffer(dAtA);
      assert dAtA[0..] == dAtA[..];
    }

    /** One turn of the loop of `Unmarshal`: the tag at `start`, the switch on the field number, the payload. */
    method UnmarshalField(dAtA: bytes, start: nat) returns (r: Result<nat>)
      requires start < |dAtA| <= MAX_INT
      modifies this
      ensures Message.Step(dAtA, start, old(Model())).Err? ==> r == Err(Message.Step(dAtA, start, old(Model())).error)
      ensures Message.Step(dAtA, start, old(Model())).Ok? ==>
                Message.Step(dAtA, start, old(Model())) == Ok((Model(), if r.Ok? then r.value else 0)) && r.Ok?
    {
      hide Varint.Read, Message.Blob, Message.UnknownField, AsInt32;
      var tag := Records.ReadWord(dAtA, start);
      if tag.Err? {
        return Err(tag.error);
      }
      var wire, iNdEx := tag.value.0, tag.value.1;
      var fieldNum, wireType := AsInt32(wire / 8), wire % 8;
      if wireType == 4 {
        return Err(EndGroupForNonGroup);
      }
      if fieldNum <= 0 {
        return Err(IllegalTag);
      }
      if fieldNum == 1 || fieldNum == 4 || fieldNum == 5 || fieldNum == 6 {
        if wireType != 0 {
          return Err(WrongWireType);
        }
        r := UnmarshalNumber(dAtA, fieldNum, iNdEx);
      } else if fieldNum <= 7 {
        if wireType != 2 {
          return Err(WrongWireType);
        }
        r := UnmarshalBytes(dAtA, fieldNum, iNdEx);
      } else {
        r := UnmarshalUnknown(dAtA, start);
      }
    }

    method UnmarshalNumber(dAtA: bytes, fieldNum: int, iNdEx: nat) returns (r: Result<nat>)
      requires iNdEx <= |dAtA| <= MAX_INT && Message.Known(fieldNum) && Message.IsNumber(fieldNum, true)
      modifies this
      ensures match Varint.Read(dAtA, iNdEx)
              case Err(e) => r == Err(e)
              case Ok((v, k)) => r == Ok(k) && Model() == Message.SetNumber(old(Model()), fieldNum, v)
    {
      hide Varint.Read, Arithmetic.Truncate;
      var bits := if fieldNum == 5 || fieldNum == 6 then 32 else 64;
      var v := Varint.ReadVarint(dAtA, iNdEx, bits);
      if v.Err? {
        return Err(v.error);
      }
      Arithmetic.TruncateWidths(Varint.Read(dAtA, iNdEx).value.0);
      if fieldNum == 1 {
        id := v.value.0;
      } else if fieldNum == 4 {
        tokenid := v.value.0;
      } else if fieldNum == 5 {
        retry := v.value.0;
      } else {
        status := AsInt32(v.value.0);
      }
      return Ok(v.value.1);
    }

    method UnmarshalBytes(dAtA: bytes, fieldNum: int, iNdEx: nat) returns (r: Result<nat>)
      requires iNdEx <= |dAtA| <= MAX_INT && Message.Known(fieldNum) && !Message.IsNumber(fieldNum, true)
      modifies this
      ensures match Message.Blob(dAtA, iNdEx)
              case Err(e) => r == Err(e)
              case Ok((b, k)) => r == Ok(k) && Model() == Message.SetBytes(old(Model()), fieldNum, b)
    {
      hide Message.Blob;
      var b := Buffer.ReadBlob(dAtA, iNdEx);
      if b.Err? {
        return Err(b.error);
      }
      if fieldNum == 2 {
        token := b.value.0;
      } else if fieldNum == 3 {
        sender := b.value.0;
      } else {
        updatedAt := Some(b.value.0);
      }
      return Ok(b.value.1);
    }

    /** The default arm, which goes back to the start of the record. */
    method UnmarshalUnknown(dAtA: bytes, preIndex: nat) returns (r: Result<nat>)
      requires preIndex < |dAtA| <= MAX_INT
      modifies this
      ensures match Message.UnknownField(dAtA, preIndex, old(Model()))
              case Err(e) => r == Err(e)
              case Ok((m, k)) => r == Ok(k) && Model() == m
    {
      hide Records.Skip;
      var skippy := Records.SkipEvent(dAtA[preIndex..]);
      if skippy.Err? {
        return Err(skippy.error);
      }
      var end := AsInt64(preIndex + skippy.value);
      if end < 0 {
        return Err(InvalidLength);
      }
      if end > |dAtA| {
        return Err(UnexpectedEOF);
      }
      unrecognized := unrecognized + dAtA[preIndex..end];
      return Ok(end);
    }

    /** `Unmarshal` into whatever the object holds already. */
    method Unmarshal(dAtA: bytes) returns (e: Option<Error>)
      requires |dAtA| <= MAX_INT
      modifies this
      ensures match Message.Unmarshal(dAtA, old(Model()))
              case Err(error) => e == Some(error)
              case Ok(m) => e == None && Model() == m
    {
      hide Message.Step, Model;
      var l := |dAtA|;
      var iNdEx := 0;
      while iNdEx < l
        invariant iNdEx <= l
        invariant Message.Parse(dAtA, 0, old(Model())) == Message.Parse(dAtA, iNdEx, Model())
      {
        var turn := UnmarshalField(dAtA, iNdEx);
        if turn.Err? {
          return Some(turn.error);
        }
        iNdEx := turn.value;
      }
      return None;
    }

    method SetRetry(retry: uint32)
      modifies this
      ensures Model() == old(Model()).(retry := retry)
    {
      this.retry := retry;
    }

    method SetStatus(status: int32)
      modifies this
      ensures Model() == old(Model()).(status := status)
    {
      this.status := status;
    }

    /** The stored record, if there is one, is unmarshalled into what the object holds already. */
    method Get(db: DB) returns (r: Outcome)
      requires HoldsRecords(db.kv)
      modifies this
      ensures match Find(db.kv, EventKey(true, old(id)))
              case None => r == NotFound && Model() == old(Model())
              case Some(v) =>
                match Message.Unmarshal(v.text, old(Model()))
                case Err(e) => r == Corrupt(e)
                case Ok(m) => r == Found && Model() == m
    {
      hide Message.Unmarshal;
      var v := db.Get(EventKey(true, id));
      if v.None? {
        return NotFound;
      }
      var e := Unmarshal(v.value.text);
      return if e.None? then Found else Corrupt(e.value);
    }

    method Put(db: DB, works: bool) returns (ok: bool)
      requires |Encode(Model())| <= MAX_INT
      modifies db
      ensures ok == works
      ensures Find(db.kv, EventKey(true, id)) ==
                if ok then Some(Record(Encode(Model()))) else Find(old(db.kv), EventKey(true, id))
      ensures forall l :: l != EventKey(true, id) ==> Find(db.kv, l) == Find(old(db.kv), l)
    {
      hide Encode;
      var value := Marshal();
      ok := db.Put(EventKey(true, id), Record(value[..]), works);
    }
  }

  method ToEventERC20Deposited(e: Bank.Log) returns (m: EventERC20Deposited)
    requires e.Deposited?
    ensures fresh(m) && m.Model() == FromLog(false, e)
  {
    m := new EventERC20Deposited(e.id % TWO_64, e.token, e.sender, Decimal(e.value));
  }

  method ToEventNFTDeposited(e: Bank.Log) returns (m: EventNFTDeposited)
    requires e.Deposited?
    ensures fresh(m) && m.Model() == FromLog(true, e)
  {
    m := new EventNFTDeposited(e.id % TWO_64, e.token, e.sender, e.value % TWO_64);
  }

  /** The values the event interface has. */
  datatype Event = ERC20(erc20: EventERC20Deposited) | NFT(nft: EventNFTDeposited) {
    function Obj(): object {
      match this case ERC20(e) => e case NFT(e) => e
    }

    function Model(): Message.Msg
      reads Obj()
    {
      match this case ERC20(e) => e.Model() case NFT(e) => e.Model()
    }

    method SetRetry(retry: uint32)
      modifies Obj()
      ensures Model() == old(Model()).(retry := retry)
    {
      match this case ERC20(e) => e.SetRetry(retry); case NFT(e) => e.SetRetry(retry);
    }

    method SetStatus(status: int32)
      modifies Obj()
      ensures Model() == old(Model()).(status := status)
    {
      match this case ERC20(e) => e.SetStatus(status); case NFT(e) => e.SetStatus(status);
    }

    method Get(db: DB) returns (r: Outcome)
      requires HoldsRecords(db.kv)
      modifies Obj()
      ensures match Find(db.kv, EventKey(NFT?, old(Model()).id))
              case None => r == NotFound && Model() == old(Model())
              case Some(v) =>
                match Message.Unmarshal(v.text, old(Model()))
                case Err(e) => r == Corrupt(e)
                case Ok(m) => r == Found && Model() == m
    {
      hide Message.Unmarshal;
      match this case ERC20(e) => r := e.Get(db); case NFT(e) => r := e.Get(db);
    }

    method Put(db: DB, works: bool) returns (ok: bool)
      requires |Encode(Model())| <= MAX_INT
      modifies db
      ensures ok == works
      ensures Find(db.kv, EventKey(NFT?, Model().id))
           == if ok then Some(Record(Encode(Model()))) else Find(old(db.kv), EventKey(NFT?, Model().id))
      ensures forall l :: l != EventKey(NFT?, Model().id) ==> Find(db.kv, l) == Find(old(db.kv), l)
    {
      hide Encode;
      match this case ERC20(e) => ok := e.Put(db, works); case NFT(e) => ok := e.Put(db, works);
    }
  }

  /** `ToEvent` of either kind. */
  method ToEvent(nft: bool, d: Bank.Log) returns (e: Event)
    requires d.Deposited?
    ensures e.NFT? == nft && fresh(e.Obj()) && e.Model() == FromLog(nft, d)
  {
    if nft {
      var m := ToEventNFTDeposited(d);
      e := NFT(m);
    } else {
      var m := ToEventERC20Deposited(d);
      e := ERC20(m);
    }
  }
}
