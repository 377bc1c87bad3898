/**
 What a process has to do with the machine: which part of a state it remembers, which part the store
 holds, and where each of its actions takes both.
 */
module Process {
  import opened Bytes
  import opened Encoding
  import opened Events
  import opened Lanes
  import opened Message
  import opened Relayer
  import opened Seam
  import opened Store
  import Bank
  import Runs

  // ---------------------------------------------------------------- what is remembered

  /**
   What a process remembers of one kind: the messages in the event map, those in the hands of callbacks that
   are running, and the confirmed block.
   */
  datatype Part = Part(events: map<Hash, Msg>, calls: map<Hash, Msg>, confirmed: nat)
  datatype Memory = Memory(erc20: Part, nft: Part)

  function PartOf(m: Memory, nft: bool): Part {
    if nft then m.nft else m.erc20
  }

  function WithPart(m: Memory, nft: bool, p: Part): Memory {
    if nft then m.(nft := p) else m.(erc20 := p)
  }

  function EventsOf(l: Lane): map<Hash, Msg> {
    map h | h in l.entries && l.entries[h].phase.InMap? :: l.entries[h].event
  }

  function CallsOf(l: Lane): map<Hash, Msg> {
    map h | h in l.entries && l.entries[h].phase.InCallback? :: l.entries[h].event
  }

  predicate Tracks(l: Lane, p: Part) {
    EventsOf(l) == p.events && CallsOf(l) == p.calls && l.confirmed == p.confirmed
  }

  ghost function ModelsERC20(m: map<Hash, EventERC20Deposited>): map<Hash, Msg>
    reads m.Values
  {
    map h | h in m :: m[h].Model()
  }

  ghost function ModelsNFT(m: map<Hash, EventNFTDeposited>): map<Hash, Msg>
    reads m.Values
  {
    map h | h in m :: m[h].Model()
  }

  lemma WriteERC20(m: map<Hash, EventERC20Deposited>, h: Hash, v: EventERC20Deposited)
    ensures ModelsERC20(m[h := v]) == ModelsERC20(m)[h := v.Model()]
    ensures ModelsERC20(m - {h}) == ModelsERC20(m) - {h}
    ensures m[h := v].Values <= m.Values + {v} && (m - {h}).Values <= m.Values
  {}

  lemma WriteNFT(m: map<Hash, EventNFTDeposited>, h: Hash, v: EventNFTDeposited)
    ensures ModelsNFT(m[h := v]) == ModelsNFT(m)[h := v.Model()]
    ensures ModelsNFT(m - {h}) == ModelsNFT(m) - {h}
    ensures m[h := v].Values <= m.Values + {v} && (m - {h}).Values <= m.Values
  {}

  // ---------------------------------------------------------------- what is stored

  function StoredAs(l: Lane, id: nat): Option<Value> {
    if id in l.stored then Some(Record(Encode(l.stored[id]))) else None
  }

  ghost predicate StoresLane(kv: map<bytes, Value>, nft: bool, l: Lane) {
    && (forall id: uint64 :: Find(kv, EventKey(nft, id)) == StoredAs(l, id))
    && Watermark(Find(kv, BlockKey(nft))) == l.mark
  }

  ghost predicate StoresPairs(kv: map<bytes, Value>, pairs: map<bytes, bytes>) {
    forall token :: Find(kv, PairKey(token)) == if token in pairs then Some(Pair(pairs[token])) else None
  }

  /** The store holds what the machine says it does. */
  ghost predicate Stores(kv: map<bytes, Value>, s: State) {
    StoresLane(kv, false, s.erc20) && StoresLane(kv, true, s.nft) && StoresPairs(kv, s.pairs)
  }

  /** The machine is at `s`, with a process that remembers `m`. */
  ghost predicate Remembers(s: State, m: Memory) {
    Relayer.Inv(s) && s.up && Tracks(s.erc20, m.erc20) && Tracks(s.nft, m.nft)
  }

  /** And the store holds `kv`. */
  ghost predicate Holds(s: State, kv: map<bytes, Value>, m: Memory) {
    Remembers(s, m) && Stores(kv, s)
  }

  /** `t` keeps of `l` what the store holds. */
  predicate SameRecords(l: Lane, t: Lane) {
    t.stored == l.stored && t.mark == l.mark
  }

  lemma StoresFrame(kv: map<bytes, Value>, s: State, t: State)
    requires Stores(kv, s) && SameRecords(s.erc20, t.erc20) && SameRecords(s.nft, t.nft) && t.pairs == s.pairs
    ensures Stores(kv, t)
  {
    hide Encode;
    forall kind, id: uint64
      ensures StoredAs(LaneOf(t, kind), id) == StoredAs(LaneOf(s, kind), id)
    {}
  }

  /** An empty store is that of a fresh chain. */
  lemma EmptyStores(s: State)
    requires Init(s)
    ensures Stores(map[], s.(pairs := map[])) && Relayer.Inv(s) && !s.up
  {
    hide Relayer.Inv, FullKey;
    InitOk(s);
  }

  /** Stored records are short, so that they can be read. */
  lemma StoreHolds(kv: map<bytes, Value>, s: State)
    requires Relayer.Inv(s) && Stores(kv, s)
    ensures HoldsRecords(kv)
  {
    Runs.LogAndStore(s, false);
    Runs.LogAndStore(s, true);
    LaneParts(s, false);
    LaneParts(s, true);
    hide Relayer.Inv, Lanes.Inv, Encode, LogOk, Final, RecordOf, FromLog;
    forall nft, id: uint64 | Find(kv, EventKey(nft, id)).Some?
      ensures Find(kv, EventKey(nft, id)).value.Record? && |Find(kv, EventKey(nft, id)).value.text| <= MAX_INT
    {
      var l := LaneOf(s, nft);
      assert Find(kv, EventKey(nft, id)) == StoredAs(l, id);
      RecordsAreShort(l.stored[id], nft, l.log[id].deposit);
    }
  }

  /** A record whose status alone has changed is still short. */
  lemma Short(s: State, kind: bool, h: Hash, status: int32)
    requires Relayer.Inv(s) && h in LaneOf(s, kind).entries
    ensures |Encode(Marked(LaneOf(s, kind).entries[h].event, status))| <= MAX_INT
  {
    var l := LaneOf(s, kind);
    Runs.LaneCore(s, kind);
    LaneParts(s, kind);
    hide Relayer.Inv, Core, Lanes.Inv, Encode, MintTx;
    EntryHere(l, h);
    var e := l.entries[h].event;
    hide Flight;
    RecordsAreShort(e.(status := status), l.nft, l.log[e.id].deposit);
  }

  /** What a put of `e` leaves of the lanes. */
  predicate Wrote(s: State, t: State, kind: bool, e: Msg, ok: bool) {
    && t.pairs == s.pairs && SameRecords(LaneOf(s, !kind), LaneOf(t, !kind))
    && WroteLane(LaneOf(s, kind), LaneOf(t, kind), e, ok)
  }

  predicate WroteLane(l: Lane, t: Lane, e: Msg, ok: bool) {
    t.mark == l.mark && t.stored == if ok then l.stored[e.id := e] else l.stored
  }

  /** The store after a record of kind `kind` was put, or was not. */
  lemma PutStores(
    kv: map<bytes, Value>, kv': map<bytes, Value>, s: State, t: State, kind: bool, e: Msg, ok: bool)
    requires Stores(kv, s) && Wrote(s, t, kind, e, ok)
    requires Find(kv', EventKey(kind, e.id)) == if ok then Some(Record(Encode(e))) else Find(kv, EventKey(kind, e.id))
    requires forall l :: l != EventKey(kind, e.id) ==> Find(kv', l) == Find(kv, l)
    ensures Stores(kv', t)
  {
    hide Find, Encode;
    forall k, id: uint64
      ensures Find(kv', EventKey(k, id)) == StoredAs(LaneOf(t, k), id)
    {
      assert Find(kv, EventKey(k, id)) == StoredAs(LaneOf(s, k), id);
    }
  }

  /** The store after the watermark of a kind was put, or was not. */
  lemma PutMark(kv: map<bytes, Value>, kv': map<bytes, Value>, s: State, t: State, kind: bool, ok: bool)
    requires Stores(kv, s) && t.pairs == s.pairs && SameRecords(LaneOf(s, !kind), LaneOf(t, !kind))
    requires LaneOf(t, kind).stored == LaneOf(s, kind).stored
    requires LaneOf(t, kind).mark == (if ok then LaneOf(s, kind).confirmed else LaneOf(s, kind).mark) < TWO_64
    requires Find(kv', BlockKey(kind)) == if ok then Some(Block(LaneOf(t, kind).mark)) else Find(kv, BlockKey(kind))
    requires forall l :: l != BlockKey(kind) ==> Find(kv', l) == Find(kv, l)
    ensures Stores(kv', t)
  {
    hide Find, Encode;
    forall k, id: uint64
      ensures Find(kv', EventKey(k, id)) == StoredAs(LaneOf(t, k), id)
    {
      assert Find(kv, EventKey(k, id)) == StoredAs(LaneOf(s, k), id);
    }
  }

  lemma MarksFit(s: State, kv: map<bytes, Value>)
    requires Stores(kv, s)
    ensures s.erc20.mark < TWO_64 && s.nft.mark < TWO_64
  {}

  lemma MarkOf(kv: map<bytes, Value>, nft: bool, l: Lane)
    requires StoresLane(kv, nft, l)
    ensures Watermark(Find(kv, BlockKey(nft))) == l.mark
  {}

  // ---------------------------------------------------------------- the ends of a process

  predicate Idle(s: State) {
    s.erc20.fetch.None? && s.nft.fetch.None?
  }

  function Blank(s: State): Memory {
    Memory(Part(map[], map[], s.erc20.mark), Part(map[], map[], s.nft.mark))
  }

  lemma Rested(s: State)
    requires Relayer.Inv(s) && !s.up
    ensures Resting(s.erc20) && Resting(s.nft)
  {
    hide LanesOk, ChainOk, Registered;
  }

  lemma Restarted(s: State, kv: map<bytes, Value>, pairs: map<bytes, bytes>) returns (t: State)
    requires Relayer.Inv(s) && !s.up && Stores(kv, s.(pairs := pairs))
    ensures Runs.Goes(s, [Restart(pairs)], t) && Holds(t, kv, Blank(s)) && Idle(t)
  {
    t := s.(up := true, pairs := pairs);
    hide Relayer.Inv, Runs.Goes, Stores, Fits, Yields;
    RestartKeeps(s, pairs);
    Rested(s);
    Runs.GoesOne(s, Restart(pairs));
    StoresFrame(kv, s.(pairs := pairs), t);
  }

  /** A crash, at any moment, leaves a store that the next process can start from. */
  lemma CrashTarget(s: State, kv: map<bytes, Value>) returns (t: State)
    requires Relayer.Inv(s) && s.up && Stores(kv, s)
    ensures Runs.Goes(s, [Crash], t) && Relayer.Inv(t) && !t.up && Stores(kv, t)
  {
    hide Relayer.Inv, Stores, Runs.Goes;
    EndKeeps(s, Crash);
    t := Off(s, Down(s.erc20), Down(s.nft));
    Runs.GoesOne(s, Crash);
    StoresFrame(kv, s, t);
  }

  /** What a graceful end leaves, with both watermarks written. */
  lemma CloseTarget(s: State, kv: map<bytes, Value>, kv': map<bytes, Value>, kv'': map<bytes, Value>, m: Memory,
                    put20: bool, putNFT: bool)
    returns (t: State)
    requires Holds(s, kv, m) && Idle(s) && m.erc20.confirmed < TWO_64 && m.nft.confirmed < TWO_64
    requires Find(kv', BlockKey(false)) == if put20 then Some(Block(m.erc20.confirmed)) else Find(kv, BlockKey(false))
    requires forall l :: l != BlockKey(false) ==> Find(kv', l) == Find(kv, l)
    requires Find(kv'', BlockKey(true)) == if putNFT then Some(Block(m.nft.confirmed)) else Find(kv', BlockKey(true))
    requires forall l :: l != BlockKey(true) ==> Find(kv'', l) == Find(kv', l)
    ensures Runs.Goes(s, [Step.Close(put20, putNFT)], t) && Relayer.Inv(t) && !t.up && Stores(kv'', t)
  {
    hide Relayer.Inv, Stores, Find, Runs.Goes;
    var half := s.(erc20 := s.erc20.(mark := if put20 then s.erc20.confirmed else s.erc20.mark));
    MarksFit(s, kv);
    EndKeeps(s, Step.Close(put20, putNFT));
    t := Off(s, Lanes.Close(s.erc20, put20), Lanes.Close(s.nft, putNFT));
    Runs.GoesOne(s, Step.Close(put20, putNFT));
    PutMark(kv, kv', s, half, false, put20);
    PutMark(kv', kv'', half, t, true, putNFT);
  }

  // ---------------------------------------------------------------- a log is handled

  /**
   What happens to a transaction on its way out: its hash, whether the pair is read, and whether it is built
   and taken.
   */
  datatype Choice = Choice(hash: Hash, read: bool, built: bool, enqueued: bool)

  /** A step that changes one lane. */
  lemma NextRemembers(s: State, m: Memory, t: State, kind: bool, p: Part)
    requires Remembers(s, m) && Relayer.Inv(t) && t.up
    requires LaneOf(t, !kind) == LaneOf(s, !kind) && Tracks(LaneOf(t, kind), p)
    ensures Remembers(t, WithPart(m, kind, p))
  {
    hide Relayer.Inv, Tracks;
  }

  lemma HoldsParts(s: State, kv: map<bytes, Value>, m: Memory, kind: bool)
    requires Holds(s, kv, m)
    ensures Relayer.Inv(s) && s.up && Stores(kv, s) && Remembers(s, m) && Tracks(LaneOf(s, kind), PartOf(m, kind))
  {
    hide Relayer.Inv, Stores, Tracks;
  }

  lemma SentTracks(l: Lane, h: Hash, e: Msg, to: bytes, p: Part)
    requires Tracks(l, p) && h !in l.entries
    ensures Tracks(Sent(l, h, e, to), p.(events := p.events[h := e])) && SameRecords(l, Sent(l, h, e, to))
  {
    hide MintTx;
  }

  lemma RestTracks(l: Lane, t: Lane, p: Part)
    requires Tracks(l, p) && t.entries == l.entries && t.confirmed == l.confirmed
    ensures Tracks(t, p)
  {}

  lemma HandleTracks(l: Lane, id: nat, pairs: map<bytes, bytes>, read: bool, h: Hash, p: Part)
    requires Yields(l, id) && h !in l.entries && Tracks(l, p)
    ensures var t := Lanes.Handle(l, id, pairs, read, h);
            && SameRecords(l, t)
            && Tracks(t, if Sends(l, id, pairs, read) then p.(events := p.events[h := Get(l, id).value]) else p)
  {
    hide Get, Sent, Tracks;
    RestTracks(l, TakePending(l, id), p);
    if Sends(l, id, pairs, read) {
      SentTracks(TakePending(l, id), h, Get(l, id).value, pairs[Get(l, id).value.token], p);
    } else {
      RestTracks(l, Lanes.Handle(l, id, pairs, read, h), p);
    }
  }

  /** What a `Handle` step leaves. */
  lemma HandleStep(s: State, kind: bool, id: nat, read: bool, h: Hash) returns (t: State)
    requires Relayer.Inv(s) && s.up && Yields(LaneOf(s, kind), id) && h !in s.used
    ensures Runs.Goes(s, [Step.Handle(kind, id, read, h)], t)
    ensures Relayer.Inv(t) && t.up && t.pairs == s.pairs && LaneOf(t, !kind) == LaneOf(s, !kind)
    ensures LaneOf(t, kind) == Lanes.Handle(LaneOf(s, kind), id, s.pairs, read, h) && h !in LaneOf(s, kind).entries
  {
    hide Relayer.Inv, Lanes.Handle, Get, Sends, Fits, MapEmpty, Running, Runs.Goes;
    Relayer.HandleKeeps(s, kind, id, read, h);
    LaneParts(s, kind);
    hide Lanes.Inv;
    NotUsed(s, kind, h);
    hide Registered, HandleIn;
    HandleGoes(s, kind, id, read, h);
    HandleLanes(s, kind, id, read, h);
    t := HandleIn(s, kind, id, read, h);
  }

  lemma HandleLanes(s: State, kind: bool, id: nat, read: bool, h: Hash)
    requires Yields(LaneOf(s, kind), id)
    ensures var t := HandleIn(s, kind, id, read, h);
            && t.up == s.up && t.pairs == s.pairs && LaneOf(t, !kind) == LaneOf(s, !kind)
            && LaneOf(t, kind) == Lanes.Handle(LaneOf(s, kind), id, s.pairs, read, h)
  {
    hide Lanes.Handle, Get, Sends;
  }

  lemma HandleGoes(s: State, kind: bool, id: nat, read: bool, h: Hash)
    requires s.up && Yields(LaneOf(s, kind), id) && h !in s.used
    ensures Runs.Goes(s, [Step.Handle(kind, id, read, h)], HandleIn(s, kind, id, read, h))
  {
    hide Runs.Goes, HandleIn, Yields, LaneOf;
    Runs.GoesOne(s, Step.Handle(kind, id, read, h));
  }

  /** What the store shows `Get` is what the machine sees. */
  lemma Seen(kv: map<bytes, Value>, s: State, kind: bool, id: nat)
    requires Relayer.Inv(s) && Stores(kv, s) && id < |LaneOf(s, kind).log|
    ensures LaneOf(s, kind).log[id].deposit.Deposited? && id < TWO_64 && Get(LaneOf(s, kind), id).Ok?
    ensures FromLog(kind, LaneOf(s, kind).log[id].deposit).id == id == Get(LaneOf(s, kind), id).value.id
    ensures match Find(kv, EventKey(kind, id))
            case None =>
              && id !in LaneOf(s, kind).stored
              && Get(LaneOf(s, kind), id).value == FromLog(kind, LaneOf(s, kind).log[id].deposit)
            case Some(v) =>
              && id in LaneOf(s, kind).stored && v.Record?
              && Unmarshal(v.text, FromLog(kind, LaneOf(s, kind).log[id].deposit)) == Get(LaneOf(s, kind), id)
  {
    var l := LaneOf(s, kind);
    Runs.LogAndStore(s, kind);
    LaneParts(s, kind);
    assert |l.log| <= TWO_64;
    hide Relayer.Inv, Lanes.Inv, Encode, Unmarshal, StoredOk, RecordOf, Decimal;
    GetSeesStored(l, s.head, id);
    assert Find(kv, EventKey(kind, id)) == StoredAs(l, id);
  }

  /** `Get` makes the log of deposit `id` into `m`. */
  predicate Gets(l: Lane, id: nat, m: Msg) {
    id < |l.log| && l.log[id].deposit.Deposited? && Get(l, id) == Ok(m)
  }

  lemma SendsIs(l: Lane, id: nat, m: Msg, pairs: map<bytes, bytes>, read: bool)
    requires Yields(l, id) && Gets(l, id, m)
    ensures Sends(l, id, pairs, read) <==> !(id in l.stored && m.status == SUCCEEDED) && read && m.token in pairs
  {
    hide Get;
  }

  /** The memory with an event entered in the map. */
  function Noted(m: Memory, kind: bool, h: Hash, e: Msg): Memory {
    WithPart(m, kind, PartOf(m, kind).(events := PartOf(m, kind).events[h := e]))
  }

  /** What is left of a part when a log has been handled. */
  function Handled(p: Part, pairs: map<bytes, bytes>, c: Choice, e: Msg, found: bool): Part {
    if (found && e.status == SUCCEEDED) || !c.read || e.token !in pairs then p
    else p.(events := p.events[c.hash := e])
  }

  lemma HandledIs(m: Memory, kind: bool, pairs: map<bytes, bytes>, c: Choice, e: Msg, found: bool)
    ensures var p := PartOf(m, kind);
            WithPart(m, kind, Handled(p, pairs, c, e, found)) ==
              if (found && e.status == SUCCEEDED) || !c.read || e.token !in pairs then m
              else Noted(m, kind, c.hash, e)
  {}

  lemma YieldsHere(l: Lane, id: nat)
    requires Yields(l, id)
    ensures id < |l.log| && l.log[id].deposit.Deposited?
  {}

  lemma HandledTracks(l: Lane, id: nat, pairs: map<bytes, bytes>, c: Choice, e: Msg, found: bool, p: Part)
    requires Yields(l, id) && c.hash !in l.entries && Tracks(l, p)
    requires Gets(l, id, e) && found == (id in l.stored)
    ensures var t := Lanes.Handle(l, id, pairs, c.read, c.hash);
            SameRecords(l, t) && Tracks(t, Handled(p, pairs, c, e, found))
  {
    hide Lanes.Handle, Get, Tracks, SameRecords;
    HandleTracks(l, id, pairs, c.read, c.hash, p);
  }

  /** Where a `Handle` step of message `e` leads. */
  lemma HandleTarget(s: State, kv: map<bytes, Value>, m: Memory, kind: bool, id: nat, c: Choice, e: Msg, found: bool)
    returns (t: State)
    requires Holds(s, kv, m) && Yields(LaneOf(s, kind), id) && c.hash !in s.used
    requires Gets(LaneOf(s, kind), id, e) && found == (id in LaneOf(s, kind).stored)
    ensures Runs.Goes(s, [Step.Handle(kind, id, c.read, c.hash)], t)
    ensures Holds(t, kv, WithPart(m, kind, Handled(PartOf(m, kind), s.pairs, c, e, found)))
  {
    HoldsParts(s, kv, m, kind);
    hide Remembers, Relayer.Inv, Lanes.Handle, Get, Tracks, Runs.Goes, Stores, LaneOf, Handled, SameRecords, Gets;
    hide Yields;
    t := HandleStep(s, kind, id, c.read, c.hash);
    HandledTracks(LaneOf(s, kind), id, s.pairs, c, e, found, PartOf(m, kind));
    SameLanes(s, kv, t, kind);
    NextRemembers(s, m, t, kind, Handled(PartOf(m, kind), s.pairs, c, e, found));
  }

  lemma SameLanes(s: State, kv: map<bytes, Value>, t: State, kind: bool)
    requires Stores(kv, s) && t.pairs == s.pairs && LaneOf(t, !kind) == LaneOf(s, !kind)
    requires SameRecords(LaneOf(s, kind), LaneOf(t, kind))
    ensures Stores(kv, t)
  {
    hide Stores;
    StoresFrame(kv, s, t);
  }

  // ---------------------------------------------------------------- a callback in two halves

  lemma BeginTracks(l: Lane, h: Hash, v: Verdict, p: Part)
    requires Tracks(l, p) && InMapOf(l, h)
    ensures SameRecords(l, Begin(l, h, v)) && h in p.events
    ensures h in Begin(l, h, v).entries && Begin(l, h, v).entries[h].phase == InCallback(v)
    ensures Tracks(Begin(l, h, v), p.(events := p.events - {h}, calls := p.calls[h := p.events[h]]))
  {
    hide MintTx;
  }

  /** What is left in memory when a callback has taken its event from the map. */
  function TakenOut(m: Memory, kind: bool, h: Hash): Memory
    requires h in PartOf(m, kind).events
  {
    var p := PartOf(m, kind);
    WithPart(m, kind, p.(events := p.events - {h}, calls := p.calls[h := p.events[h]]))
  }

  lemma InEvents(l: Lane, p: Part, h: Hash)
    requires Tracks(l, p)
    ensures h in p.events <==> InMapOf(l, h)
    ensures h in p.calls <==> Running(l, h)
    ensures h in p.events ==> l.entries[h].event == p.events[h]
    ensures h in p.calls ==> l.entries[h].event == p.calls[h]
  {
    assert h in p.events <==> h in EventsOf(l);
    assert h in p.calls <==> h in CallsOf(l);
  }

  /** Two transactions in flight are of different deposits. */
  lemma Alone(s: State, m: Memory, kind: bool)
    requires Remembers(s, m)
    ensures forall g, h :: g in PartOf(m, kind).calls && h in PartOf(m, kind).calls && g != h ==>
              PartOf(m, kind).calls[g].id != PartOf(m, kind).calls[h].id
    ensures forall g, h :: g in PartOf(m, kind).events && h in PartOf(m, kind).calls ==>
              PartOf(m, kind).events[g].id != PartOf(m, kind).calls[h].id
  {
    var l, p := LaneOf(s, kind), PartOf(m, kind);
    Runs.LaneCore(s, kind);
    Lone(l);
    hide Relayer.Inv, Core, Flight;
    forall g
      ensures g in p.events <==> InMapOf(l, g)
      ensures g in p.calls <==> Running(l, g)
      ensures g in p.events ==> l.entries[g].event == p.events[g]
      ensures g in p.calls ==> l.entries[g].event == p.calls[g]
    {
      InEvents(l, p, g);
    }
  }

  lemma Lone(l: Lane)
    requires Flight(l)
    ensures Unique(l)
  {}

  /** Whether a call of the confirmer finds its event. */
  lemma Called(s: State, kv: map<bytes, Value>, m: Memory, h: Hash)
    requires Holds(s, kv, m) && h !in s.stuck
    ensures h in s.outstanding <==> h in m.erc20.events || h in m.nft.events
    ensures !(h in m.erc20.events && h in m.nft.events)
  {
    HoldsParts(s, kv, m, false);
    HoldsParts(s, kv, m, true);
    LaneParts(s, false);
    hide Holds, Relayer.Inv, Stores, Tracks, Lanes.Inv;
    InEvents(s.erc20, m.erc20, h);
    InEvents(s.nft, m.nft, h);
    assert InERC20(s, h) || InNFT(s, h) <==> h in s.outstanding || h in s.stuck;
  }

  /** Half done, the event is out of the map. */
  lemma Begun(s: State, kind: bool, h: Hash, v: Verdict)
    requires Registered(s) && h in s.outstanding && InMapOf(LaneOf(s, kind), h)
    ensures var t := CallbackIn(s, h, v);
            && t.up == s.up && t.pairs == s.pairs && t.used == s.used && t.outstanding == s.outstanding - {h}
            && LaneOf(t, kind) == Begin(LaneOf(s, kind), h, v) && LaneOf(t, !kind) == LaneOf(s, !kind)
  {}

  lemma TakeStep(s: State, kind: bool, h: Hash, v: Verdict) returns (t: State)
    requires Relayer.Inv(s) && s.up && h in s.outstanding && InMapOf(LaneOf(s, kind), h)
    ensures Runs.Goes(s, [Callback(h, v)], t)
    ensures Relayer.Inv(t) && t.up && t.pairs == s.pairs && t.used == s.used
    ensures LaneOf(t, kind) == Begin(LaneOf(s, kind), h, v) && LaneOf(t, !kind) == LaneOf(s, !kind)
  {
    LaneParts(s, kind);
    hide Relayer.Inv, Lanes.Inv, Registered, Runs.Goes, CallbackIn, LaneOf, InMapOf, Begin;
    Begun(s, kind, h, v);
    Relayer.CallbackKeeps(s, h, v);
    t := CallbackIn(s, h, v);
    CallbackGoes(s, h, v);
  }

  lemma CallbackGoes(s: State, h: Hash, v: Verdict)
    requires s.up && h in s.outstanding
    ensures Runs.Goes(s, [Callback(h, v)], CallbackIn(s, h, v))
  {
    hide Runs.Goes, CallbackIn;
    Runs.GoesOne(s, Callback(h, v));
  }

  /** Where the first half of a callback leads. */
  lemma TakeTarget(s: State, kv: map<bytes, Value>, m: Memory, kind: bool, h: Hash, v: Verdict) returns (t: State)
    requires Holds(s, kv, m) && h in s.outstanding && h in PartOf(m, kind).events
    ensures Runs.Goes(s, [Callback(h, v)], t) && Holds(t, kv, TakenOut(m, kind, h))
    ensures t.used == s.used && Judged(t, kind, h, v)
  {
    HoldsParts(s, kv, m, kind);
    hide Remembers, Relayer.Inv, Stores, Tracks, Runs.Goes, LaneOf, InMapOf, Begin;
    var p := PartOf(m, kind);
    InEvents(LaneOf(s, kind), p, h);
    t := TakeStep(s, kind, h, v);
    BeginTracks(LaneOf(s, kind), h, v, p);
    SameLanes(s, kv, t, kind);
    NextRemembers(s, m, t, kind, p.(events := p.events - {h}, calls := p.calls[h := p.events[h]]));
  }

  /** The verdict a running callback was called with. */
  predicate Judged(s: State, kind: bool, h: Hash, v: Verdict) {
    h in LaneOf(s, kind).entries && LaneOf(s, kind).entries[h].phase == InCallback(v)
  }

  function FinishOf(h: Hash, works: bool, c: Choice): Step {
    Finish(h, works, c.read, c.built, c.enqueued, c.hash)
  }

  lemma FinishStep(s: State, kind: bool, h: Hash, works: bool, c: Choice) returns (t: State)
    requires Relayer.Inv(s) && s.up && Running(LaneOf(s, kind), h) && c.hash !in s.used
    ensures Runs.Goes(s, [FinishOf(h, works, c)], t)
    ensures Relayer.Inv(t) && t.up && t.pairs == s.pairs && LaneOf(t, !kind) == LaneOf(s, !kind)
    ensures LaneOf(t, kind) == Finished(LaneOf(s, kind), h, s.pairs, works, c.read, c.built, c.hash)
    ensures c.hash !in LaneOf(s, kind).entries
  {
    OneKind(s, kind, h);
    LaneParts(s, kind);
    hide Relayer.Inv, Lanes.Inv, Finished, Runs.Goes, FinishIn, LaneOf, Running;
    NotUsed(s, kind, c.hash);
    hide Registered;
    Relayer.FinishKeeps(s, kind, h, works, c.read, c.built, c.enqueued, c.hash);
    Ended(s, kind, h, works, c.read, c.built, c.enqueued, c.hash);
    t := FinishIn(s, kind, h, works, c.read, c.built, c.enqueued, c.hash);
    FinishGoes(s, kind, h, works, c);
  }

  lemma FinishGoes(s: State, kind: bool, h: Hash, works: bool, c: Choice)
    requires s.up && Running(LaneOf(s, kind), h) && kind == !Running(s.erc20, h) && c.hash !in s.used
    ensures Runs.Goes(s, [FinishOf(h, works, c)], FinishIn(s, kind, h, works, c.read, c.built, c.enqueued, c.hash))
  {
    hide Runs.Goes, FinishIn, Running;
    Runs.GoesOne(s, FinishOf(h, works, c));
  }

  lemma OneKind(s: State, kind: bool, h: Hash)
    requires Relayer.Inv(s) && Running(LaneOf(s, kind), h)
    ensures kind == !Running(s.erc20, h)
  {
    Runs.OneLane(s, h);
    hide Relayer.Inv, Running;
  }

  lemma Ended(
    s: State, kind: bool, h: Hash, putOk: bool, read: bool, built: bool, enqueued: bool, next: Hash)
    requires Running(LaneOf(s, kind), h)
    ensures var t := FinishIn(s, kind, h, putOk, read, built, enqueued, next);
            && t.up == s.up && t.pairs == s.pairs && LaneOf(t, !kind) == LaneOf(s, !kind)
            && LaneOf(t, kind) == Finished(LaneOf(s, kind), h, s.pairs, putOk, read, built, next)
  {
    hide Finished, Resent;
  }

  /** The status a verdict ends in at once, if it does. */
  function Verdicts(v: Verdict, retry: uint32): Option<int32> {
    if v.Confirmed? then Some(SUCCEEDED) else if v.OtherError? || retry >= 3 then Some(FAILED) else None
  }

  lemma DroppedTracks(l: Lane, t: Lane, h: Hash, p: Part)
    requires Tracks(l, p) && Running(l, h) && t.entries == l.entries - {h} && t.confirmed == l.confirmed
    ensures Tracks(t, p.(calls := p.calls - {h}))
  {}

  /** A message with its status set. */
  function Marked(e: Msg, status: int32): Msg {
    e.(status := status)
  }

  lemma SettledTracks(
    l: Lane, h: Hash, v: Verdict, pairs: map<bytes, bytes>, works: bool, c: Choice, p: Part, status: int32)
    requires Tracks(l, p) && h in l.entries && l.entries[h].phase == InCallback(v)
    requires h in p.calls && Verdicts(v, p.calls[h].retry) == Some(status)
    ensures var t := Finished(l, h, pairs, works, c.read, c.built, c.hash);
            Tracks(t, p.(calls := p.calls - {h})) && WroteLane(l, t, Marked(p.calls[h], status), works)
  {
    InEvents(l, p, h);
    hide MintTx, Tracks;
    DroppedTracks(l, Finished(l, h, pairs, works, c.read, c.built, c.hash), h, p);
  }

  /** What is left of a part when a callback has sent its event again, or could not. */
  function Retried(p: Part, h: Hash, pairs: map<bytes, bytes>, c: Choice, e: Msg): Part {
    if c.read && e.token in pairs && c.built then p.(calls := p.calls - {h}, events := p.events[c.hash := e])
    else p.(calls := p.calls - {h})
  }

  /** A message with its retry count raised. */
  function Raised(e: Msg): Msg
    requires e.retry < 3
  {
    e.(retry := e.retry + 1)
  }

  lemma RetriedTracks(l: Lane, h: Hash, pairs: map<bytes, bytes>, works: bool, c: Choice, p: Part, e: Msg)
    requires Tracks(l, p) && h in l.entries && l.entries[h].phase == InCallback(TxFailed) && c.hash !in l.entries
    requires h in p.calls && p.calls[h].retry < 3 && e == Raised(p.calls[h])
    ensures var t := Finished(l, h, pairs, works, c.read, c.built, c.hash);
            SameRecords(l, t) && Tracks(t, Retried(p, h, pairs, c, e))
  {
    InEvents(l, p, h);
    hide Sent, Tracks;
    var rest, q := TakeEntry(l, h), p.(calls := p.calls - {h});
    DroppedTracks(l, rest, h, p);
    if c.read && e.token in pairs && c.built {
      SentTracks(rest, c.hash, e, pairs[e.token], q);
    } else {
      DroppedTracks(l, Finished(l, h, pairs, works, c.read, c.built, c.hash), h, p);
    }
  }

  /** What is left in memory when a callback has finished with its event. */
  function Freed(m: Memory, kind: bool, h: Hash): Memory {
    WithPart(m, kind, PartOf(m, kind).(calls := PartOf(m, kind).calls - {h}))
  }

  /** Where the last action of a callback leads that ends the deposit. */
  lemma ConcludeTarget(s: State, kv: map<bytes, Value>, m: Memory, kind: bool, h: Hash, v: Verdict, works: bool,
                       c: Choice, status: int32) returns (t: State)
    requires Holds(s, kv, m) && c.hash !in s.used && Judged(s, kind, h, v) && h in PartOf(m, kind).calls
    requires Verdicts(v, PartOf(m, kind).calls[h].retry) == Some(status)
    ensures Runs.Goes(s, [FinishOf(h, works, c)], t) && Remembers(t, Freed(m, kind, h))
    ensures var e := Marked(PartOf(m, kind).calls[h], status); |Encode(e)| <= MAX_INT && Wrote(s, t, kind, e, works)
  {
    HoldsParts(s, kv, m, kind);
    hide Relayer.Inv, Tracks, Finished, Runs.Goes, Verdicts, Encode, Stores, FinishOf, Remembers, LaneOf, PartOf;
    var l, p := LaneOf(s, kind), PartOf(m, kind);
    InEvents(l, p, h);
    t := FinishStep(s, kind, h, works, c);
    SettledTracks(l, h, v, s.pairs, works, c, p, status);
    Short(s, kind, h, status);
    hide WroteLane, Marked;
    NextRemembers(s, m, t, kind, p.(calls := p.calls - {h}));
  }

  lemma RetriedIs(m: Memory, kind: bool, h: Hash, pairs: map<bytes, bytes>, c: Choice, e: Msg)
    ensures WithPart(m, kind, Retried(PartOf(m, kind), h, pairs, c, e)) ==
              if !c.read || e.token !in pairs || !c.built then Freed(m, kind, h)
              else Noted(Freed(m, kind, h), kind, c.hash, e)
  {}

  /** Where the last action of a callback leads that sends the deposit again. */
  lemma RetryTarget(s: State, kv: map<bytes, Value>, m: Memory, kind: bool, h: Hash, works: bool, c: Choice, e: Msg)
    returns (t: State)
    requires Holds(s, kv, m) && c.hash !in s.used && Judged(s, kind, h, TxFailed) && h in PartOf(m, kind).calls
    requires PartOf(m, kind).calls[h].retry < 3 && e == Raised(PartOf(m, kind).calls[h])
    ensures Runs.Goes(s, [FinishOf(h, works, c)], t)
    ensures Holds(t, kv, WithPart(m, kind, Retried(PartOf(m, kind), h, s.pairs, c, e)))
  {
    HoldsParts(s, kv, m, kind);
    hide Relayer.Inv, Tracks, Finished, Runs.Goes, Stores, FinishOf, Remembers, LaneOf, PartOf, Retried, SameRecords;
    hide Raised;
    var l, p := LaneOf(s, kind), PartOf(m, kind);
    InEvents(l, p, h);
    t := FinishStep(s, kind, h, works, c);
    RetriedTracks(l, h, s.pairs, works, c, p, e);
    SameLanes(s, kv, t, kind);
    NextRemembers(s, m, t, kind, Retried(p, h, s.pairs, c, e));
  }

  // ---------------------------------------------------------------- a fetch

  /** A fetch of one kind runs, up to block `end`. */
  predicate Fetching(s: State, kind: bool, end: nat) {
    LaneOf(s, kind).fetch.Some? && LaneOf(s, kind).fetch.value.end == end && LaneOf(s, !kind).fetch.None?
  }

  /** And there is nothing left to yield. */
  predicate Fetched(s: State, kind: bool, end: nat) {
    LaneOf(s, kind).fetch == Some(Fetch(end, {})) && LaneOf(s, !kind).fetch.None?
  }

  lemma EmptyIff(l: Lane, p: Part)
    requires Tracks(l, p)
    ensures p.events.Keys == {} <==> MapEmpty(l)
  {
    if p.events.Keys == {} {
      forall h | h in l.entries
        ensures !l.entries[h].phase.InMap?
      {
        InEvents(l, p, h);
      }
    }
    if MapEmpty(l) {
      forall h
        ensures h !in p.events
      {
        InEvents(l, p, h);
      }
    }
  }

  lemma SameTracks(l: Lane, t: Lane, p: Part)
    requires Tracks(l, p) && t.entries == l.entries
    ensures Tracks(t, p.(confirmed := t.confirmed))
  {}

  lemma NextKeeps(s: State, m: Memory, t: State, kind: bool, l: Lane)
    requires Remembers(s, m) && Relayer.Inv(t) && t == With(s, kind, l) && l.entries == LaneOf(s, kind).entries
    ensures Remembers(t, WithPart(m, kind, PartOf(m, kind).(confirmed := l.confirmed)))
    ensures l.confirmed == LaneOf(s, kind).confirmed ==> Remembers(t, m)
  {
    hide Relayer.Inv;
    SameTracks(LaneOf(s, kind), l, PartOf(m, kind));
  }

  lemma LaneChanges(s: State, kv: map<bytes, Value>, m: Memory, kind: bool, l: Lane)
    requires Holds(s, kv, m) && Relayer.Inv(With(s, kind, l))
    requires l.entries == LaneOf(s, kind).entries && SameRecords(LaneOf(s, kind), l)
    ensures Holds(With(s, kind, l), kv, WithPart(m, kind, PartOf(m, kind).(confirmed := l.confirmed)))
    ensures l.confirmed == LaneOf(s, kind).confirmed ==> Holds(With(s, kind, l), kv, m)
  {
    hide Relayer.Inv, Stores, Remembers;
    NextKeeps(s, m, With(s, kind, l), kind, l);
    SameLanes(s, kv, With(s, kind, l), kind);
  }

  lemma TickGoes(s: State, kind: bool, end: nat, putOk: bool)
    requires s.up && Idle(s) && LaneOf(s, kind).confirmed <= end <= s.head
    requires MapEmpty(LaneOf(s, kind)) && TickSafe(LaneOf(s, kind), putOk)
    ensures Runs.Goes(s, [Step.Tick(kind, end, putOk)], With(s, kind, Lanes.Tick(LaneOf(s, kind), end, putOk)))
  {
    hide Runs.Goes, Lanes.Tick, TickSafe;
    Runs.GoesOne(s, Step.Tick(kind, end, putOk));
  }

  /** Where a tick leads that finds the map empty. */
  lemma TickTarget(s: State, kv: map<bytes, Value>, kv': map<bytes, Value>, m: Memory, kind: bool, end: nat,
                   putOk: bool) returns (t: State)
    requires Holds(s, kv, m) && Idle(s) && LaneOf(s, kind).confirmed <= end <= s.head
    requires PartOf(m, kind).events.Keys == {} && PartOf(m, kind).confirmed < TWO_64
    requires TickSafe(LaneOf(s, kind), putOk)
    requires Find(kv', BlockKey(kind)) ==
               if putOk then Some(Block(PartOf(m, kind).confirmed)) else Find(kv, BlockKey(kind))
    requires forall l :: l != BlockKey(kind) ==> Find(kv', l) == Find(kv, l)
    ensures Runs.Goes(s, [Step.Tick(kind, end, putOk)], t) && Holds(t, kv', m) && Fetching(t, kind, end)
  {
    HoldsParts(s, kv, m, kind);
    EmptyIff(LaneOf(s, kind), PartOf(m, kind));
    MarksFit(s, kv);
    assert PartOf(m, kind).confirmed == LaneOf(s, kind).confirmed;
    hide Relayer.Inv, Find, Stores, InRange, Runs.Goes, Remembers, TickSafe, Tracks, MapEmpty;
    var l := Lanes.Tick(LaneOf(s, kind), end, putOk);
    t := With(s, kind, l);
    TickGoes(s, kind, end, putOk);
    hide Enabled, Next, Disciplined;
    TickInv(s, kind, end, putOk);
    PutMark(kv, kv', s, t, kind, putOk);
    NextKeeps(s, m, t, kind, l);
  }

  lemma TickInv(s: State, kind: bool, end: nat, putOk: bool)
    requires Relayer.Inv(s) && s.up && Idle(s) && LaneOf(s, kind).confirmed <= end <= s.head
    requires MapEmpty(LaneOf(s, kind)) && TickSafe(LaneOf(s, kind), putOk)
    ensures Relayer.Inv(With(s, kind, Lanes.Tick(LaneOf(s, kind), end, putOk)))
  {
    hide Relayer.Inv, TickSafe, Lanes.Tick;
    Relayer.TickKeeps(s, kind, end, putOk);
  }

  /** Where it leads that the filter yields no more. */
  lemma StopTarget(s: State, kv: map<bytes, Value>, m: Memory, kind: bool, end: nat) returns (t: State)
    requires Holds(s, kv, m) && Fetching(s, kind, end)
    ensures Runs.Goes(s, [Step.FilterStops(kind)], t) && Holds(t, kv, m) && Fetched(t, kind, end)
  {
    HoldsParts(s, kv, m, kind);
    hide Relayer.Inv, Stores, Runs.Goes, Holds, Tracks;
    var l := Lanes.FilterStops(LaneOf(s, kind));
    t := With(s, kind, l);
    StopGoes(s, kind);
    LaneChanges(s, kv, m, kind, l);
  }

  lemma StopGoes(s: State, kind: bool)
    requires Relayer.Inv(s) && s.up && LaneOf(s, kind).fetch.Some?
    ensures var t := With(s, kind, Lanes.FilterStops(LaneOf(s, kind)));
            Runs.Goes(s, [Step.FilterStops(kind)], t) && Relayer.Inv(t)
  {
    hide Relayer.Inv, Runs.Goes, Lanes.FilterStops;
    Relayer.FilterStopsKeeps(s, kind);
    Runs.GoesOne(s, Step.FilterStops(kind));
  }

  /** Where the end of a fetch leads. */
  lemma EndTarget(s: State, kv: map<bytes, Value>, m: Memory, kind: bool, end: nat) returns (t: State)
    requires Holds(s, kv, m) && Fetched(s, kind, end)
    ensures Runs.Goes(s, [Step.EndFetch(kind)], t) && Idle(t)
    ensures Holds(t, kv, WithPart(m, kind, PartOf(m, kind).(confirmed := end)))
  {
    HoldsParts(s, kv, m, kind);
    hide Relayer.Inv, Stores, Runs.Goes, Holds, Tracks;
    var l := Lanes.EndFetch(LaneOf(s, kind));
    t := With(s, kind, l);
    EndGoes(s, kind);
    LaneChanges(s, kv, m, kind, l);
  }

  lemma EndGoes(s: State, kind: bool)
    requires Relayer.Inv(s) && s.up && LaneOf(s, kind).fetch.Some? && LaneOf(s, kind).fetch.value.pending == {}
    ensures var t := With(s, kind, Lanes.EndFetch(LaneOf(s, kind)));
            Runs.Goes(s, [Step.EndFetch(kind)], t) && Relayer.Inv(t)
  {
    hide Relayer.Inv, Runs.Goes, Lanes.EndFetch;
    Relayer.EndFetchKeeps(s, kind);
    Runs.GoesOne(s, Step.EndFetch(kind));
  }

  /** The chain moving on leaves the process where it is. */
  lemma MineTarget(s: State, kv: map<bytes, Value>, m: Memory, calls: Bank.Calls) returns (t: State)
    requires Holds(s, kv, m) && Enabled(s, Step.Mine(calls))
    ensures Runs.Goes(s, [Step.Mine(calls)], t) && Holds(t, kv, m)
  {
    hide Relayer.Inv, Stores, Runs.Goes, NewLogs, BankLog, Bank.RunAll, Fits, Tracks;
    Relayer.MineKeeps(s, calls);
    t := Next(s, Step.Mine(calls));
    Runs.GoesOne(s, Step.Mine(calls));
    StoresFrame(kv, s, t);
    RestTracks(s.erc20, t.erc20, m.erc20);
    RestTracks(s.nft, t.nft, m.nft);
  }

  // ---------------------------------------------------------------- what happens meanwhile

  /**
   What the process meets between one action of its main loop and the next: a log the filter yields, either
   half of a callback, or a block.
   */
  datatype Happening =
    | Arrives(deposit: Bank.Log, choice: Choice)
    | CallBegins(hash: Hash, verdict: Verdict)
    | CallEnds(hash: Hash, verdict: Verdict, works: bool, choice: Choice)
    | Mined(calls: Bank.Calls)

  /** The step of the machine that it is. */
  function StepOf(kind: bool, a: Happening): Step {
    match a
    case Arrives(d, c) => Step.Handle(kind, if d.Deposited? then d.id else 0, c.read, c.hash)
    case CallBegins(h, v) => Callback(h, v)
    case CallEnds(h, v, works, c) => FinishOf(h, works, c)
    case Mined(calls) => Step.Mine(calls)
  }

  function StepsOf(kind: bool, hs: seq<Happening>): (steps: seq<Step>)
    ensures |steps| == |hs|
  {
    seq(|hs|, i requires 0 <= i < |hs| => StepOf(kind, hs[i]))
  }

  /** A log is one of the chain, and a callback ends with the verdict it began with. */
  predicate Truthful(s: State, kind: bool, a: Happening) {
    match a
    case Arrives(d, _) => d.Deposited? && d.id < |LaneOf(s, kind).log| && LaneOf(s, kind).log[d.id].deposit == d
    case CallEnds(h, v, _, _) => Judged(s, false, h, v) || Judged(s, true, h, v)
    case _ => true
  }

  /** All this can happen, one after the other: the assumptions on chain, filter, confirmer and nonces. */
  predicate Plausible(s: State, kind: bool, hs: seq<Happening>)
    decreases |hs|
  {
    hs == [] ||
    (&& Enabled(s, StepOf(kind, hs[0])) && Truthful(s, kind, hs[0])
     && Plausible(Next(s, StepOf(kind, hs[0])), kind, hs[1..]))
  }

  lemma First(s: State, kind: bool, hs: seq<Happening>)
    requires hs != [] && Plausible(s, kind, hs)
    ensures Enabled(s, StepOf(kind, hs[0])) && Truthful(s, kind, hs[0])
  {}

  lemma Rest(s: State, kind: bool, hs: seq<Happening>, t: State)
    requires hs != [] && Plausible(s, kind, hs) && Runs.Goes(s, [StepOf(kind, hs[0])], t)
    ensures Plausible(t, kind, hs[1..])
  {
    hide Enabled, Next, Truthful;
    Runs.OneGone(s, StepOf(kind, hs[0]), t);
  }

  /** A log that is to be sent, and its transaction is not built or not taken. */
  predicate Blocked(s: State, kind: bool, a: Happening)
    requires Enabled(s, StepOf(kind, a)) && Truthful(s, kind, a)
  {
    a.Arrives? && Sends(LaneOf(s, kind), a.deposit.id, s.pairs, a.choice.read) && !(a.choice.built && a.choice.enqueued)
  }

  /** Where the first of them is, or the number of all that happens if there is none. */
  function FirstBlocked(s: State, kind: bool, hs: seq<Happening>): (k: nat)
    requires Plausible(s, kind, hs)
    ensures k <= |hs|
    decreases |hs|
  {
    if hs == [] || Blocked(s, kind, hs[0]) then 0
    else 1 + FirstBlocked(Next(s, StepOf(kind, hs[0])), kind, hs[1..])
  }

  lemma NoneBlocked(s: State, kind: bool)
    ensures Plausible(s, kind, []) && FirstBlocked(s, kind, []) == 0
  {}

  lemma BlockedHere(s: State, kind: bool, hs: seq<Happening>)
    requires hs != [] && Plausible(s, kind, hs)
    ensures Enabled(s, StepOf(kind, hs[0])) && Truthful(s, kind, hs[0])
    ensures FirstBlocked(s, kind, hs) == 0 <==> Blocked(s, kind, hs[0])
  {
    hide Blocked, Next;
  }

  lemma BlockedLater(s: State, kind: bool, hs: seq<Happening>, t: State)
    requires hs != [] && Plausible(s, kind, hs) && Runs.Goes(s, [StepOf(kind, hs[0])], t)
    requires FirstBlocked(s, kind, hs) > 0
    ensures Plausible(t, kind, hs[1..])
    ensures FirstBlocked(s, kind, hs) == 1 + FirstBlocked(t, kind, hs[1..])
  {
    hide Blocked, Enabled, Next, Truthful, Runs.Goes;
    Runs.OneGone(s, StepOf(kind, hs[0]), t);
  }

  /** None is blocked before it, and there one is. */
  lemma {:induction false} FirstBlockedIs(s: State, kind: bool, hs: seq<Happening>, k: nat, t: State)
    requires Plausible(s, kind, hs) && k <= FirstBlocked(s, kind, hs) && k < |hs|
    requires Runs.Goes(s, StepsOf(kind, hs)[..k], t)
    ensures Enabled(t, StepOf(kind, hs[k])) && Truthful(t, kind, hs[k])
    ensures Blocked(t, kind, hs[k]) <==> k == FirstBlocked(s, kind, hs)
    decreases k
  {
    hide Blocked, Enabled, Next, Truthful, StepOf, Disciplined;
    BlockedHere(s, kind, hs);
    if k > 0 {
      var steps := StepsOf(kind, hs)[..k];
      assert steps[0] == StepOf(kind, hs[0]) && steps[1..] == StepsOf(kind, hs[1..])[..k - 1];
      FirstBlockedIs(Next(s, steps[0]), kind, hs[1..], k - 1, t);
    } else {
      assert StepsOf(kind, hs)[..k] == [];
    }
  }

  predicate SameFetch(a: Option<Fetch>, b: Option<Fetch>) {
    (a.None? && b.None?) || (a.Some? && b.Some? && a.value.end == b.value.end)
  }

  /** Nothing of it begins or ends a fetch. */
  lemma KeepsFetch(s: State, kind: bool, a: Happening, t: State, k: bool)
    requires Runs.Goes(s, [StepOf(kind, a)], t)
    ensures SameFetch(LaneOf(s, k).fetch, LaneOf(t, k).fetch)
  {
    var step := StepOf(kind, a);
    Runs.OneGone(s, step, t);
    LaneNextIs(s, step, k);
    hide Next, Finished, Begin, Lanes.Handle, Runs.Goes, NewLogs, BankLog, Bank.RunAll, Get;
    match step
    case Handle(_, id, read, h) =>
      if kind == k {
        HandleFrame(LaneOf(s, k), id, s.pairs, read, h);
      }
    case Callback(h, v) =>
      if CallsBack(s, h, k) {
        BeginFrame(LaneOf(s, k), h, v);
      }
    case Finish(h, putOk, read, built, _, next) =>
      if k == !Running(s.erc20, h) {
        FinishedFrame(LaneOf(s, k), h, s.pairs, putOk, read, built, next);
      }
    case Mine(_) =>
  }

  lemma StaysIdle(s: State, kind: bool, a: Happening, t: State)
    requires Runs.Goes(s, [StepOf(kind, a)], t) && Idle(s)
    ensures Idle(t)
  {
    hide Runs.Goes;
    KeepsFetch(s, kind, a, t, false);
    KeepsFetch(s, kind, a, t, true);
  }

  lemma StaysFetching(s: State, kind: bool, a: Happening, t: State, end: nat)
    requires Runs.Goes(s, [StepOf(kind, a)], t) && Fetching(s, kind, end)
    ensures Fetching(t, kind, end)
  {
    hide Runs.Goes;
    KeepsFetch(s, kind, a, t, false);
    KeepsFetch(s, kind, a, t, true);
  }

  // ---------------------------------------------------------------- what a happening finds

  lemma Taking(s: State, m: Memory, h: Hash)
    requires Remembers(s, m)
    ensures h in m.erc20.calls <==> Running(s.erc20, h)
    ensures h in m.nft.calls <==> Running(s.nft, h)
  {
    hide Relayer.Inv;
    InEvents(s.erc20, m.erc20, h);
    InEvents(s.nft, m.nft, h);
  }

  lemma NotStuck(s: State, kv: map<bytes, Value>, m: Memory, h: Hash)
    requires Holds(s, kv, m) && h in s.outstanding
    ensures h !in s.stuck
  {
    HoldsParts(s, kv, m, false);
    LaneParts(s, false);
    hide Holds, Relayer.Inv, Lanes.Inv;
  }

  lemma EndsHere(s: State, h: Hash, works: bool, c: Choice)
    requires Enabled(s, FinishOf(h, works, c))
    ensures (Running(s.erc20, h) || Running(s.nft, h)) && c.hash !in s.used
  {}

  /** The verdict is that of the lane that has the callback. */
  lemma OnlyJudged(s: State, kv: map<bytes, Value>, m: Memory, kind: bool, h: Hash, v: Verdict)
    requires Holds(s, kv, m) && Running(LaneOf(s, kind), h) && (Judged(s, false, h, v) || Judged(s, true, h, v))
    ensures Judged(s, kind, h, v)
  {
    HoldsParts(s, kv, m, kind);
    hide Holds, Relayer.Inv;
    Runs.OneLane(s, h);
  }

  lemma ArrivesHere(s: State, kind: bool, d: Bank.Log, c: Choice)
    requires Enabled(s, StepOf(kind, Arrives(d, c))) && Truthful(s, kind, Arrives(d, c))
    ensures d.Deposited? && Yields(LaneOf(s, kind), d.id) && c.hash !in s.used
    ensures LaneOf(s, kind).log[d.id].deposit == d
  {
    hide Yields;
  }

  /** Without a fetch no log arrives. */
  lemma NoArrival(s: State, kind: bool, a: Happening)
    requires Idle(s) && Enabled(s, StepOf(kind, a))
    ensures !a.Arrives?
  {
    hide Get;
  }

  lemma StepsMore(kind: bool, hs: seq<Happening>, i: nat)
    requires i < |hs|
    ensures StepsOf(kind, hs)[..i] + [StepOf(kind, hs[i])] == StepsOf(kind, hs)[..i + 1]
  {}

  /** One happening more. */
  lemma GoesMore(s: State, kind: bool, hs: seq<Happening>, i: nat, t: State, u: State)
    requires i < |hs| && Runs.Goes(s, StepsOf(kind, hs)[..i], t) && Runs.Goes(t, [StepOf(kind, hs[i])], u)
    requires Plausible(t, kind, hs[i..])
    ensures Runs.Goes(s, StepsOf(kind, hs)[..i + 1], u) && Plausible(u, kind, hs[i + 1..])
  {
    hide Runs.Goes, Plausible, StepsOf, StepOf;
    StepsMore(kind, hs, i);
    Runs.GoesAppend(s, StepsOf(kind, hs)[..i], t, [StepOf(kind, hs[i])], u);
    assert hs[i..][0] == hs[i] && hs[i..][1..] == hs[i + 1..];
    Rest(t, kind, hs[i..], u);
  }

  lemma FirstSteps(kind: bool, hs: seq<Happening>, later: seq<Happening>)
    ensures StepsOf(kind, hs + later)[..|hs|] == StepsOf(kind, hs)
  {}

  // ---------------------------------------------------------------- waiting

  /** All that happens in some rounds of waiting. */
  function Flat(rounds: seq<seq<Happening>>): seq<Happening> {
    if rounds == [] then [] else rounds[0] + Flat(rounds[1..])
  }

  lemma {:induction false} FlatMore(rounds: seq<seq<Happening>>, j: nat)
    requires j < |rounds|
    ensures Flat(rounds[..j + 1]) == Flat(rounds[..j]) + rounds[j]
    decreases j
  {
    if j == 0 {
      assert rounds[..1] == [rounds[0]] && rounds[..0] == [];
      assert [rounds[0]][1..] == [];
    } else {
      FlatMore(rounds[1..], j - 1);
      assert rounds[..j + 1][1..] == rounds[1..][..j] && rounds[..j][1..] == rounds[1..][..j - 1];
    }
  }

  /** The steps of the first `k` rounds. */
  function RoundsOf(rounds: seq<seq<Happening>>, k: nat): seq<Step>
    requires k <= |rounds|
  {
    StepsOf(false, Flat(rounds[..k]))
  }

  predicate BothEmpty(s: State) {
    MapEmpty(s.erc20) && MapEmpty(s.nft)
  }

  /** After `j` rounds there is still something in the maps. */
  ghost predicate StillBusy(s: State, rounds: seq<seq<Happening>>, j: nat)
    requires j <= |rounds|
  {
    forall t :: Runs.Goes(s, RoundsOf(rounds, j), t) ==> !BothEmpty(t)
  }

  /** `k` rounds lead from `s` to `t`, and none before the last leaves both maps empty. */
  ghost predicate Waiting(s: State, rounds: seq<seq<Happening>>, k: nat, t: State) {
    k <= |rounds| && Runs.Goes(s, RoundsOf(rounds, k), t) && forall j :: 1 <= j < k ==> StillBusy(s, rounds, j)
  }

  /**
   From `s` the process has waited for `k` rounds and is at `t`: for none if both maps were empty, else up to the
   first round that left them empty, or to the last one, which is that after `limit` others.
   */
  ghost predicate Waited(s: State, rounds: seq<seq<Happening>>, limit: nat, k: nat, t: State) {
    && Waiting(s, rounds, k, t) && (k == 0 <==> BothEmpty(s))
    && k <= limit + 1 && (BothEmpty(t) || k == limit + 1)
  }

  lemma NoRounds(s: State, rounds: seq<seq<Happening>>)
    ensures Waiting(s, rounds, 0, s)
  {
    assert rounds[..0] == [];
    Runs.NoneGone(s);
  }

  /** One round more. */
  lemma RoundMore(s: State, rounds: seq<seq<Happening>>, j: nat, t: State, u: State)
    requires j < |rounds| && Waiting(s, rounds, j, t) && Runs.Goes(t, StepsOf(false, rounds[j]), u)
    requires j > 0 ==> !BothEmpty(t)
    ensures Waiting(s, rounds, j + 1, u)
  {
    hide Runs.Goes, BothEmpty;
    FlatMore(rounds, j);
    assert RoundsOf(rounds, j + 1) == RoundsOf(rounds, j) + StepsOf(false, rounds[j]);
    Runs.GoesAppend(s, RoundsOf(rounds, j), t, StepsOf(false, rounds[j]), u);
    forall v | Runs.Goes(s, RoundsOf(rounds, j), v)
      ensures BothEmpty(v) == BothEmpty(t)
    {
      Runs.GoesTo(s, RoundsOf(rounds, j), t, v);
    }
  }
}
