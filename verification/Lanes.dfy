/**
 One kind of deposit (ERC20 or NFT) in the relayer: what the chain has logged, what the store holds, what
 the process remembers, and what each step of the protocol does to it.
 */
module Lanes {
  import opened Bytes
  import opened Encoding
  import opened Message
  import opened Seam
  import Bank

  type Hash = bytes

  /** What the confirmer reports for a transaction. */
  datatype Verdict = Confirmed | TxFailed | OtherError

  /**
   A sent transaction with no final outcome. `InMap` is an entry of the event map. `InCallback` is an
   event that a callback has deleted from the map and has not finished with.
   */
  datatype Phase = InMap | InCallback(verdict: Verdict)
  datatype Entry = Entry(event: Msg, tx: Tx, phase: Phase)

  /** A running fetch: the last block of its range, and the logs its filter has yet to yield. */
  datatype Fetch = Fetch(end: nat, pending: set<nat>)

  /** The ways a deposit can be given up without an outcome in the store. */
  datatype Reason =
    | PairNotFound | PairUnread | RetryNotSent | PutFailed | FilterFailed | ForcedClose | CallbackCut

  /**
   What last became of a deposit: a transaction was sent for it and no callback has come to its end, or its
   outcome was stored, or it was given up.
   */
  datatype Fate = Sending | Kept | Lost(reason: Reason)

  /** A confirmation that was handled to the end. */
  datatype Mint = Mint(id: nat, tx: Tx)

  /** A deposit event and the block it is in. */
  datatype Logged = Logged(block: nat, deposit: Bank.Log)

  datatype Lane = Lane(
    nft: bool,
    log: seq<Logged>,           // the chain
    stored: map<nat, Msg>,      // the store: event records by id
    mark: nat,                  // the store: ConfirmedBlock.Number
    confirmed: nat,             // memory: ConfirmedBlock.Number
    entries: map<Hash, Entry>,  // memory: the event map and the running callbacks
    fetch: Option<Fetch>,       // memory
    dropped: map<nat, Reason>,  // history: why a deposit was last given up
    fate: map<nat, Fate>,       // history: what last became of a deposit
    minted: seq<Mint>,          // history
    sends: map<nat, nat>)       // history: transactions sent per deposit since a fetch of its block last began

  // ---------------------------------------------------------------- the steps

  function InRange(log: seq<Logged>, first: nat, last: nat): set<nat> {
    set i | 0 <= i < |log| && first <= log[i].block <= last
  }

  predicate MapEmpty(l: Lane) {
    forall h :: h in l.entries ==> !l.entries[h].phase.InMap?
  }

  /** No callback is between its delete and its last action. */
  predicate Quiet(l: Lane) {
    forall h :: h in l.entries ==> l.entries[h].phase.InMap?
  }

  /** The head of the loop: the watermark Put (which may fail unnoticed), then the range of the fetch. */
  function Tick(l: Lane, end: nat, putOk: bool): Lane {
    var range := InRange(l.log, l.confirmed, end);
    l.(mark := if putOk then l.confirmed else l.mark, fetch := Some(Fetch(end, range)), sends := l.sends - range)
  }

  /** `e.Get`: the stored record, if there is one, unmarshalled into the event built from the log. */
  function Get(l: Lane, id: nat): Result<Msg>
    requires id < |l.log| && l.log[id].deposit.Deposited?
  {
    var e := FromLog(l.nft, l.log[id].deposit);
    if id in l.stored then Unmarshal(Encode(l.stored[id]), e) else Ok(e)
  }

  function Drop(l: Lane, id: nat, r: Reason): Lane {
    l.(dropped := l.dropped[id := r], fate := l.fate[id := Lost(r)])
  }

  function Sent(l: Lane, h: Hash, e: Msg, to: bytes): Lane {
    l.(entries := l.entries[h := Entry(e, MintTx(e, to), InMap)],
       fate := l.fate[e.id := Sending],
       sends := l.sends[e.id := 1 + if e.id in l.sends then l.sends[e.id] else 0])
  }

  /**
   One iteration of `handleLogs`: skip a deposit stored as SUCCEEDED, skip one whose token has no
   pair, send the rest with hash `h`. A pair that cannot be read, for whatever error, counts as none. A
   failure to build or enqueue ends the process.
   */
  function Handle(l: Lane, id: nat, pairs: map<bytes, bytes>, read: bool, h: Hash): Lane
    requires l.fetch.Some? && id < |l.log| && l.log[id].deposit.Deposited? && Get(l, id).Ok?
  {
    var rest := l.(fetch := Some(Fetch(l.fetch.value.end, l.fetch.value.pending - {id})));
    var e := Get(l, id).value;
    if id in l.stored && e.status == SUCCEEDED then rest
    else if !read then Drop(rest, id, PairUnread)
    else if e.token !in pairs then Drop(rest, id, PairNotFound)
    else Sent(rest, h, e, pairs[e.token])
  }

  predicate IsLeast(ids: set<nat>, id: nat) {
    id in ids && forall i :: i in ids ==> id <= i
  }

  lemma HasLeast(ids: set<nat>)
    requires ids != {}
    ensures exists id: nat :: IsLeast(ids, id)
  {
    var id :| id in ids;
    var rest := ids - {id};
    assert forall i :: i in ids ==> i == id || i in rest;
    if rest == {} {
      assert IsLeast(ids, id);
    } else {
      HasLeast(rest);
      var low: nat :| IsLeast(rest, low);
      assert IsLeast(ids, if low < id then low else id);
    }
  }

  /** The same value for each of these ids. */
  function Each<V>(ids: set<nat>, v: V): (m: map<nat, V>)
    ensures m.Keys == ids && forall id :: id in ids ==> m[id] == v
  {
    if ids == {} then map[]
    else
      HasLeast(ids);
      var id: nat :| IsLeast(ids, id);
      Each(ids - {id}, v)[id := v]
  }

  /** The filter stops early; its error is only logged. */
  function FilterStops(l: Lane): Lane
    requires l.fetch.Some?
  {
    l.(fetch := Some(Fetch(l.fetch.value.end, {})),
       dropped := l.dropped + Each(l.fetch.value.pending, FilterFailed),
       fate := l.fate + Each(l.fetch.value.pending, Lost(FilterFailed)))
  }

  function EndFetch(l: Lane): Lane
    requires l.fetch.Some?
  {
    l.(confirmed := l.fetch.value.end, fetch := None)
  }

  /** A callback reads its event from the map and deletes it. */
  function Begin(l: Lane, h: Hash, v: Verdict): Lane
    requires h in l.entries
  {
    l.(entries := l.entries[h := l.entries[h].(phase := InCallback(v))])
  }

  /** The callback sets a final status and stores the event, or fails to store it. */
  function Settle(l: Lane, h: Hash, status: int32, putOk: bool): Lane
    requires h in l.entries
  {
    var e := l.entries[h].event;
    var rest := l.(entries := l.entries - {h});
    if !putOk then Drop(rest, e.id, PutFailed)
    else
      rest.(stored := rest.stored[e.id := e.(status := status)],
            fate := rest.fate[e.id := Kept],
            minted := if status == SUCCEEDED then rest.minted + [Mint(e.id, l.entries[h].tx)] else rest.minted)
  }

  /** `retry >= 3` or an error that is not a failed transaction ends the retries. */
  predicate GivesUp(e: Entry) {
    e.phase.InCallback? && (e.phase.verdict.OtherError? || (e.phase.verdict.TxFailed? && e.event.retry >= 3))
  }

  predicate Retries(e: Entry) {
    e.phase.InCallback? && e.phase.verdict.TxFailed? && e.event.retry < 3
  }

  /** The callback resends with the retry count raised; an error of `send` is only logged. */
  function Resend(l: Lane, h: Hash, pairs: map<bytes, bytes>, read: bool, built: bool, next: Hash): Lane
    requires h in l.entries && Retries(l.entries[h])
  {
    var e := l.entries[h].event.(retry := l.entries[h].event.retry + 1);
    var rest := l.(entries := l.entries - {h});
    if !read then Drop(rest, e.id, PairUnread)
    else if e.token in pairs && built then Sent(rest, next, e, pairs[e.token])
    else Drop(rest, e.id, RetryNotSent)
  }

  /** The memory is gone; the store stays. */
  function Down(l: Lane): Lane {
    l.(confirmed := l.mark, entries := map[], fetch := None)
  }

  function IdsInMap(l: Lane): set<nat> {
    set h | h in l.entries && l.entries[h].phase.InMap? :: l.entries[h].event.id as nat
  }

  function IdsInCallback(l: Lane): set<nat> {
    set h | h in l.entries && l.entries[h].phase.InCallback? :: l.entries[h].event.id as nat
  }

  /** What is in the map or in the hands of a callback is given up. */
  function GivenUp(l: Lane): map<nat, Reason> {
    Each(IdsInMap(l), ForcedClose) + Each(IdsInCallback(l), CallbackCut)
  }

  /**
   `Close` commits the watermark, even with entries left when its patience has run out, and with callbacks
   that have emptied the map and not finished.
   */
  function Close(l: Lane, putOk: bool): Lane {
    Down(Committed(l, putOk))
  }

  function Committed(l: Lane, putOk: bool): Lane {
    l.(mark := if putOk then l.confirmed else l.mark,
       dropped := l.dropped + GivenUp(l),
       fate := l.fate + Each(IdsInMap(l), Lost(ForcedClose)) + Each(IdsInCallback(l), Lost(CallbackCut)))
  }

  function Mine(l: Lane, more: seq<Logged>): Lane {
    l.(log := l.log + more)
  }

  // ---------------------------------------------------------------- the invariant

  predicate LogOk(l: Lane, head: nat) {
    && |l.log| <= TWO_64
    && forall i :: 0 <= i < |l.log| ==>
         l.log[i].deposit.Deposited? && l.log[i].deposit.id == i && l.log[i].block <= head
  }

  predicate Final(r: Msg) {
    r.status == FAILED || r.status == SUCCEEDED
  }

  /** Every stored record is a record of its own deposit, with a final status. */
  predicate StoredOk(l: Lane) {
    forall id :: id in l.stored ==>
      && id < |l.log| && l.log[id].deposit.Deposited?
      && RecordOf(l.stored[id], l.nft, l.log[id].deposit)
      && Final(l.stored[id]) && l.stored[id].retry <= 3
  }

  /** How far the finished and running fetches go. */
  function Reach(l: Lane): nat {
    if l.fetch.Some? then l.fetch.value.end else l.confirmed
  }

  predicate EntryOk(l: Lane, e: Entry) {
    var id := e.event.id;
    && id < |l.log| && l.log[id].deposit.Deposited? && l.log[id].block <= Reach(l)
    && RecordOf(e.event, l.nft, l.log[id].deposit)
    && e.event.status != SUCCEEDED && e.event.retry <= 3
    && (id in l.stored ==> l.stored[id].status == FAILED && l.stored[id].retry <= e.event.retry)
    && e.tx == MintTx(e.event, e.tx.to)
    && id in l.sends && l.sends[id] <= e.event.retry + 1
  }

  predicate EntriesOk(l: Lane) {
    forall h :: h in l.entries ==> EntryOk(l, l.entries[h])
  }

  /** At most one transaction in flight per deposit. */
  predicate Unique(l: Lane) {
    forall g, h :: g in l.entries && h in l.entries && l.entries[g].event.id == l.entries[h].event.id ==> g == h
  }

  predicate Held(l: Lane, id: nat) {
    exists h :: h in l.entries && l.entries[h].event.id == id
  }

  predicate PendingOk(l: Lane) {
    l.fetch.Some? ==>
      && (forall id :: id in l.fetch.value.pending ==>
            id < |l.log| && l.log[id].block <= l.fetch.value.end && id !in l.sends && !Held(l, id))
  }

  /** The deposit has an outcome in the store, or was given up for a named reason. */
  predicate Covered(l: Lane, id: nat) {
    id in l.stored || id in l.dropped
  }

  predicate Placed(l: Lane, id: nat) {
    Covered(l, id) || Held(l, id) || (l.fetch.Some? && id in l.fetch.value.pending)
  }

  predicate Accounted(l: Lane) {
    forall id :: 0 <= id < |l.log| && l.log[id].block <= Reach(l) ==> Placed(l, id)
  }

  /** Given up for this reason, and nothing else has become of it since. */
  predicate LostFor(l: Lane, id: nat, r: Reason) {
    id in l.fate && l.fate[id] == Lost(r) && id in l.dropped && l.dropped[id] == r
  }

  /** Nothing has become of the deposit between the two. */
  predicate SameFate(l: Lane, t: Lane, id: nat) {
    && (id in t.fate <==> id in l.fate) && (id in l.fate ==> t.fate[id] == l.fate[id])
    && (id in t.dropped <==> id in l.dropped) && (id in l.dropped ==> t.dropped[id] == l.dropped[id])
    && (id in t.stored <==> id in l.stored) && (id in l.stored ==> t.stored[id] == l.stored[id])
  }

  /** No deposit at or below the persisted watermark is forgotten. */
  predicate NoLoss(l: Lane) {
    forall id :: 0 <= id < |l.log| && l.log[id].block <= l.mark ==> Covered(l, id)
  }

  predicate Marks(l: Lane, head: nat) {
    l.mark <= l.confirmed <= Reach(l) <= head
  }

  predicate MintedOk(l: Lane) {
    && (forall i, j :: 0 <= i < j < |l.minted| ==> l.minted[i].id != l.minted[j].id)
    && (forall i :: 0 <= i < |l.minted| ==>
          && l.minted[i].id in l.stored && l.stored[l.minted[i].id].status == SUCCEEDED
          && l.minted[i].tx == MintTx(l.stored[l.minted[i].id], l.minted[i].tx.to))
    && (forall id :: id in l.stored && l.stored[id].status == SUCCEEDED ==> MintedAt(l, id))
  }

  predicate MintedAt(l: Lane, id: nat) {
    exists i :: 0 <= i < |l.minted| && l.minted[i].id == id
  }

  predicate SendsOk(l: Lane) {
    forall id :: id in l.sends ==> l.sends[id] <= 4
  }

  /** The chain, the store and the history. */
  predicate Core(l: Lane, head: nat) {
    LogOk(l, head) && StoredOk(l) && NoLoss(l) && Marks(l, head) && MintedOk(l) && SendsOk(l)
  }

  /** The transactions in flight and the logs to come. */
  predicate Flight(l: Lane) {
    EntriesOk(l) && Unique(l) && PendingOk(l)
  }

  predicate Sound(l: Lane, head: nat) {
    Core(l, head) && Flight(l) && Accounted(l)
  }

  /** The logs a finished or running fetch has not been for start here. */
  function Unreached(l: Lane): nat {
    if l.fetch.Some? then l.fetch.value.end + 1 else l.confirmed
  }

  predicate Pending(l: Lane, id: nat) {
    l.fetch.Some? && id in l.fetch.value.pending
  }

  /** In a block that a process starting from the watermark reads again. */
  predicate ReadAgain(l: Lane, id: nat) {
    id < |l.log| && l.mark <= l.log[id].block
  }

  /** The fate says what the store and the histories say, and a deposit on its way has somewhere to go. */
  predicate FateAt(l: Lane, id: nat)
    requires id in l.fate
  {
    match l.fate[id]
    case Sending =>
      && (Held(l, id) || Pending(l, id) || (id < |l.log| && Unreached(l) <= l.log[id].block))
      && !(id in l.stored && l.stored[id].status == SUCCEEDED)
    case Kept => id in l.stored
    case Lost(r) => LostFor(l, id, r)
  }

  /** What is in flight or to come is not below the watermark, and the fate of a deposit is kept track of. */
  predicate TrailAt(l: Lane, id: nat) {
    && (Held(l, id) ==> id in l.fate && l.fate[id].Sending? && ReadAgain(l, id))
    && (Pending(l, id) ==> ReadAgain(l, id))
    && (id in l.fate ==> FateAt(l, id))
    && (Covered(l, id) ==> id in l.fate)
  }

  ghost predicate Trail(l: Lane) {
    forall id: nat :: TrailAt(l, id)
  }

  ghost predicate Inv(l: Lane, head: nat) {
    Sound(l, head) && Trail(l)
  }

  const EMPTY_ERC20 := Lane(false, [], map[], 0, 0, map[], None, map[], map[], [], map[])
  const EMPTY_NFT := Lane(true, [], map[], 0, 0, map[], None, map[], map[], [], map[])

  lemma EmptyOk(nft: bool)
    ensures Inv(if nft then EMPTY_NFT else EMPTY_ERC20, 0)
  {
    hide RecordOf, MintTx, EntryOk;
  }

  // ---------------------------------------------------------------- frames

  lemma MintedFrame(l: Lane, t: Lane)
    requires MintedOk(l) && t.minted == l.minted && t.stored == l.stored
    ensures MintedOk(t)
  {
    forall id | id in t.stored && t.stored[id].status == SUCCEEDED
      ensures MintedAt(t, id)
    {
      assert MintedAt(l, id);
    }
  }

  /** The core looks neither at the entries nor at the fetch, but for how far it goes. */
  lemma CoreFrame(l: Lane, t: Lane, head: nat)
    requires Core(l, head) && SendsOk(t)
    requires t == l.(entries := t.entries, fetch := t.fetch, dropped := t.dropped, fate := t.fate, sends := t.sends)
    requires Reach(t) == Reach(l) && l.dropped.Keys <= t.dropped.Keys
    ensures Core(t, head)
  {
    hide RecordOf, MintTx;
    MintedFrame(l, t);
    forall id | 0 <= id < |t.log| && t.log[id].block <= t.mark
      ensures Covered(t, id)
    {
      assert Covered(l, id);
    }
  }

  /** Fewer entries, fewer logs to come, and the records and send counts of the entries as they were. */
  predicate Thinner(l: Lane, t: Lane) {
    && t.nft == l.nft && t.log == l.log && Reach(t) == Reach(l) && t.sends == l.sends
    && (forall h :: h in t.entries ==> h in l.entries && t.entries[h] == l.entries[h])
    && (forall h :: h in t.entries ==>
          var id := t.entries[h].event.id;
          (id in t.stored <==> id in l.stored) && (id in l.stored ==> t.stored[id] == l.stored[id]))
    && (t.fetch.Some? ==> l.fetch.Some? && t.fetch.value.pending <= l.fetch.value.pending)
  }

  lemma FlightFrame(l: Lane, t: Lane)
    requires Flight(l) && Thinner(l, t)
    ensures Flight(t)
  {
    hide RecordOf, MintTx;
    forall id | Held(t, id)
      ensures Held(l, id)
    {
      var h :| h in t.entries && t.entries[h].event.id == id;
      assert h in l.entries;
    }
  }

  lemma HeldHere(l: Lane, h: Hash)
    requires h in l.entries
    ensures Held(l, l.entries[h].event.id)
  {}

  lemma HeldSame(l: Lane, t: Lane, id: nat)
    requires t.entries == l.entries
    ensures Held(t, id) == Held(l, id)
  {}

  // ---------------------------------------------------------------- taking a deposit out, and closing the gap

  /** Deposit `id` is nowhere at the moment. */
  predicate Gone(l: Lane, id: nat) {
    && id < |l.log| && l.log[id].block <= Reach(l)
    && !Held(l, id) && (l.fetch.Some? ==> id !in l.fetch.value.pending)
  }

  predicate AccountedBut(l: Lane, id: nat) {
    forall i :: 0 <= i < |l.log| && l.log[i].block <= Reach(l) && i != id ==> Placed(l, i)
  }

  /** The invariant, but for deposit `id`. */
  predicate Loose(l: Lane, head: nat, id: nat) {
    Core(l, head) && Flight(l) && Gone(l, id) && AccountedBut(l, id)
  }

  function TakePending(l: Lane, id: nat): Lane
    requires l.fetch.Some?
  {
    l.(fetch := Some(Fetch(l.fetch.value.end, l.fetch.value.pending - {id})))
  }

  lemma TakePendingLoosens(l: Lane, head: nat, id: nat)
    requires Sound(l, head) && l.fetch.Some? && id in l.fetch.value.pending
    ensures Loose(TakePending(l, id), head, id)
  {
    var t := TakePending(l, id);
    PendingHere(l, id);
    CoreSends(l, head);
    hide Core, Flight, SendsOk, Held;
    CoreFrame(l, t, head);
    FlightFrame(l, t);
    forall i
      ensures Held(t, i) == Held(l, i)
    {
      HeldSame(l, t, i);
    }
  }

  lemma CoreSends(l: Lane, head: nat)
    requires Core(l, head)
    ensures SendsOk(l) && LogOk(l, head) && StoredOk(l)
  {}

  lemma PendingHere(l: Lane, id: nat)
    requires Flight(l) && l.fetch.Some? && id in l.fetch.value.pending
    ensures id < |l.log| && l.log[id].block <= Reach(l) && !Held(l, id) && id !in l.sends
  {}

  lemma EntryHere(l: Lane, h: Hash)
    requires Flight(l) && h in l.entries
    ensures EntryOk(l, l.entries[h])
    ensures l.fetch.Some? ==> l.entries[h].event.id !in l.fetch.value.pending
    ensures forall g :: g in l.entries && l.entries[g].event.id == l.entries[h].event.id ==> g == h
  {
    hide RecordOf, MintTx;
    HeldHere(l, h);
  }

  function TakeEntry(l: Lane, h: Hash): Lane {
    l.(entries := l.entries - {h})
  }

  lemma HeldWithout(l: Lane, h: Hash, i: nat)
    requires h in l.entries
    requires forall g :: g in l.entries && l.entries[g].event.id == l.entries[h].event.id ==> g == h
    ensures Held(TakeEntry(l, h), i) <==> Held(l, i) && i != l.entries[h].event.id
  {
    var t := TakeEntry(l, h);
    if Held(l, i) && i != l.entries[h].event.id {
      var g :| g in l.entries && l.entries[g].event.id == i;
      assert g in t.entries;
    }
  }

  lemma PlacedWithout(l: Lane, h: Hash, i: nat)
    requires h in l.entries && Placed(l, i) && i != l.entries[h].event.id
    requires forall g :: g in l.entries && l.entries[g].event.id == l.entries[h].event.id ==> g == h
    ensures Placed(TakeEntry(l, h), i)
  {
    hide Held;
    HeldWithout(l, h, i);
  }

  lemma TakeEntryFlight(l: Lane, h: Hash)
    requires Flight(l) && h in l.entries
    ensures Flight(TakeEntry(l, h)) && Gone(TakeEntry(l, h), l.entries[h].event.id)
  {
    EntryHere(l, h);
    HeldWithout(l, h, l.entries[h].event.id);
    hide Flight, Held, RecordOf, MintTx, Decimal, FromLog;
    FlightFrame(l, TakeEntry(l, h));
  }

  lemma TakeEntryAccounts(l: Lane, h: Hash)
    requires Flight(l) && Accounted(l) && h in l.entries
    ensures AccountedBut(TakeEntry(l, h), l.entries[h].event.id)
  {
    EntryHere(l, h);
    hide Flight, EntryOk, Placed;
    forall i | 0 <= i < |l.log| && l.log[i].block <= Reach(l) && i != l.entries[h].event.id
      ensures Placed(TakeEntry(l, h), i)
    {
      PlacedWithout(l, h, i);
    }
  }

  lemma TakeEntryLoosens(l: Lane, head: nat, h: Hash)
    requires Sound(l, head) && h in l.entries
    ensures Loose(TakeEntry(l, h), head, l.entries[h].event.id)
  {
    CoreSends(l, head);
    hide Core, Flight, Gone, Accounted, AccountedBut, SendsOk, LogOk, StoredOk;
    CoreFrame(l, TakeEntry(l, h), head);
    TakeEntryFlight(l, h);
    TakeEntryAccounts(l, h);
  }

  lemma CoveredCloses(l: Lane, head: nat, id: nat)
    requires Loose(l, head, id) && Covered(l, id)
    ensures Sound(l, head)
  {
    hide Core, Flight, Held;
  }

  /** Only the histories change. */
  lemma DropFrame(l: Lane, id: nat, r: Reason)
    ensures var t := Drop(l, id, r);
            && t == l.(dropped := t.dropped, fate := t.fate) && l.dropped.Keys <= t.dropped.Keys && Covered(t, id)
  {}

  lemma DropCloses(l: Lane, head: nat, id: nat, r: Reason)
    requires Loose(l, head, id)
    ensures Sound(Drop(l, id, r), head)
  {
    var t := Drop(l, id, r);
    DropFrame(l, id, r);
    LooseSends(l, head, id);
    hide Core, Flight, Accounted, AccountedBut, Gone, Held, Drop, SendsOk, Thinner;
    CoreFrame(l, t, head);
    DropThins(l, id, r);
    FlightFrame(l, t);
    PlacedMore(l, t, id);
  }

  lemma DropThins(l: Lane, id: nat, r: Reason)
    ensures Thinner(l, Drop(l, id, r))
  {}

  lemma LooseSends(l: Lane, head: nat, id: nat)
    requires Loose(l, head, id)
    ensures SendsOk(l)
  {}

  function Stored(l: Lane, e: Msg, tx: Tx): Lane {
    l.(stored := l.stored[e.id := e],
       fate := l.fate[e.id := Kept],
       minted := if e.status == SUCCEEDED then l.minted + [Mint(e.id, tx)] else l.minted)
  }

  lemma StoreMints(l: Lane, e: Msg, tx: Tx)
    requires MintedOk(l) && tx == MintTx(e, tx.to)
    requires e.id in l.stored ==> l.stored[e.id].status == FAILED
    ensures MintedOk(Stored(l, e, tx))
  {
    hide MintTx;
    var t := Stored(l, e, tx);
    forall id | id in t.stored && t.stored[id].status == SUCCEEDED
      ensures MintedAt(t, id)
    {
      if id == e.id {
        assert t.minted[|l.minted|].id == id;
      } else {
        assert MintedAt(l, id);
        var i :| 0 <= i < |l.minted| && l.minted[i].id == id;
        assert t.minted[i].id == id;
      }
    }
  }

  lemma StoreCore(l: Lane, head: nat, e: Msg, tx: Tx)
    requires Core(l, head) && e.id < |l.log| && Final(e) && e.retry <= 3
    requires l.log[e.id].deposit.Deposited? && RecordOf(e, l.nft, l.log[e.id].deposit) && tx == MintTx(e, tx.to)
    requires e.id in l.stored ==> l.stored[e.id].status == FAILED
    ensures Core(Stored(l, e, tx), head)
  {
    StoreMints(l, e, tx);
    hide RecordOf, MintTx, MintedOk;
    var t := Stored(l, e, tx);
    forall id | 0 <= id < |t.log| && t.log[id].block <= t.mark
      ensures Covered(t, id)
    {
      assert Covered(l, id);
    }
  }

  /** Covering `id` places it, and moves nothing else. */
  lemma PlacedMore(l: Lane, t: Lane, id: nat)
    requires AccountedBut(l, id) && t.entries == l.entries && t.fetch == l.fetch && t.log == l.log
    requires Reach(t) == Reach(l) && Covered(t, id)
    requires l.stored.Keys <= t.stored.Keys && l.dropped.Keys <= t.dropped.Keys
    ensures Accounted(t)
  {
    hide Held;
    forall i | 0 <= i < |t.log| && t.log[i].block <= Reach(t)
      ensures Placed(t, i)
    {
      HeldSame(l, t, i);
      if i != id {
        assert Placed(l, i);
      }
    }
  }

  lemma StoreFlight(l: Lane, e: Msg, tx: Tx)
    requires Flight(l) && Gone(l, e.id)
    ensures Flight(Stored(l, e, tx))
  {
    hide Flight, Held;
    forall h | h in l.entries
      ensures l.entries[h].event.id != e.id
    {
      HeldHere(l, h);
    }
    FlightFrame(l, Stored(l, e, tx));
  }

  lemma StoreCloses(l: Lane, head: nat, e: Msg, tx: Tx)
    requires Loose(l, head, e.id) && Final(e) && e.retry <= 3
    requires l.log[e.id].deposit.Deposited? && RecordOf(e, l.nft, l.log[e.id].deposit) && tx == MintTx(e, tx.to)
    requires e.id in l.stored ==> l.stored[e.id].status == FAILED
    ensures Sound(Stored(l, e, tx), head)
  {
    hide Core, Flight, Accounted, AccountedBut, Held, RecordOf, MintTx;
    StoreCore(l, head, e, tx);
    StoreFlight(l, e, tx);
    PlacedMore(l, Stored(l, e, tx), e.id);
  }

  /** What a message must be for sending it to close the gap. */
  predicate Sendable(l: Lane, e: Msg) {
    && e.id < |l.log| && l.log[e.id].deposit.Deposited? && RecordOf(e, l.nft, l.log[e.id].deposit)
    && e.status != SUCCEEDED && e.retry <= 3
    && (e.id in l.stored ==> l.stored[e.id].status == FAILED && l.stored[e.id].retry <= e.retry)
    && (e.id in l.sends ==> l.sends[e.id] <= e.retry)
  }

  lemma SentEntry(l: Lane, h: Hash, e: Msg, to: bytes)
    requires Sendable(l, e) && SendsOk(l) && l.log[e.id].block <= Reach(l)
    ensures EntryOk(Sent(l, h, e, to), Entry(e, MintTx(e, to), InMap))
    ensures SendsOk(Sent(l, h, e, to))
  {
    hide RecordOf;
  }

  lemma EntryFrame(l: Lane, t: Lane, e: Entry)
    requires EntryOk(l, e) && t == l.(entries := t.entries, fate := t.fate, sends := t.sends)
    requires e.event.id in t.sends && t.sends[e.event.id] == l.sends[e.event.id]
    ensures EntryOk(t, e)
  {
    hide RecordOf, MintTx;
  }

  lemma EntrySends(l: Lane, e: Entry)
    requires EntryOk(l, e)
    ensures e.event.id in l.sends
  {}

  lemma HeldWith(l: Lane, t: Lane, h: Hash, x: Entry, i: nat)
    requires h !in l.entries && t.entries == l.entries[h := x]
    ensures Held(t, i) <==> Held(l, i) || i == x.event.id
  {
    if Held(l, i) {
      var g :| g in l.entries && l.entries[g].event.id == i;
      assert g in t.entries && t.entries[g] == l.entries[g];
    }
    if i == x.event.id {
      assert h in t.entries && t.entries[h].event.id == i;
    }
  }

  lemma SentFlight(l: Lane, h: Hash, e: Msg, to: bytes)
    requires Flight(l) && Gone(l, e.id) && h !in l.entries && Sendable(l, e) && SendsOk(l)
    ensures Flight(Sent(l, h, e, to))
  {
    var t, x := Sent(l, h, e, to), Entry(e, MintTx(e, to), InMap);
    SentEntry(l, h, e, to);
    hide EntryOk, Held, Sendable, MintTx, SendsOk;
    forall g | g in l.entries
      ensures l.entries[g].event.id != e.id && EntryOk(t, l.entries[g])
    {
      HeldHere(l, g);
      EntrySends(l, l.entries[g]);
      EntryFrame(l, t, l.entries[g]);
    }
    forall i
      ensures Held(t, i) <==> Held(l, i) || i == e.id
    {
      HeldWith(l, t, h, x, i);
    }
  }

  lemma SendCloses(l: Lane, head: nat, h: Hash, e: Msg, to: bytes)
    requires Loose(l, head, e.id) && h !in l.entries && Sendable(l, e)
    ensures Sound(Sent(l, h, e, to), head)
  {
    var t, x := Sent(l, h, e, to), Entry(e, MintTx(e, to), InMap);
    CoreSends(l, head);
    SentFlight(l, h, e, to);
    SentEntry(l, h, e, to);
    hide Core, Flight, EntryOk, Held, Sendable, MintTx, SendsOk;
    CoreFrame(l, t, head);
    forall i
      ensures Held(t, i) <==> Held(l, i) || i == e.id
    {
      HeldWith(l, t, h, x, i);
    }
  }

  // ---------------------------------------------------------------- every step keeps deposits accounted for

  /** What `Get` sees is the stored record itself, or the fresh event. */
  lemma GetSeesStored(l: Lane, head: nat, id: nat)
    requires LogOk(l, head) && StoredOk(l) && id < |l.log|
    ensures l.log[id].deposit.Deposited?
    ensures Get(l, id) == Ok(if id in l.stored then l.stored[id] else FromLog(l.nft, l.log[id].deposit))
    ensures Get(l, id).value.id == id && RecordOf(Get(l, id).value, l.nft, l.log[id].deposit)
  {
    hide Encode, Unmarshal, Decimal;
    if id in l.stored {
      GetIsExact(l.stored[id], l.nft, l.log[id].deposit);
    }
  }

  lemma HandleSound(l: Lane, head: nat, id: nat, pairs: map<bytes, bytes>, read: bool, h: Hash)
    requires Sound(l, head) && l.fetch.Some? && id in l.fetch.value.pending && h !in l.entries
    ensures id < |l.log| && l.log[id].deposit.Deposited? && Get(l, id).Ok?
    ensures Sound(Handle(l, id, pairs, read, h), head)
  {
    CoreSends(l, head);
    PendingHere(l, id);
    GetSeesStored(l, head, id);
    TakePendingLoosens(l, head, id);
    hide Sound, Loose, Sent, Get, RecordOf, FromLog;
    var rest, e := TakePending(l, id), Get(l, id).value;
    if id in l.stored && e.status == SUCCEEDED {
      CoveredCloses(rest, head, id);
    } else if !read {
      DropCloses(rest, head, id, PairUnread);
    } else if e.token !in pairs {
      DropCloses(rest, head, id, PairNotFound);
    } else {
      Fresh(l, id);
      SendCloses(rest, head, h, e, pairs[e.token]);
    }
  }

  lemma Fresh(l: Lane, id: nat)
    requires id < |l.log| && l.log[id].deposit.Deposited?
    ensures FromLog(l.nft, l.log[id].deposit).status == UNDEFINED && FromLog(l.nft, l.log[id].deposit).retry == 0
  {}

  /**
   What a tick takes to keep the invariant. If it writes the watermark, no transaction is in flight at all.
   If it does not, those in flight, so in callbacks that have emptied the map, are of deposits in blocks
   before the range.
   */
  predicate TickSafe(l: Lane, putOk: bool) {
    BehindRange(l) && (putOk ==> l.entries == map[])
  }

  predicate BehindRange(l: Lane) {
    forall h :: h in l.entries ==>
      l.entries[h].event.id < |l.log| && l.log[l.entries[h].event.id].block < l.confirmed
  }

  predicate AllCovered(l: Lane) {
    forall h :: h in l.entries ==> Covered(l, l.entries[h].event.id)
  }

  lemma TickSound(l: Lane, head: nat, end: nat, putOk: bool)
    requires Sound(l, head) && l.fetch.None? && l.confirmed <= end <= head
    requires BehindRange(l) && (putOk ==> AllCovered(l))
    ensures Sound(Tick(l, end, putOk), head)
  {
    TickCore(l, head, end, putOk);
    TickFlight(l, head, end, putOk);
    TickAccounts(l, end, putOk);
  }

  lemma TickCore(l: Lane, head: nat, end: nat, putOk: bool)
    requires Sound(l, head) && l.fetch.None? && l.confirmed <= end <= head && (putOk ==> AllCovered(l))
    ensures Core(Tick(l, end, putOk), head)
  {
    hide RecordOf, MintTx, MintedOk, InRange;
    var t := Tick(l, end, putOk);
    MintedFrame(l, t);
    if putOk {
      CommitSafeIff(l, head);
    }
    forall id | 0 <= id < |t.log| && t.log[id].block <= t.mark
      ensures Covered(t, id)
    {
      assert Covered(if putOk then l.(mark := l.confirmed) else l, id);
    }
  }

  lemma TickFlight(l: Lane, head: nat, end: nat, putOk: bool)
    requires Sound(l, head) && l.fetch.None? && l.confirmed <= end && BehindRange(l)
    ensures Flight(Tick(l, end, putOk))
  {
    hide RecordOf, MintTx, Core;
    var t := Tick(l, end, putOk);
    forall h | h in t.entries
      ensures EntryOk(t, t.entries[h])
    {
      assert EntryOk(l, l.entries[h]);
    }
    TickSendsOnceIff(l, head, end, putOk);
  }

  lemma TickAccounts(l: Lane, end: nat, putOk: bool)
    requires Accounted(l) && l.fetch.None? && l.confirmed <= end
    ensures Accounted(Tick(l, end, putOk))
  {
    hide Held;
    var t := Tick(l, end, putOk);
    forall id | 0 <= id < |t.log| && t.log[id].block <= end
      ensures Placed(t, id)
    {
      if t.log[id].block <= l.confirmed {
        assert Placed(l, id);
        HeldSame(l, t, id);
      } else {
        assert id in InRange(l.log, l.confirmed, end);
      }
    }
  }

  lemma Stopped(l: Lane)
    requires l.fetch.Some?
    ensures var t := FilterStops(l); var pending := l.fetch.value.pending;
            && t == l.(fetch := Some(Fetch(l.fetch.value.end, {})), dropped := t.dropped, fate := t.fate)
            && l.dropped.Keys <= t.dropped.Keys
            && (forall id :: id in pending ==> LostFor(t, id, FilterFailed))
            && (forall id :: id !in pending ==> SameFate(l, t, id))
  {}

  lemma FilterStopsSound(l: Lane, head: nat)
    requires Sound(l, head) && l.fetch.Some?
    ensures Sound(FilterStops(l), head)
  {
    var t := FilterStops(l);
    Stopped(l);
    CoreSends(l, head);
    StopAccounts(l);
    hide Core, Flight, SendsOk, FilterStops, Accounted, LostFor, SameFate;
    CoreFrame(l, t, head);
    FlightFrame(l, t);
  }

  lemma StopAccounts(l: Lane)
    requires Accounted(l) && l.fetch.Some?
    ensures Accounted(FilterStops(l))
  {
    var t := FilterStops(l);
    Stopped(l);
    hide FilterStops, Held, SameFate;
    forall i | 0 <= i < |t.log| && t.log[i].block <= Reach(t)
      ensures Placed(t, i)
    {
      assert Placed(l, i);
      HeldSame(l, t, i);
    }
  }

  lemma EndFetchSound(l: Lane, head: nat)
    requires Sound(l, head) && l.fetch.Some? && l.fetch.value.pending == {}
    ensures Sound(EndFetch(l), head)
  {
    hide RecordOf, MintTx, MintedOk, Held;
    var t := EndFetch(l);
    MintedFrame(l, t);
    forall i | 0 <= i < |t.log| && t.log[i].block <= Reach(t)
      ensures Placed(t, i)
    {
      assert Placed(l, i);
      HeldSame(l, t, i);
    }
    forall i | 0 <= i < |t.log| && t.log[i].block <= t.mark
      ensures Covered(t, i)
    {
      assert Covered(l, i);
    }
  }

  lemma BeginSound(l: Lane, head: nat, h: Hash, v: Verdict)
    requires Sound(l, head) && h in l.entries
    ensures Sound(Begin(l, h, v), head)
  {
    CoreSends(l, head);
    hide Core, Flight, Accounted, SendsOk, LogOk, StoredOk;
    CoreFrame(l, Begin(l, h, v), head);
    BeginFlight(l, h, v);
    BeginAccounts(l, h, v);
  }

  lemma BeginAccounts(l: Lane, h: Hash, v: Verdict)
    requires Accounted(l) && h in l.entries
    ensures Accounted(Begin(l, h, v))
  {
    hide Held;
    var t := Begin(l, h, v);
    forall i | 0 <= i < |t.log| && t.log[i].block <= Reach(t)
      ensures Placed(t, i)
    {
      assert Placed(l, i);
      HeldBegun(l, h, v, i);
    }
  }

  lemma HeldBegun(l: Lane, h: Hash, v: Verdict, i: nat)
    requires h in l.entries
    ensures Held(Begin(l, h, v), i) == Held(l, i)
  {
    var t := Begin(l, h, v);
    if Held(l, i) {
      var g :| g in l.entries && l.entries[g].event.id == i;
      assert g in t.entries && t.entries[g].event.id == i;
    }
    if Held(t, i) {
      var g :| g in t.entries && t.entries[g].event.id == i;
      assert g in l.entries && l.entries[g].event.id == i;
    }
  }

  lemma BeginFlight(l: Lane, h: Hash, v: Verdict)
    requires Flight(l) && h in l.entries
    ensures Flight(Begin(l, h, v))
  {
    hide RecordOf, MintTx, Held;
    var t := Begin(l, h, v);
    forall i
      ensures Held(t, i) == Held(l, i)
    {
      HeldBegun(l, h, v, i);
    }
    forall g | g in t.entries
      ensures EntryOk(t, t.entries[g])
    {
      assert EntryOk(l, l.entries[g]);
    }
  }

  lemma SettleSound(l: Lane, head: nat, h: Hash, status: int32, putOk: bool)
    requires Sound(l, head) && h in l.entries && (status == FAILED || status == SUCCEEDED)
    ensures Sound(Settle(l, h, status, putOk), head)
  {
    TakeEntryLoosens(l, head, h);
    EntryParts(l, head, h);
    hide Sound, Loose, RecordOf, MintTx;
    var rest, e := TakeEntry(l, h), l.entries[h].event;
    if putOk {
      StatusOnly(e, l.nft, l.log[e.id].deposit, status, l.entries[h].tx.to);
      StoreCloses(rest, head, e.(status := status), l.entries[h].tx);
    } else {
      DropCloses(rest, head, e.id, PutFailed);
    }
  }

  lemma EntryParts(l: Lane, head: nat, h: Hash)
    requires Sound(l, head) && h in l.entries
    ensures EntryOk(l, l.entries[h])
  {
    hide Core, EntryOk;
  }

  /** Neither the status nor the retry count makes another record, or another mint. */
  lemma StatusOnly(e: Msg, nft: bool, d: Bank.Log, status: int32, to: bytes)
    requires d.Deposited? && RecordOf(e, nft, d)
    ensures RecordOf(e.(status := status), nft, d) && MintTx(e.(status := status), to) == MintTx(e, to)
  {}

  lemma RetryOnly(e: Msg, nft: bool, d: Bank.Log, retry: uint32)
    requires d.Deposited? && RecordOf(e, nft, d)
    ensures RecordOf(e.(retry := retry), nft, d)
  {}

  lemma ResendSendable(l: Lane, head: nat, h: Hash)
    requires Sound(l, head) && h in l.entries && Retries(l.entries[h])
    ensures Sendable(TakeEntry(l, h), l.entries[h].event.(retry := l.entries[h].event.retry + 1))
  {
    EntryParts(l, head, h);
    hide Sound, RecordOf, MintTx;
    var e := l.entries[h].event;
    RetryOnly(e, l.nft, l.log[e.id].deposit, e.retry + 1);
  }

  lemma ResendSound(
    l: Lane, head: nat, h: Hash, pairs: map<bytes, bytes>, read: bool, built: bool, next: Hash)
    requires Sound(l, head) && h in l.entries && Retries(l.entries[h]) && next !in l.entries
    ensures Sound(Resend(l, h, pairs, read, built, next), head)
  {
    TakeEntryLoosens(l, head, h);
    ResendSendable(l, head, h);
    hide Sound, Loose, Sendable, Sent;
    var rest, e := TakeEntry(l, h), l.entries[h].event;
    if !read {
      DropCloses(rest, head, e.id, PairUnread);
    } else if e.token in pairs && built {
      SendCloses(rest, head, next, e.(retry := e.retry + 1), pairs[e.token]);
    } else {
      DropCloses(rest, head, e.id, RetryNotSent);
    }
  }

  /** Nothing in memory, and every deposit up to the watermark has its disposition. */
  lemma IdleSound(l: Lane, head: nat)
    requires Core(l, head) && l.entries == map[] && l.fetch.None? && l.confirmed == l.mark
    ensures Sound(l, head)
  {
    hide LogOk, StoredOk, MintedOk, SendsOk;
    forall i | 0 <= i < |l.log| && l.log[i].block <= Reach(l)
      ensures Placed(l, i)
    {
      assert Covered(l, i);
    }
  }

  lemma DownSound(l: Lane, head: nat)
    requires Core(l, head)
    ensures Sound(Down(l), head)
  {
    hide RecordOf, MintTx, MintedOk;
    var t := Down(l);
    MintedFrame(l, t);
    forall i | 0 <= i < |t.log| && t.log[i].block <= t.mark
      ensures Covered(t, i)
    {
      assert Covered(l, i);
    }
    IdleSound(t, head);
  }

  lemma CloseSound(l: Lane, head: nat, putOk: bool)
    requires Sound(l, head) && l.fetch.None?
    ensures Sound(Close(l, putOk), head)
  {
    CommittedCore(l, head, putOk);
    hide Core, Sound, Committed;
    DownSound(Committed(l, putOk), head);
  }

  /** Each deposit is given up for one reason. */
  lemma GivenUpFor(l: Lane, i: nat)
    requires Unique(l)
    ensures i in IdsInMap(l) <==> i in GivenUp(l) && GivenUp(l)[i] == ForcedClose
    ensures i in IdsInCallback(l) <==> i in GivenUp(l) && GivenUp(l)[i] == CallbackCut
    ensures i in GivenUp(l) <==> Held(l, i)
  {
    if Held(l, i) {
      HeldIsGivenUp(l, i);
    }
  }

  lemma HeldIsGivenUp(l: Lane, i: nat)
    requires Held(l, i)
    ensures i in GivenUp(l)
  {
    var h :| h in l.entries && l.entries[h].event.id == i;
    assert l.entries[h].phase.InMap? ==> i in IdsInMap(l);
  }

  lemma CommittedCore(l: Lane, head: nat, putOk: bool)
    requires Sound(l, head) && l.fetch.None?
    ensures Core(Committed(l, putOk), head)
  {
    hide RecordOf, MintTx, MintedOk, EntryOk, GivenUp, Held;
    var t := Committed(l, putOk);
    MintedFrame(l, t);
    forall i | 0 <= i < |t.log| && t.log[i].block <= l.confirmed
      ensures Covered(t, i)
    {
      assert Placed(l, i);
      if Held(l, i) {
        HeldIsGivenUp(l, i);
      }
    }
  }

  /** A block's worth of new deposits, numbered on from the old ones. */
  predicate Continues(l: Lane, more: seq<Logged>, block: nat) {
    && |l.log| + |more| <= TWO_64
    && forall i :: 0 <= i < |more| ==>
         more[i].block == block && more[i].deposit.Deposited? && more[i].deposit.id == |l.log| + i
  }

  lemma MineSound(l: Lane, head: nat, more: seq<Logged>)
    requires Sound(l, head) && Continues(l, more, head + 1)
    ensures Sound(Mine(l, more), head + 1)
  {
    var t := Mine(l, more);
    hide RecordOf, MintTx, MintedOk, Held;
    MintedFrame(l, t);
    forall i
      ensures Held(t, i) == Held(l, i)
    {
      HeldSame(l, t, i);
    }
    forall i | 0 <= i < |t.log| && t.log[i].block <= Reach(t)
      ensures Placed(t, i)
    {
      assert Placed(l, i);
    }
    forall i | 0 <= i < |t.log| && t.log[i].block <= t.mark
      ensures Covered(t, i)
    {
      assert Covered(l, i);
    }
  }

  // ---------------------------------------------------------------- what the assumption on callbacks is for

  /** Writing the watermark leaves every deposit up to it covered exactly when each one in flight is so already. */
  lemma CommitSafeIff(l: Lane, head: nat)
    requires Sound(l, head) && l.fetch.None?
    ensures NoLoss(l.(mark := l.confirmed)) <==> AllCovered(l)
  {
    var t := l.(mark := l.confirmed);
    hide RecordOf, MintTx, Core;
    if NoLoss(t) {
      forall h | h in l.entries
        ensures Covered(l, l.entries[h].event.id)
      {
        assert EntryOk(l, l.entries[h]);
        assert Covered(t, l.entries[h].event.id);
      }
    }
    if AllCovered(l) {
      forall i | 0 <= i < |t.log| && t.log[i].block <= t.mark
        ensures Covered(t, i)
      {
        assert Placed(l, i);
      }
    }
  }

  /** Writing the watermark leaves nothing in flight below it exactly when all that is in flight is of its own block. */
  lemma CommitAheadIff(l: Lane, head: nat)
    requires Sound(l, head) && l.fetch.None?
    ensures (forall h :: h in l.entries ==> ReadAgain(l.(mark := l.confirmed), l.entries[h].event.id))
       <==> (forall h :: h in l.entries ==> l.log[l.entries[h].event.id].block == l.confirmed)
  {
    hide RecordOf, MintTx, Core;
    forall h | h in l.entries
      ensures EntryOk(l, l.entries[h])
    {}
  }

  /** A tick puts no deposit in its range that is in flight exactly when all those are before the range. */
  lemma TickSendsOnceIff(l: Lane, head: nat, end: nat, putOk: bool)
    requires Sound(l, head) && l.fetch.None? && l.confirmed <= end
    ensures (forall id :: id in Tick(l, end, putOk).fetch.value.pending ==> !Held(Tick(l, end, putOk), id))
       <==> BehindRange(l)
  {
    hide RecordOf, MintTx, Core;
    var t := Tick(l, end, putOk);
    if forall id :: id in t.fetch.value.pending ==> !Held(t, id) {
      forall h | h in l.entries
        ensures l.entries[h].event.id < |l.log| && l.log[l.entries[h].event.id].block < l.confirmed
      {
        assert EntryOk(l, l.entries[h]);
        HeldHere(t, h);
        assert l.entries[h].event.id !in t.fetch.value.pending;
      }
    }
    if BehindRange(l) {
      forall id | id in t.fetch.value.pending
        ensures !Held(t, id)
      {
        assert l.log[id].block >= l.confirmed;
        assert forall h :: h in t.entries ==> t.entries[h].event.id != id;
      }
    }
  }

  // ---------------------------------------------------------------- the trail of every deposit

  /** Everything about deposit `i` is as it was. */
  predicate SameTrail(l: Lane, t: Lane, i: nat) {
    && SameFate(l, t, i) && l.log <= t.log && t.mark == l.mark && Unreached(t) == Unreached(l)
    && (Held(t, i) <==> Held(l, i)) && (Pending(t, i) <==> Pending(l, i))
  }

  lemma TrailFrame(l: Lane, t: Lane, i: nat)
    requires TrailAt(l, i) && SameTrail(l, t, i)
    ensures TrailAt(t, i)
  {
    hide Held;
  }

  lemma SentTrail(l: Lane, t: Lane, h: Hash, e: Msg, to: bytes, i: nat)
    requires h !in l.entries && t == Sent(l, h, e, to) && !Pending(l, e.id)
    requires i != e.id ==> TrailAt(l, i)
    requires i == e.id ==> ReadAgain(l, i) && !(i in l.stored && l.stored[i].status == SUCCEEDED)
    ensures TrailAt(t, i)
  {
    HeldWith(l, t, h, Entry(e, MintTx(e, to), InMap), i);
    hide Held, MintTx;
    if i != e.id {
      TrailFrame(l, t, i);
    }
  }

  lemma DropTrail(l: Lane, id: nat, r: Reason, i: nat)
    requires !Held(l, id) && !Pending(l, id) && (i != id ==> TrailAt(l, i))
    ensures TrailAt(Drop(l, id, r), i)
  {
    HeldSame(l, Drop(l, id, r), i);
    hide Held;
    if i != id {
      TrailFrame(l, Drop(l, id, r), i);
    }
  }

  lemma TakePendingTrail(l: Lane, id: nat, i: nat)
    requires l.fetch.Some? && TrailAt(l, i)
    ensures var t := TakePending(l, id);
            && Held(t, i) == Held(l, i) && !Pending(t, id) && ReadAgain(t, i) == ReadAgain(l, i)
            && (i != id ==> TrailAt(t, i))
  {
    HeldSame(l, TakePending(l, id), i);
    hide Held;
    if i != id {
      TrailFrame(l, TakePending(l, id), i);
    }
  }

  lemma HandleTrail(l: Lane, head: nat, id: nat, pairs: map<bytes, bytes>, read: bool, h: Hash, i: nat)
    requires Sound(l, head) && Trail(l) && l.fetch.Some? && id in l.fetch.value.pending && h !in l.entries
    requires id < |l.log| && l.log[id].deposit.Deposited? && Get(l, id).Ok?
    ensures TrailAt(Handle(l, id, pairs, read, h), i)
  {
    SoundParts(l, head);
    PendingHere(l, id);
    GetSeesStored(l, head, id);
    assert TrailAt(l, id) && TrailAt(l, i);
    var rest, e := TakePending(l, id), Get(l, id).value;
    TakePendingTrail(l, id, i);
    TakePendingTrail(l, id, id);
    hide Sound, Trail, Get, RecordOf, FromLog, Held, Sent, Drop, LogOk, StoredOk, Flight, Marks;
    if id in l.stored && e.status == SUCCEEDED {
    } else if !read {
      DropTrail(rest, id, PairUnread, i);
    } else if e.token !in pairs {
      DropTrail(rest, id, PairNotFound, i);
    } else {
      SentTrail(rest, Sent(rest, h, e, pairs[e.token]), h, e, pairs[e.token], i);
    }
  }

  lemma SoundParts(l: Lane, head: nat)
    requires Sound(l, head)
    ensures LogOk(l, head) && StoredOk(l) && Flight(l) && Marks(l, head)
  {}

  lemma TickTrail(l: Lane, head: nat, end: nat, putOk: bool, i: nat)
    requires Sound(l, head) && TrailAt(l, i) && l.fetch.None? && l.confirmed <= end && TickSafe(l, putOk)
    ensures TrailAt(Tick(l, end, putOk), i)
  {
    SoundParts(l, head);
    HeldSame(l, Tick(l, end, putOk), i);
    hide Sound, LogOk, StoredOk, Flight;
  }

  lemma FilterStopsTrail(l: Lane, head: nat, i: nat)
    requires Sound(l, head) && TrailAt(l, i) && l.fetch.Some?
    ensures TrailAt(FilterStops(l), i)
  {
    SoundParts(l, head);
    if Pending(l, i) {
      PendingHere(l, i);
    }
    Stopped(l);
    hide Sound, LogOk, StoredOk, Flight, FilterStops, Held, Marks, TrailAt, LostFor, SameFate;
    StoppedTrail(l, FilterStops(l), i);
  }

  /** What was to come is given up, and nothing else changes. */
  lemma StoppedTrail(l: Lane, t: Lane, i: nat)
    requires TrailAt(l, i) && l.fetch.Some? && t.fetch == Some(Fetch(l.fetch.value.end, {}))
    requires t.log == l.log && t.mark == l.mark && t.entries == l.entries
    requires if Pending(l, i) then !Held(l, i) && LostFor(t, i, FilterFailed) else SameFate(l, t, i)
    ensures TrailAt(t, i)
  {
    HeldSame(l, t, i);
    hide Held;
    if !Pending(l, i) {
      TrailFrame(l, t, i);
    }
  }

  lemma EndFetchTrail(l: Lane, i: nat)
    requires TrailAt(l, i) && l.fetch.Some? && l.fetch.value.pending == {}
    ensures TrailAt(EndFetch(l), i)
  {
    HeldSame(l, EndFetch(l), i);
    hide Held;
  }

  lemma BeginTrail(l: Lane, h: Hash, v: Verdict, i: nat)
    requires TrailAt(l, i) && h in l.entries
    ensures TrailAt(Begin(l, h, v), i)
  {
    HeldBegun(l, h, v, i);
    hide Held;
    TrailFrame(l, Begin(l, h, v), i);
  }

  /** An entry taken out: its deposit is in no place, and every other one is where it was. */
  lemma TakeTrail(l: Lane, h: Hash, i: nat)
    requires Flight(l) && Trail(l) && h in l.entries
    ensures var t := TakeEntry(l, h); var id := l.entries[h].event.id;
            && !Held(t, id) && !Pending(t, id) && ReadAgain(t, id)
            && !(id in t.stored && t.stored[id].status == SUCCEEDED)
            && (i != id ==> TrailAt(t, i))
  {
    var t, id := TakeEntry(l, h), l.entries[h].event.id;
    EntryHere(l, h);
    HeldHere(l, h);
    HeldWithout(l, h, i);
    HeldWithout(l, h, id);
    assert TrailAt(l, id) && TrailAt(l, i);
    hide Flight, Trail, Held, EntryOk;
    if i != id {
      TrailFrame(l, t, i);
    }
  }

  lemma StoreTrail(l: Lane, e: Msg, tx: Tx, i: nat)
    requires !Held(l, e.id) && !Pending(l, e.id) && (i != e.id ==> TrailAt(l, i))
    ensures TrailAt(Stored(l, e, tx), i)
  {
    HeldSame(l, Stored(l, e, tx), i);
    hide Held;
    if i != e.id {
      TrailFrame(l, Stored(l, e, tx), i);
    }
  }

  lemma SettleTrail(l: Lane, head: nat, h: Hash, status: int32, putOk: bool, i: nat)
    requires Sound(l, head) && Trail(l) && h in l.entries && (status == FAILED || status == SUCCEEDED)
    ensures TrailAt(Settle(l, h, status, putOk), i)
  {
    hide LogOk, StoredOk, Flight, Core, Accounted, Trail, Held, Pending, ReadAgain, TrailAt, Marks;
    SoundParts(l, head);
    TakeTrail(l, h, i);
    var rest, e := TakeEntry(l, h), l.entries[h].event;
    if putOk {
      StoreTrail(rest, e.(status := status), l.entries[h].tx, i);
    } else {
      DropTrail(rest, e.id, PutFailed, i);
    }
  }

  lemma ResendTrail(
    l: Lane, head: nat, h: Hash, pairs: map<bytes, bytes>, read: bool, built: bool, next: Hash, i: nat)
    requires Sound(l, head) && Trail(l) && h in l.entries && Retries(l.entries[h]) && next !in l.entries
    ensures TrailAt(Resend(l, h, pairs, read, built, next), i)
  {
    hide LogOk, StoredOk, Flight, Core, Accounted, Trail, Held, Pending, ReadAgain, TrailAt, Marks, Sent, Drop;
    SoundParts(l, head);
    TakeTrail(l, h, i);
    var rest, e := TakeEntry(l, h), l.entries[h].event.(retry := l.entries[h].event.retry + 1);
    if !read {
      DropTrail(rest, e.id, PairUnread, i);
    } else if e.token in pairs && built {
      SentTrail(rest, Sent(rest, next, e, pairs[e.token]), next, e, pairs[e.token], i);
    } else {
      DropTrail(rest, e.id, RetryNotSent, i);
    }
  }

  lemma DownTrail(l: Lane, head: nat, i: nat)
    requires TrailAt(l, i) && Marks(l, head)
    ensures TrailAt(Down(l), i)
  {}

  /** What giving up leaves of one deposit. */
  lemma GivesUpAll(l: Lane, putOk: bool, i: nat)
    requires Unique(l)
    ensures var t := Committed(l, putOk);
            && t.stored == l.stored && t.log == l.log && t.confirmed == l.confirmed
            && if Held(l, i) then i in GivenUp(l) && LostFor(t, i, GivenUp(l)[i]) else SameFate(l, t, i)
  {
    GivenUpFor(l, i);
    CommittedAt(l, putOk, i);
    hide GivenUp, Held, Unique, Committed;
  }

  lemma CommittedAt(l: Lane, putOk: bool, i: nat)
    ensures var t := Committed(l, putOk);
            && t.stored == l.stored && t.log == l.log && t.confirmed == l.confirmed
            && if i in GivenUp(l) then LostFor(t, i, GivenUp(l)[i]) else SameFate(l, t, i)
  {
    hide IdsInMap, IdsInCallback, Each;
  }

  /** What was held is given up, and nothing else has changed but the watermark. */
  lemma CloseTrail(l: Lane, head: nat, putOk: bool, i: nat)
    requires TrailAt(l, i) && Sound(l, head) && l.fetch.None?
    ensures TrailAt(Close(l, putOk), i)
  {
    SoundParts(l, head);
    UniqueOf(l);
    GivesUpAll(l, putOk, i);
    DownHeld(Committed(l, putOk), i);
    hide Sound, LogOk, StoredOk, Flight, GivenUp, Held, Unique, Committed, Marks;
    ClosedTrail(l, Committed(l, putOk), i);
  }

  lemma ClosedTrail(l: Lane, t: Lane, i: nat)
    requires TrailAt(l, i) && l.fetch.None?
    requires t.stored == l.stored && t.log == l.log && t.confirmed == l.confirmed && t.mark <= t.confirmed
    requires if Held(l, i) then exists r :: LostFor(t, i, r) else SameFate(l, t, i)
    ensures TrailAt(Down(t), i)
  {
    DownHeld(t, i);
    hide Held;
  }

  lemma DownHeld(l: Lane, i: nat)
    ensures !Held(Down(l), i) && !Pending(Down(l), i) && SameFate(l, Down(l), i)
  {}

  lemma UniqueOf(l: Lane)
    requires Flight(l)
    ensures Unique(l)
  {}

  lemma MineTrail(l: Lane, more: seq<Logged>, i: nat)
    requires TrailAt(l, i)
    ensures TrailAt(Mine(l, more), i)
  {
    HeldSame(l, Mine(l, more), i);
    hide Held;
    TrailFrame(l, Mine(l, more), i);
  }

  // ---------------------------------------------------------------- every step keeps the whole invariant

  lemma HandleKeeps(l: Lane, head: nat, id: nat, pairs: map<bytes, bytes>, read: bool, h: Hash)
    requires Inv(l, head) && l.fetch.Some? && id in l.fetch.value.pending && h !in l.entries
    ensures id < |l.log| && l.log[id].deposit.Deposited? && Get(l, id).Ok?
    ensures Inv(Handle(l, id, pairs, read, h), head)
  {
    hide Sound, TrailAt, Handle, Get;
    HandleSound(l, head, id, pairs, read, h);
    forall i: nat
      ensures TrailAt(Handle(l, id, pairs, read, h), i)
    {
      HandleTrail(l, head, id, pairs, read, h, i);
    }
  }

  lemma TickKeeps(l: Lane, head: nat, end: nat, putOk: bool)
    requires Inv(l, head) && l.fetch.None? && l.confirmed <= end <= head && TickSafe(l, putOk)
    ensures Inv(Tick(l, end, putOk), head)
  {
    hide Sound, TrailAt, Tick;
    TickSound(l, head, end, putOk);
    forall i: nat
      ensures TrailAt(Tick(l, end, putOk), i)
    {
      TickTrail(l, head, end, putOk, i);
    }
  }

  lemma FilterStopsKeeps(l: Lane, head: nat)
    requires Inv(l, head) && l.fetch.Some?
    ensures Inv(FilterStops(l), head)
  {
    hide Sound, TrailAt, FilterStops;
    FilterStopsSound(l, head);
    forall i: nat
      ensures TrailAt(FilterStops(l), i)
    {
      FilterStopsTrail(l, head, i);
    }
  }

  lemma EndFetchKeeps(l: Lane, head: nat)
    requires Inv(l, head) && l.fetch.Some? && l.fetch.value.pending == {}
    ensures Inv(EndFetch(l), head)
  {
    hide Sound, TrailAt, EndFetch;
    EndFetchSound(l, head);
    forall i: nat
      ensures TrailAt(EndFetch(l), i)
    {
      EndFetchTrail(l, i);
    }
  }

  lemma BeginKeeps(l: Lane, head: nat, h: Hash, v: Verdict)
    requires Inv(l, head) && h in l.entries
    ensures Inv(Begin(l, h, v), head)
  {
    hide Sound, TrailAt, Begin;
    BeginSound(l, head, h, v);
    forall i: nat
      ensures TrailAt(Begin(l, h, v), i)
    {
      BeginTrail(l, h, v, i);
    }
  }

  lemma SettleKeeps(l: Lane, head: nat, h: Hash, status: int32, putOk: bool)
    requires Inv(l, head) && h in l.entries && (status == FAILED || status == SUCCEEDED)
    ensures Inv(Settle(l, h, status, putOk), head)
  {
    hide Sound, TrailAt, Settle;
    SettleSound(l, head, h, status, putOk);
    forall i: nat
      ensures TrailAt(Settle(l, h, status, putOk), i)
    {
      SettleTrail(l, head, h, status, putOk, i);
    }
  }

  lemma ResendKeeps(
    l: Lane, head: nat, h: Hash, pairs: map<bytes, bytes>, read: bool, built: bool, next: Hash)
    requires Inv(l, head) && h in l.entries && Retries(l.entries[h]) && next !in l.entries
    ensures Inv(Resend(l, h, pairs, read, built, next), head)
  {
    hide Sound, TrailAt, Resend, Retries;
    ResendSound(l, head, h, pairs, read, built, next);
    forall i: nat
      ensures TrailAt(Resend(l, h, pairs, read, built, next), i)
    {
      ResendTrail(l, head, h, pairs, read, built, next, i);
    }
  }

  lemma DownKeeps(l: Lane, head: nat)
    requires Inv(l, head)
    ensures Inv(Down(l), head)
  {
    hide Core, Flight, Accounted, Marks, TrailAt, Down;
    SoundParts(l, head);
    DownSound(l, head);
    forall i: nat
      ensures TrailAt(Down(l), i)
    {
      DownTrail(l, head, i);
    }
  }

  lemma CloseKeeps(l: Lane, head: nat, putOk: bool)
    requires Inv(l, head) && l.fetch.None?
    ensures Inv(Close(l, putOk), head)
  {
    hide Sound, TrailAt, Close;
    CloseSound(l, head, putOk);
    forall i: nat
      ensures TrailAt(Close(l, putOk), i)
    {
      CloseTrail(l, head, putOk, i);
    }
  }

  lemma MineKeeps(l: Lane, head: nat, more: seq<Logged>)
    requires Inv(l, head) && Continues(l, more, head + 1)
    ensures Inv(Mine(l, more), head + 1)
  {
    hide Sound, TrailAt, Mine, Continues;
    MineSound(l, head, more);
    forall i: nat
      ensures TrailAt(Mine(l, more), i)
    {
      MineTrail(l, more, i);
    }
  }

  /**
   A tick keeps the invariant exactly when it is a safe one. For the way back: what is in flight lies before the
   range by `TickSendsOnceIff`, and by `CommitAheadIff` not before the watermark, which are the same block.
   */
  lemma TickKeepsIff(l: Lane, head: nat, end: nat, putOk: bool)
    requires Inv(l, head) && l.fetch.None? && l.confirmed <= end <= head
    ensures Inv(Tick(l, end, putOk), head) <==> TickSafe(l, putOk)
  {
    var t := Tick(l, end, putOk);
    if TickSafe(l, putOk) {
      TickKeeps(l, head, end, putOk);
    }
    if Inv(t, head) {
      SentIsBehind(l, head, end, putOk);
      forall h | h in l.entries
        ensures !putOk
      {
        assert TrailAt(t, l.entries[h].event.id);
        HeldHere(t, h);
      }
    }
  }

  lemma SentIsBehind(l: Lane, head: nat, end: nat, putOk: bool)
    requires Sound(l, head) && l.fetch.None? && l.confirmed <= end && Flight(Tick(l, end, putOk))
    ensures BehindRange(l)
  {
    hide Sound, Core, EntriesOk, Unique, BehindRange;
    TickSendsOnceIff(l, head, end, putOk);
  }

  /** Strictly below the watermark nothing is in flight or to come, and the last that became of a deposit stands. */
  lemma BelowMark(l: Lane, head: nat, id: nat)
    requires Inv(l, head) && id < |l.log| && l.log[id].block < l.mark
    ensures !Held(l, id) && !Pending(l, id) && id in l.fate && !l.fate[id].Sending?
    ensures l.fate[id].Kept? ==> id in l.stored && Final(l.stored[id])
    ensures forall r :: l.fate[id] == Lost(r) ==> LostFor(l, id, r)
  {
    assert TrailAt(l, id) && Covered(l, id);
    SoundParts(l, head);
    hide Sound, Core, Flight, LogOk, Held;
  }

  // ---------------------------------------------------------------- what never goes back

  /**
   From one state of a lane to a later one: the watermark does not fall, a record stored as SUCCEEDED
   stays as it is, no stored retry count falls, and the histories only grow.
   */
  predicate Forward(l: Lane, t: Lane) {
    && l.nft == t.nft && l.log <= t.log && l.mark <= t.mark && l.minted <= t.minted
    && l.dropped.Keys <= t.dropped.Keys
    && forall id :: id in l.stored ==>
         && id in t.stored && l.stored[id].retry <= t.stored[id].retry
         && (l.stored[id].status == SUCCEEDED ==> t.stored[id] == l.stored[id])
  }

  lemma ForwardChains(l: Lane, t: Lane, u: Lane)
    requires Forward(l, t) && Forward(t, u)
    ensures Forward(l, u)
  {}

  lemma SentForward(l: Lane, h: Hash, e: Msg, to: bytes)
    ensures Forward(l, Sent(l, h, e, to))
  {
    hide MintTx;
  }

  lemma HandleForward(l: Lane, id: nat, pairs: map<bytes, bytes>, read: bool, h: Hash)
    requires l.fetch.Some? && id < |l.log| && l.log[id].deposit.Deposited? && Get(l, id).Ok?
    ensures Forward(l, Handle(l, id, pairs, read, h))
  {
    hide Get, Sent;
    var rest, e := TakePending(l, id), Get(l, id).value;
    if e.token in pairs {
      SentForward(rest, h, e, pairs[e.token]);
    }
  }

  lemma TickForward(l: Lane, head: nat, end: nat, putOk: bool)
    requires Marks(l, head)
    ensures Forward(l, Tick(l, end, putOk)) && Forward(l, Close(l, putOk))
  {}

  lemma EntryIsLater(l: Lane, e: Entry)
    requires EntryOk(l, e)
    ensures e.event.id in l.stored ==>
              l.stored[e.event.id].status == FAILED && l.stored[e.event.id].retry <= e.event.retry
  {}

  lemma SettleForward(l: Lane, head: nat, h: Hash, status: int32, putOk: bool)
    requires Sound(l, head) && h in l.entries
    ensures Forward(l, Settle(l, h, status, putOk))
  {
    hide Sound, RecordOf, MintTx, EntryOk;
    EntryParts(l, head, h);
    EntryIsLater(l, l.entries[h]);
  }

  lemma ResendForward(l: Lane, h: Hash, pairs: map<bytes, bytes>, read: bool, built: bool, next: Hash)
    requires h in l.entries && Retries(l.entries[h])
    ensures Forward(l, Resend(l, h, pairs, read, built, next))
  {
    hide MintTx;
  }
}
