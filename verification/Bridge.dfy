/**
 The relayer's process as an object: its event maps, its watermarks in memory, the store behind it, and the
 handlers that change them. Every method is proved to take the steps of the machine that it stands for, so
 that whatever the process does is a run, and what holds of runs holds of it.
 */
module Bridge {
  import opened Bytes
  import opened Encoding
  import opened Events
  import opened Lanes
  import opened Message
  import opened Process
  import opened Relayer
  import opened Seam
  import opened Store
  import Runs

  datatype SendResult = Enqueued(tx: Tx) | NoPair | NotBuilt | NotEnqueued

  class Bridge {
    const db: DB
    var eventMapERC20: map<Hash, EventERC20Deposited>
    var eventMapNFT: map<Hash, EventNFTDeposited>
    var confirmedBlockERC20: uint64
    var confirmedBlockNFT: uint64

    /** The events in the hands of the callbacks that are running. */
    var runningERC20: map<Hash, EventERC20Deposited>
    var runningNFT: map<Hash, EventNFTDeposited>
    ghost var st: State

    /** The event objects of the process. */
    ghost function Objects(): set<object>
      reads this`eventMapERC20, this`eventMapNFT, this`runningERC20, this`runningNFT
    {
      eventMapERC20.Values + eventMapNFT.Values + runningERC20.Values + runningNFT.Values
    }

    ghost function Mem(): Memory
      reads this`eventMapERC20, this`eventMapNFT, this`confirmedBlockERC20, this`confirmedBlockNFT
      reads this`runningERC20, this`runningNFT, Objects()
    {
      Memory(Part(ModelsERC20(eventMapERC20), ModelsERC20(runningERC20), confirmedBlockERC20),
             Part(ModelsNFT(eventMapNFT), ModelsNFT(runningNFT), confirmedBlockNFT))
    }

    /** The object is where the machine is. */
    ghost predicate Valid()
      reads this, db, Objects()
    {
      Holds(st, db.kv, Mem())
    }

    /** The store, at least, is where the machine is, whatever has become of the memory. */
    ghost predicate Persists()
      reads this`st, db
    {
      Relayer.Inv(st) && st.up && Stores(db.kv, st)
    }

    lemma ValidPersists()
      requires Valid()
      ensures Persists()
    {
      hide Relayer.Inv, Stores, Tracks, Mem;
    }

    /** Whether the map of a kind holds anything. */
    predicate Busy(nft: bool)
      reads this`eventMapERC20, this`eventMapNFT
    {
      if nft then eventMapNFT != map[] else eventMapERC20 != map[]
    }

    method WriteEventMap(h: Hash, e: Event)
      modifies this`eventMapERC20, this`eventMapNFT
      ensures eventMapERC20 == match e case ERC20(v) => old(eventMapERC20)[h := v] case NFT(_) => old(eventMapERC20)
      ensures eventMapNFT == match e case NFT(v) => old(eventMapNFT)[h := v] case ERC20(_) => old(eventMapNFT)
      ensures Mem() == Noted(old(Mem()), e.NFT?, h, e.Model()) && Objects() <= old(Objects()) + {e.Obj()}
    {
      hide ModelsERC20, ModelsNFT, EventERC20Deposited.Model, EventNFTDeposited.Model;
      match e {
        case ERC20(v) => WriteERC20(eventMapERC20, h, v);
        case NFT(v) => WriteNFT(eventMapNFT, h, v);
      }
      match e
      case ERC20(v) => eventMapERC20 := eventMapERC20[h := v];
      case NFT(v) => eventMapNFT := eventMapNFT[h := v];
    }

    method ReadEventMap(h: Hash) returns (e: Option<Event>)
      ensures e == if h in eventMapERC20 then Some(ERC20(eventMapERC20[h]))
                   else if h in eventMapNFT then Some(NFT(eventMapNFT[h])) else None
    {
      if h in eventMapERC20 {
        return Some(ERC20(eventMapERC20[h]));
      }
      if h in eventMapNFT {
        return Some(NFT(eventMapNFT[h]));
      }
      return None;
    }

    method DeleteEventMap(h: Hash)
      modifies this`eventMapERC20, this`eventMapNFT
      ensures eventMapERC20 == if h in old(eventMapERC20) then old(eventMapERC20) - {h} else old(eventMapERC20)
      ensures eventMapNFT == if h !in old(eventMapERC20) && h in old(eventMapNFT)
                             then old(eventMapNFT) - {h} else old(eventMapNFT)
    {
      if h in eventMapERC20 {
        eventMapERC20 := eventMapERC20 - {h};
        return;
      }
      if h in eventMapNFT {
        eventMapNFT := eventMapNFT - {h};
        return;
      }
    }

    /** The mint transaction for an event. */
    method Mint(e: Event, to: bytes) returns (tx: Tx)
      ensures tx == MintTx(e.Model(), to)
    {
      match e
      case ERC20(v) =>
        var amount := ParseDecimal(v.amount);
        tx := Tx(to, v.sender, amount);
      case NFT(v) =>
        var tokenid := AsInt64(v.tokenid);
        tx := Tx(to, v.sender, tokenid);
    }

    /** `GetPair`, whose errors all mean the same to its caller. */
    method GetPair(token: bytes, read: bool) returns (out: Option<bytes>)
      requires StoresPairs(db.kv, st.pairs)
      ensures out == if read && token in st.pairs then Some(st.pairs[token]) else None
    {
      hide Find;
      if !read {
        return None;
      }
      var pair := db.Get(PairKey(token));
      out := if pair.None? then None else Some(pair.value.out);
    }

    /** The entry is written before the transaction is handed over, whether or not it is then taken. */
    method Send(e: Event, c: Choice) returns (r: SendResult)
      requires StoresPairs(db.kv, st.pairs)
      modifies this`eventMapERC20, this`eventMapNFT
      ensures var token := e.Model().token;
              if !c.read || token !in st.pairs then r == NoPair
              else if !c.built then r == NotBuilt
              else r == if c.enqueued then Enqueued(MintTx(e.Model(), st.pairs[token])) else NotEnqueued
      ensures r.NoPair? || r.NotBuilt? ==> eventMapERC20 == old(eventMapERC20) && eventMapNFT == old(eventMapNFT)
      ensures r.Enqueued? || r.NotEnqueued? ==>
                match e
                case ERC20(v) => eventMapERC20 == old(eventMapERC20)[c.hash := v] && eventMapNFT == old(eventMapNFT)
                case NFT(v) => eventMapNFT == old(eventMapNFT)[c.hash := v] && eventMapERC20 == old(eventMapERC20)
      ensures Mem() ==
                if r.Enqueued? || r.NotEnqueued? then Noted(old(Mem()), e.NFT?, c.hash, e.Model()) else old(Mem())
      ensures Objects() <= old(Objects()) + {e.Obj()}
    {
      hide StoresPairs, MintTx, Noted, ModelsERC20, ModelsNFT;
      var token := match e case ERC20(v) => v.token case NFT(v) => v.token;
      var to := GetPair(token, c.read);
      if to.None? {
        return NoPair;
      }
      var tx := Mint(e, to.value);
      if !c.built {
        return NotBuilt;
      }
      WriteEventMap(c.hash, e);
      if !c.enqueued {
        return NotEnqueued;
      }
      return Enqueued(tx);
    }

    /** A process starts from what an earlier one left in the store. */
    constructor (db: DB, ghost was: State, ghost pairs: map<bytes, bytes>)
      requires Relayer.Inv(was) && !was.up && Stores(db.kv, was.(pairs := pairs))
      ensures Valid() && this.db == db && Objects() == {} && Idle(st) && Runs.Goes(was, [Restart(pairs)], st)
    {
      hide Find, Relayer.Inv, Holds, StoresLane, StoresPairs, Runs.Goes;
      this.db := db;
      eventMapERC20, eventMapNFT := map[], map[];
      runningERC20, runningNFT := map[], map[];
      var erc20 := db.Get(BlockKey(false));
      var nft := db.Get(BlockKey(true));
      confirmedBlockERC20, confirmedBlockNFT := Watermark(erc20), Watermark(nft);
      ghost var t := Restarted(was, db.kv, pairs);
      st := t;
      new;
      MarkOf(db.kv, false, was.erc20);
      MarkOf(db.kv, true, was.nft);
      assert Mem() == Blank(was);
    }

    /** The machine has moved on to where the object is. */
    ghost method Become(t: State)
      requires Holds(t, db.kv, Mem())
      modifies this`st
      ensures Valid() && st == t && Mem() == old(Mem()) && Objects() == old(Objects())
    {
      hide Holds, ModelsERC20, ModelsNFT;
      st := t;
    }

    // -------------------------------------------------------------- handling logs

    /** `e.Get`: the event becomes what the machine sees, and reading never fails. */
    method Recall(e: Event, ghost id: nat) returns (r: Outcome)
      requires Valid() && e.Obj() !in Objects() && Yields(LaneOf(st, e.NFT?), id)
      requires e.Model() == FromLog(e.NFT?, LaneOf(st, e.NFT?).log[id].deposit)
      modifies e.Obj()
      ensures Valid() && Mem() == old(Mem())
      ensures Gets(LaneOf(st, e.NFT?), id, e.Model())
      ensures r == if id in LaneOf(st, e.NFT?).stored then Found else NotFound
    {
      hide Find, Relayer.Inv, Remembers, FromLog, Encode, Lanes.Get, HoldsRecords, Stores, Unmarshal;
      hide EventERC20Deposited.Model, EventNFTDeposited.Model, LaneOf, Mem;
      HoldsParts(st, db.kv, Mem(), e.NFT?);
      YieldsHere(LaneOf(st, e.NFT?), id);
      Seen(db.kv, st, e.NFT?, id);
      StoreHolds(db.kv, st);
      ghost var was := Mem();
      r := e.Get(db);
      assert Mem() == was;
    }

    /** The second part of an iteration: the event is sent. */
    method SendLog(e: Event, c: Choice, ghost id: nat, ghost found: bool) returns (ok: bool)
      requires Valid() && e.Obj() !in Objects() && c.hash !in st.used && Yields(LaneOf(st, e.NFT?), id)
      requires Gets(LaneOf(st, e.NFT?), id, e.Model()) && found == (id in LaneOf(st, e.NFT?).stored)
      requires !(found && e.Model().status == SUCCEEDED)
      modifies this
      ensures ok ==> Valid() && Runs.Goes(old(st), [Step.Handle(e.NFT?, id, c.read, c.hash)], st)
      ensures !ok ==> st == old(st) && Stores(db.kv, st)
      ensures ok <==> !Sends(LaneOf(old(st), e.NFT?), id, old(st).pairs, c.read) || (c.built && c.enqueued)
      ensures Objects() <= old(Objects()) + {e.Obj()}
    {
      hide Relayer.Inv, Holds, Runs.Goes, Lanes.Get, Gets, Yields, MintTx, StoresLane, StoresPairs, LaneOf;
      hide ModelsERC20, ModelsNFT, EventERC20Deposited.Model, EventNFTDeposited.Model, Handled, WithPart, PartOf;
      HoldsParts(st, db.kv, Mem(), e.NFT?);
      hide Remembers, Tracks, Mem, Noted, Objects;
      ghost var was := Mem();
      ghost var t := HandleTarget(st, db.kv, was, e.NFT?, id, c, e.Model(), found);
      HandledIs(was, e.NFT?, st.pairs, c, e.Model(), found);
      SendsIs(LaneOf(st, e.NFT?), id, e.Model(), st.pairs, c.read);
      hide Relayer.Sends;
      var sent := Send(e, c);
      match sent
      case NotBuilt => return false;
      case NotEnqueued => return false;
      case NoPair =>
        Become(t);
        return true;
      case Enqueued(_) =>
        Become(t);
        return true;
    }

    /** One iteration of `handleLogs`. When it fails, the error ends the process. */
    method HandleLog(e: Event, c: Choice, ghost id: nat) returns (ok: bool)
      requires Valid() && e.Obj() !in Objects() && c.hash !in st.used && Yields(LaneOf(st, e.NFT?), id)
      requires e.Model() == FromLog(e.NFT?, LaneOf(st, e.NFT?).log[id].deposit)
      modifies this, e.Obj()
      ensures ok ==> Valid() && Runs.Goes(old(st), [Step.Handle(e.NFT?, id, c.read, c.hash)], st)
      ensures !ok ==> st == old(st) && Persists()
      ensures ok <==> !Sends(LaneOf(old(st), e.NFT?), id, old(st).pairs, c.read) || (c.built && c.enqueued)
      ensures Objects() <= old(Objects()) + {e.Obj()}
    {
      hide Relayer.Inv, Runs.Goes, Lanes.Get, Gets, Yields, Stores, LaneOf, FromLog, Mem, Handled;
      hide EventERC20Deposited.Model, EventNFTDeposited.Model;
      var r := Recall(e, id);
      if r.Corrupt? {
        return false;
      }
      if r.Found? && e.Model().status == SUCCEEDED {
        SendsIs(LaneOf(st, e.NFT?), id, e.Model(), st.pairs, c.read);
        ghost var t := HandleTarget(st, db.kv, Mem(), e.NFT?, id, c, e.Model(), true);
        HandledIs(Mem(), e.NFT?, st.pairs, c, e.Model(), true);
        Become(t);
        return true;
      }
      ok := SendLog(e, c, id, r.Found?);
    }

    // -------------------------------------------------------------- callbacks

    /** A callback for `h` runs, and has `e` in its hands. */
    predicate Has(h: Hash, e: Event)
      reads this`runningERC20, this`runningNFT
    {
      match e
      case ERC20(v) => h in runningERC20 && runningERC20[h] == v
      case NFT(v) => h in runningNFT && runningNFT[h] == v
    }

    lemma HasModel(h: Hash, e: Event)
      requires Has(h, e)
      ensures var p := PartOf(Mem(), e.NFT?); h in p.calls && p.calls[h] == e.Model()
      ensures e.Obj() in Objects()
    {}

    lemma Present(h: Hash)
      ensures h in eventMapERC20 <==> h in Mem().erc20.events
      ensures h in eventMapNFT <==> h in Mem().nft.events
      ensures h in runningERC20 <==> h in Mem().erc20.calls
      ensures h in runningNFT <==> h in Mem().nft.calls
    {}

    /** What is remembered when event `e` has gone from its map, `m20` or `mNFT`, to its callback. */
    lemma TakenMem(h: Hash, e: Event, was: Memory,
                   m20: map<Hash, EventERC20Deposited>, mNFT: map<Hash, EventNFTDeposited>,
                   r20: map<Hash, EventERC20Deposited>, rNFT: map<Hash, EventNFTDeposited>)
      requires was.erc20 == Part(ModelsERC20(m20), ModelsERC20(r20), confirmedBlockERC20)
      requires was.nft == Part(ModelsNFT(mNFT), ModelsNFT(rNFT), confirmedBlockNFT)
      requires match e
               case ERC20(v) =>
                 && h in m20 && m20[h] == v && eventMapERC20 == m20 - {h} && runningERC20 == r20[h := v]
                 && eventMapNFT == mNFT && runningNFT == rNFT
               case NFT(v) =>
                 && h in mNFT && mNFT[h] == v && eventMapNFT == mNFT - {h} && runningNFT == rNFT[h := v]
                 && eventMapERC20 == m20 && runningERC20 == r20
      ensures h in PartOf(was, e.NFT?).events && Mem() == TakenOut(was, e.NFT?, h) && Has(h, e)
      ensures Objects() <= m20.Values + mNFT.Values + r20.Values + rNFT.Values
    {
      match e
      case ERC20(v) =>
        assert v in m20.Values;
        assert h in ModelsERC20(m20) && ModelsERC20(m20)[h] == v.Model();
        hide ModelsERC20, ModelsNFT, EventERC20Deposited.Model, EventNFTDeposited.Model;
        WriteERC20(m20, h, v);
        WriteERC20(r20, h, v);
      case NFT(v) =>
        assert v in mNFT.Values;
        assert h in ModelsNFT(mNFT) && ModelsNFT(mNFT)[h] == v.Model();
        hide ModelsERC20, ModelsNFT, EventERC20Deposited.Model, EventNFTDeposited.Model;
        WriteNFT(mNFT, h, v);
        WriteNFT(rNFT, h, v);
    }

    /** The first half of both handlers: the event of a hash is read from its map and deleted there. */
    method Take(h: Hash, v: Verdict) returns (e: Option<Event>)
      requires Valid() && h !in st.stuck
      modifies this
      ensures Valid() && Objects() <= old(Objects()) && st.used == old(st).used
      ensures h !in old(st).outstanding ==> e.None? && st == old(st)
      ensures h in old(st).outstanding ==>
                && e.Some? && Has(h, e.value) && Judged(st, e.value.NFT?, h, v)
                && Runs.Goes(old(st), [Callback(h, v)], st)
    {
      hide Relayer.Inv, Stores, Holds, Runs.Goes, EventERC20Deposited.Model, EventNFTDeposited.Model, Judged;
      hide ModelsERC20, ModelsNFT, TakenOut, WithPart;
      Called(st, db.kv, Mem(), h);
      Present(h);
      e := ReadEventMap(h);
      if e.None? {
        return;
      }
      ghost var was := Mem();
      ghost var t := TakeTarget(st, db.kv, was, e.value.NFT?, h, v);
      DeleteEventMap(h);
      match e.value {
        case ERC20(x) => runningERC20 := runningERC20[h := x];
        case NFT(x) => runningNFT := runningNFT[h := x];
      }
      TakenMem(h, e.value, was, old(eventMapERC20), old(eventMapNFT), old(runningERC20), old(runningNFT));
      Become(t);
    }

    /** No other entry has the object in the hands of a callback. */
    lemma ApartERC20(h: Hash)
      requires Remembers(st, Mem()) && h in runningERC20
      ensures runningERC20[h] !in eventMapERC20.Values && runningERC20[h] !in (runningERC20 - {h}).Values
    {
      Alone(st, Mem(), false);
      var p := Mem().erc20;
      hide Remembers, Mem;
      forall g | g in eventMapERC20
        ensures eventMapERC20[g] != runningERC20[h]
      {
        assert p.events[g].id != p.calls[h].id;
      }
      forall g | g in runningERC20 - {h}
        ensures runningERC20[g] != runningERC20[h]
      {
        assert p.calls[g].id != p.calls[h].id;
      }
    }

    lemma ApartNFT(h: Hash)
      requires Remembers(st, Mem()) && h in runningNFT
      ensures runningNFT[h] !in eventMapNFT.Values && runningNFT[h] !in (runningNFT - {h}).Values
    {
      Alone(st, Mem(), true);
      var p := Mem().nft;
      hide Remembers, Mem;
      forall g | g in eventMapNFT
        ensures eventMapNFT[g] != runningNFT[h]
      {
        assert p.events[g].id != p.calls[h].id;
      }
      forall g | g in runningNFT - {h}
        ensures runningNFT[g] != runningNFT[h]
      {
        assert p.calls[g].id != p.calls[h].id;
      }
    }

    /** The callback gives its event out of its hands. */
    method Release(h: Hash, e: Event)
      requires Remembers(st, Mem()) && Has(h, e)
      modifies this`runningERC20, this`runningNFT
      ensures Mem() == Freed(old(Mem()), e.NFT?, h) && Objects() <= old(Objects()) && e.Obj() !in Objects()
    {
      hide Remembers, ModelsERC20, ModelsNFT, EventERC20Deposited.Model, EventNFTDeposited.Model;
      match e
      case ERC20(v) =>
        ApartERC20(h);
        WriteERC20(runningERC20, h, v);
        runningERC20 := runningERC20 - {h};
      case NFT(v) =>
        ApartNFT(h);
        WriteNFT(runningNFT, h, v);
        runningNFT := runningNFT - {h};
    }

    /** An event that nothing else holds is given its status and stored. */
    method PutEvent(e: Event, status: int32, works: bool) returns (ok: bool)
      requires e.Obj() !in Objects() && |Encode(Marked(e.Model(), status))| <= MAX_INT
      modifies db, e.Obj()
      ensures ok == works && Mem() == old(Mem()) && e.Model() == Marked(old(e.Model()), status)
      ensures var k := EventKey(e.NFT?, e.Model().id);
              && Find(db.kv, k) == (if ok then Some(Record(Encode(e.Model()))) else Find(old(db.kv), k))
              && forall l :: l != k ==> Find(db.kv, l) == Find(old(db.kv), l)
    {
      hide Encode, Find, ModelsERC20, ModelsNFT, EventERC20Deposited.Model, EventNFTDeposited.Model;
      e.SetStatus(status);
      ok := e.Put(db, works);
    }

    /** An event that nothing else holds is given its next retry count. */
    method RaiseRetry(e: Event)
      requires e.Obj() !in Objects() && e.Model().retry < 3
      modifies e.Obj()
      ensures Mem() == old(Mem()) && e.Model() == Raised(old(e.Model()))
    {
      hide ModelsERC20, ModelsNFT, EventERC20Deposited.Model, EventNFTDeposited.Model;
      e.SetRetry(e.Model().retry + 1);
    }

    /** The last action of a callback that ends the deposit: set the status and store the event. */
    method Conclude(h: Hash, e: Event, v: Verdict, status: int32, works: bool, ghost c: Choice) returns (ok: bool)
      requires Valid() && Has(h, e) && Judged(st, e.NFT?, h, v) && c.hash !in st.used
      requires Verdicts(v, e.Model().retry) == Some(status)
      modifies this, db, e.Obj()
      ensures ok == works && Valid() && Runs.Goes(old(st), [FinishOf(h, works, c)], st) && Objects() <= old(Objects())
    {
      hide Relayer.Inv, Remembers, Stores, Runs.Goes, Verdicts, Encode, Wrote, Judged, FinishOf, Freed, Mem, Find;
      hide EventERC20Deposited.Model, EventNFTDeposited.Model;
      HasModel(h, e);
      ghost var kv := db.kv;
      ghost var t := ConcludeTarget(st, kv, Mem(), e.NFT?, h, v, works, c, status);
      Release(h, e);
      ok := PutEvent(e, status, works);
      PutStores(kv, db.kv, st, t, e.NFT?, e.Model(), ok);
      Become(t);
    }

    /** The last action of a callback that sends the deposit again; an error of `Send` is only logged. */
    method Retry(h: Hash, e: Event, ghost works: bool, c: Choice)
      requires Valid() && Has(h, e) && Judged(st, e.NFT?, h, TxFailed) && c.hash !in st.used && e.Model().retry < 3
      modifies this, e.Obj()
      ensures Valid() && Runs.Goes(old(st), [FinishOf(h, works, c)], st) && Objects() <= old(Objects())
    {
      hide Relayer.Inv, Remembers, StoresLane, StoresPairs, Runs.Goes, Judged, FinishOf, Freed, Mem, MintTx, Noted;
      hide Retried, Raised;
      hide EventERC20Deposited.Model, EventNFTDeposited.Model;
      HasModel(h, e);
      ghost var was, m := Mem(), e.Model();
      ghost var t := RetryTarget(st, db.kv, was, e.NFT?, h, works, c, Raised(m));
      RetriedIs(was, e.NFT?, h, st.pairs, c, Raised(m));
      Release(h, e);
      RaiseRetry(e);
      var _ := Send(e, c);
      Become(t);
    }

    /** The second half of the error handler: give up or send again. */
    method EndErr(h: Hash, e: Event, v: Verdict, works: bool, c: Choice)
      requires Valid() && Has(h, e) && Judged(st, e.NFT?, h, v) && c.hash !in st.used && !v.Confirmed?
      modifies this, db, e.Obj()
      ensures Valid() && Runs.Goes(old(st), [FinishOf(h, works, c)], st) && Objects() <= old(Objects())
    {
      hide Holds, Runs.Goes, Judged, FinishOf, Mem, EventERC20Deposited.Model, EventNFTDeposited.Model;
      if e.Model().retry >= 3 || !v.TxFailed? {
        var _ := Conclude(h, e, v, FAILED, works, c);
        return;
      }
      Retry(h, e, works, c);
    }

    /** A transaction was confirmed. */
    method ConfirmedHandler(h: Hash, works: bool, ghost c: Choice) returns (ok: bool)
      requires Valid() && h !in st.stuck && c.hash !in st.used
      modifies this, db, Objects()
      ensures Valid() && Objects() <= old(Objects())
      ensures if h !in old(st).outstanding then ok && st == old(st)
              else ok == works && Runs.Goes(old(st), [Callback(h, Confirmed), FinishOf(h, works, c)], st)
    {
      hide Holds, Runs.Goes, Judged, FinishOf, Mem, EventERC20Deposited.Model, EventNFTDeposited.Model;
      ghost var s := st;
      var e := Take(h, Confirmed);
      if e.None? {
        return true;
      }
      ghost var half := st;
      HasModel(h, e.value);
      ok := Conclude(h, e.value, Confirmed, SUCCEEDED, works, c);
      Runs.GoesAppend(s, [Callback(h, Confirmed)], half, [FinishOf(h, works, c)], st);
      assert [Callback(h, Confirmed)] + [FinishOf(h, works, c)] == [Callback(h, Confirmed), FinishOf(h, works, c)];
    }

    /** A transaction failed, or its confirmation could not be established. */
    method ConfirmerErrHandler(h: Hash, v: Verdict, works: bool, c: Choice)
      requires Valid() && h !in st.stuck && c.hash !in st.used && !v.Confirmed?
      modifies this, db, Objects()
      ensures Valid() && Objects() <= old(Objects())
      ensures if h !in old(st).outstanding then st == old(st)
              else Runs.Goes(old(st), [Callback(h, v), FinishOf(h, works, c)], st)
    {
      hide Holds, Runs.Goes, Judged, FinishOf, Mem, EventERC20Deposited.Model, EventNFTDeposited.Model;
      ghost var s := st;
      var e := Take(h, v);
      if e.None? {
        return;
      }
      ghost var half := st;
      HasModel(h, e.value);
      EndErr(h, e.value, v, works, c);
      Runs.GoesAppend(s, [Callback(h, v)], half, [FinishOf(h, works, c)], st);
      assert [Callback(h, v)] + [FinishOf(h, works, c)] == [Callback(h, v), FinishOf(h, works, c)];
    }

    // -------------------------------------------------------------- what happens meanwhile

    /** The callback for `h` that runs. */
    method Handed(h: Hash) returns (e: Event)
      requires Valid() && (Running(st.erc20, h) || Running(st.nft, h))
      ensures Has(h, e) && Running(LaneOf(st, e.NFT?), h)
    {
      Taking(st, Mem(), h);
      Present(h);
      hide Holds, Mem;
      if h in runningERC20 {
        return ERC20(runningERC20[h]);
      }
      return NFT(runningNFT[h]);
    }

    /** Either half of a callback, or a block. */
    method Happen(nft: bool, a: Happening)
      requires Valid() && Enabled(st, StepOf(nft, a)) && Truthful(st, nft, a) && !a.Arrives?
      modifies this, db, Objects()
      ensures Valid() && Objects() <= old(Objects()) && Runs.Goes(old(st), [StepOf(nft, a)], st)
    {
      hide Holds, Runs.Goes, FinishOf, Mem, EventERC20Deposited.Model, EventNFTDeposited.Model, Fits, Judged;
      match a
      case CallBegins(h, v) =>
        NotStuck(st, db.kv, Mem(), h);
        var _ := Take(h, v);
      case CallEnds(h, v, works, c) =>
        EndsHere(st, h, works, c);
        var e := Handed(h);
        HasModel(h, e);
        OnlyJudged(st, db.kv, Mem(), e.NFT?, h, v);
        if v.Confirmed? {
          var _ := Conclude(h, e, v, SUCCEEDED, works, c);
        } else {
          EndErr(h, e, v, works, c);
        }
      case Mined(calls) =>
        ghost var t := MineTarget(st, db.kv, Mem(), calls);
        Become(t);
    }

    // -------------------------------------------------------------- a fetch

    /** The loop over the channel, and what happens between its iterations, up to a log whose sending fails. */
    method HandleLogs(nft: bool, hs: seq<Happening>, ghost end: nat) returns (ok: bool)
      requires Valid() && Fetching(st, nft, end) && Plausible(st, nft, hs)
      modifies this, db, Objects()
      ensures Persists() && fresh(Objects() - old(Objects()))
      ensures ok ==> Valid() && Fetching(st, nft, end) && Runs.Goes(old(st), StepsOf(nft, hs), st)
      ensures ok <==> FirstBlocked(old(st), nft, hs) == |hs|
      ensures !ok ==> Runs.Goes(old(st), StepsOf(nft, hs)[..FirstBlocked(old(st), nft, hs)], st)
    {
      hide Holds, Runs.Goes, Mem, EventERC20Deposited.Model, EventNFTDeposited.Model, Plausible, StepOf, StepsOf;
      hide Enabled, Truthful, Yields, Fetching, FromLog, LaneOf, Persists, Valid, Objects;
      Runs.NoneGone(st);
      assert hs[0..] == hs && StepsOf(nft, hs)[..0] == [];
      var i := 0;
      ghost var more: set<object> := {};
      while i < |hs|
        invariant i <= |hs| && Valid() && Fetching(st, nft, end) && Plausible(st, nft, hs[i..])
        invariant Runs.Goes(old(st), StepsOf(nft, hs)[..i], st)
        invariant i + FirstBlocked(st, nft, hs[i..]) == FirstBlocked(old(st), nft, hs)
        invariant Objects() <= old(Objects()) + more && fresh(more)
      {
        ghost var before, objects := st, Objects();
        BlockedHere(st, nft, hs[i..]);
        label L:
        ok := Iterate(nft, hs[i]);
        forall o | o in Objects() - objects
          ensures fresh(o)
        {
          assert fresh@L(o);
        }
        more := more + (Objects() - objects);
        assert Objects() <= old(Objects()) + more;
        if !ok {
          return;
        }
        StaysFetching(before, nft, hs[i], st, end);
        BlockedLater(before, nft, hs[i..], st);
        assert hs[i..][1..] == hs[i + 1..];
        GoesMore(old(st), nft, hs, i, before, st);
        i := i + 1;
      }
      assert StepsOf(nft, hs)[..i] == StepsOf(nft, hs) && hs[i..] == [];
      NoneBlocked(st, nft);
      ValidPersists();
      return true;
    }

    /** One turn of the loop, or one happening between two turns. */
    method Iterate(nft: bool, a: Happening) returns (ok: bool)
      requires Valid() && Enabled(st, StepOf(nft, a)) && Truthful(st, nft, a)
      modifies this, db, Objects()
      ensures fresh(Objects() - old(Objects()))
      ensures ok ==> Valid() && Runs.Goes(old(st), [StepOf(nft, a)], st)
      ensures !ok ==> st == old(st) && Persists()
      ensures ok <==> !Blocked(old(st), nft, a)
    {
      hide Holds, Runs.Goes, Mem, EventERC20Deposited.Model, EventNFTDeposited.Model, Yields, FromLog, LaneOf;
      match a
      case Arrives(d, c) =>
        ArrivesHere(st, nft, d, c);
        var e := ToEvent(nft, d);
        ok := HandleLog(e, c, d.id);
      case CallBegins(_, _) =>
        Happen(nft, a);
        ok := true;
      case CallEnds(_, _, _, _) =>
        Happen(nft, a);
        ok := true;
      case Mined(_) =>
        Happen(nft, a);
        ok := true;
    }

    /** `ConfirmedBlock.Put`: an error of the store is dropped. */
    method PutBlock(nft: bool, works: bool)
      modifies db
      ensures Find(db.kv, BlockKey(nft)) ==
                if works then Some(Block(if nft then confirmedBlockNFT else confirmedBlockERC20))
                else Find(old(db.kv), BlockKey(nft))
      ensures forall l :: l != BlockKey(nft) ==> Find(db.kv, l) == Find(old(db.kv), l)
    {
      hide Find;
      var _ := db.Put(BlockKey(nft), Block(if nft then confirmedBlockNFT else confirmedBlockERC20), works);
    }

    /**
     `FetchERC20` and `FetchNFT` from where the filter starts: it yields logs and stops. When it stops short of
     the range, which is only logged, the rest is given up.
     */
    method Fetch(nft: bool, hs: seq<Happening>, ghost end: nat) returns (ok: bool)
      requires Valid() && Fetching(st, nft, end) && Plausible(st, nft, hs)
      modifies this, db, Objects()
      ensures Persists() && fresh(Objects() - old(Objects()))
      ensures ok ==> Valid() && Fetched(st, nft, end)
      ensures ok ==> Runs.Goes(old(st), StepsOf(nft, hs) + [Step.FilterStops(nft)], st)
      ensures ok <==> FirstBlocked(old(st), nft, hs) == |hs|
      ensures !ok ==> Runs.Goes(old(st), StepsOf(nft, hs)[..FirstBlocked(old(st), nft, hs)], st)
    {
      hide Relayer.Inv, Holds, Runs.Goes, Mem, Plausible, StepsOf, Fetching, Fetched, Persists;
      ok := HandleLogs(nft, hs, end);
      if ok {
        ghost var t := StopTarget(st, db.kv, Mem(), nft, end);
        Runs.GoesAppend(old(st), StepsOf(nft, hs), st, [Step.FilterStops(nft)], t);
        Become(t);
        ValidPersists();
      }
    }

    // -------------------------------------------------------------- the end

    method CanClose() returns (can: bool)
      ensures can <==> !Busy(false) && !Busy(true)
    {
      can := |eventMapERC20| == 0 && |eventMapNFT| == 0;
    }

    /** What happens in one second of waiting, before what happens in the next. */
    method Pass(hs: seq<Happening>, ghost later: seq<Happening>)
      requires Valid() && Idle(st) && Plausible(st, false, hs + later)
      modifies this, db, Objects()
      ensures Valid() && Idle(st) && Plausible(st, false, later) && Objects() <= old(Objects())
      ensures Runs.Goes(old(st), StepsOf(false, hs), st)
    {
      hide Holds, Runs.Goes, Mem, Plausible, StepOf, StepsOf, Enabled, Truthful, Idle;
      ghost var all := hs + later;
      Runs.NoneGone(st);
      assert all[0..] == all && StepsOf(false, all)[..0] == [];
      for i := 0 to |hs|
        invariant Valid() && Idle(st) && Plausible(st, false, all[i..]) && Objects() <= old(Objects())
        invariant Runs.Goes(old(st), StepsOf(false, all)[..i], st)
      {
        ghost var before := st;
        First(st, false, all[i..]);
        assert all[i..][0] == hs[i] == all[i];
        NoArrival(st, false, hs[i]);
        Happen(false, hs[i]);
        StaysIdle(before, false, hs[i], st);
        GoesMore(old(st), false, all, i, before, st);
      }
      assert all[|hs|..] == later;
      FirstSteps(false, hs, later);
    }

    /** The event map of a kind is empty just when the machine's is. */
    lemma EmptyHere(nft: bool)
      requires Valid()
      ensures !Busy(nft) <==> MapEmpty(LaneOf(st, nft))
    {
      HoldsParts(st, db.kv, Mem(), nft);
      hide Holds, Remembers, Tracks, Relayer.Inv, Stores, Mem, MapEmpty, LaneOf;
      EmptyIff(LaneOf(st, nft), PartOf(Mem(), nft));
      BusyKeys(nft);
    }

    lemma BusyKeys(nft: bool)
      ensures !Busy(nft) <==> PartOf(Mem(), nft).events.Keys == {}
    {
      assert eventMapERC20.Keys == Mem().erc20.events.Keys;
      assert eventMapNFT.Keys == Mem().nft.events.Keys;
    }

    /** Wait until both maps are empty, for up to `retryLimit` rounds and one more. */
    method Wait(rounds: seq<seq<Happening>>, retryLimit: nat) returns (safe: bool, ghost k: nat)
      requires Valid() && Idle(st) && |rounds| > retryLimit && Plausible(st, false, Flat(rounds))
      modifies this, db, Objects()
      ensures Valid() && Idle(st) && Objects() <= old(Objects())
      ensures Waiting(old(st), rounds, k, st) && 1 <= k <= retryLimit + 1
      ensures (safe <==> BothEmpty(st)) && (safe || k == retryLimit + 1)
    {
      hide Holds, Runs.Goes, Idle, Plausible, Mem, Valid, StepsOf, Waiting, Busy, BothEmpty;
      NoRounds(st, rounds);
      k := 0;
      var retry := 0;
      assert rounds[0..] == rounds;
      while true
        invariant k == retry <= retryLimit
        invariant Valid() && Idle(st) && Plausible(st, false, Flat(rounds[retry..])) && Objects() <= old(Objects())
        invariant Waiting(old(st), rounds, k, st) && (k > 0 ==> !BothEmpty(st))
        decreases retryLimit - retry
      {
        ghost var before := st;
        assert rounds[retry..][0] == rounds[retry] && rounds[retry..][1..] == rounds[retry + 1..];
        Pass(rounds[retry], Flat(rounds[retry + 1..]));
        RoundMore(old(st), rounds, retry, before, st);
        k := k + 1;
        BothHere();
        safe := CanClose();
        if safe {
          break;
        }
        if retry >= retryLimit {
          break;
        }
        retry := retry + 1;
      }
    }

    lemma BothHere()
      requires Valid()
      ensures !Busy(false) && !Busy(true) <==> BothEmpty(st)
    {
      hide Valid, MapEmpty, Busy;
      EmptyHere(false);
      EmptyHere(true);
    }

    /** The step that the end of a process is. */
    static function EndOf(commitStarts: bool, put20: bool, putNFT: bool): Step {
      if commitStarts then Step.Close(put20, putNFT) else Crash
    }

    /**
     `Close`: unless both maps are empty, wait for them; then, if asked to, write both watermarks, even when
     the maps are not empty yet. The process ends in state `mid`, after `k` rounds of waiting, and `safe` says
     whether its maps were empty.
     */
    method Close(rounds: seq<seq<Happening>>, retryLimit: nat, commitStarts: bool, put20: bool, putNFT: bool)
      returns (safe: bool, ghost k: nat, ghost mid: State)
      requires Valid() && Idle(st) && |rounds| > retryLimit && Plausible(st, false, Flat(rounds))
      modifies this, db, Objects()
      ensures Relayer.Inv(st) && !st.up && Stores(db.kv, st)
      ensures Waited(old(st), rounds, retryLimit, k, mid) && (safe <==> BothEmpty(mid))
      ensures Runs.Goes(mid, [EndOf(commitStarts, put20, putNFT)], st)
    {
      hide Holds, Runs.Goes, Idle, Plausible, Mem, Flat, Stores, Relayer.Inv, Waiting, BothEmpty;
      k := 0;
      NoRounds(st, rounds);
      BothHere();
      safe := CanClose();
      if !safe {
        safe, k := Wait(rounds, retryLimit);
      }
      mid := st;
      Commit(commitStarts, put20, putNFT);
    }

    /** The end of the process, with the watermarks written or not. */
    method Commit(commitStarts: bool, put20: bool, putNFT: bool)
      requires Valid() && Idle(st)
      modifies this`st, db
      ensures Relayer.Inv(st) && !st.up && Stores(db.kv, st)
      ensures Runs.Goes(old(st), [EndOf(commitStarts, put20, putNFT)], st)
    {
      hide Runs.Goes, Idle, Stores, Relayer.Inv, Tracks, Find, ModelsERC20, ModelsNFT;
      ghost var kv, m := db.kv, Mem();
      if commitStarts {
        PutBlock(false, put20);
        ghost var kv' := db.kv;
        PutBlock(true, putNFT);
        ghost var t := CloseTarget(st, kv, kv', db.kv, m, put20, putNFT);
        st := t;
      } else {
        ghost var t := CrashTarget(st, kv);
        st := t;
      }
    }
  }
}
