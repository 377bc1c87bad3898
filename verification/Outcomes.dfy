/**
 What becomes of a transaction, told from the verdicts of the confirmer: which records are stored and which mints
 counted, what is sent and taken back, where the watermark goes. Then, over runs, that each record and each mint
 goes back to the callback that reported it, and each log to a deposit made on the chain.
 */
module Outcomes {
  import opened Bytes
  import opened Lanes
  import opened Message
  import opened Relayer
  import opened Runs
  import opened Seam
  import Bank

  // ---------------------------------------------------------------- what a step stores

  /** The callback for the step's hash, which was called with `v`, comes to its last action. */
  predicate Concludes(s: State, step: Step, kind: bool, v: Verdict) {
    && step.Finish? && step.hash in LaneOf(s, kind).entries
    && LaneOf(s, kind).entries[step.hash].phase == InCallback(v)
  }

  /** The transaction was confirmed, and that is written down. */
  predicate Succeeds(s: State, step: Step, kind: bool) {
    Concludes(s, step, kind, Confirmed) && step.putOk
  }

  /** The transaction failed for the last time, or nobody knows what became of it, and that is written down. */
  predicate Fails(s: State, step: Step, kind: bool) {
    && (|| Concludes(s, step, kind, OtherError)
        || (Concludes(s, step, kind, TxFailed) && LaneOf(s, kind).entries[step.hash].event.retry == 3))
    && step.putOk
  }

  /** The transaction failed, not for the last time, and another one can be sent. */
  predicate SendsAgain(s: State, step: Step, kind: bool) {
    && Concludes(s, step, kind, TxFailed) && LaneOf(s, kind).entries[step.hash].event.retry < 3
    && step.read && step.built && LaneOf(s, kind).entries[step.hash].event.token in s.pairs
  }

  /** The loop comes to a deposit that has not succeeded and has a pair. */
  predicate SendsFirst(s: State, step: Step, kind: bool) {
    && step.Handle? && step.kind == kind && step.read && step.id < |LaneOf(s, kind).log|
    && !(step.id in LaneOf(s, kind).stored && LaneOf(s, kind).stored[step.id].status == SUCCEEDED)
    && LaneOf(s, kind).log[step.id].deposit.Deposited? && LaneOf(s, kind).log[step.id].deposit.token in s.pairs
  }

  lemma HandleSent(l: Lane, id: nat, pairs: map<bytes, bytes>, read: bool, h: Hash)
    requires Yields(l, id) && Relayer.Sends(l, id, pairs, read)
    ensures var e := Get(l, id).value;
            Lanes.Handle(l, id, pairs, read, h) == Sent(TakePending(l, id), h, e, pairs[e.token])
  {
    hide Get, Sent;
  }

  lemma HandlePassed(l: Lane, id: nat, pairs: map<bytes, bytes>, read: bool, h: Hash)
    requires Yields(l, id) && !Relayer.Sends(l, id, pairs, read)
    ensures var t := Lanes.Handle(l, id, pairs, read, h);
            t.entries == l.entries && t.stored == l.stored && t.minted == l.minted
  {
    DropFrame(TakePending(l, id), id, PairUnread);
    DropFrame(TakePending(l, id), id, PairNotFound);
    hide Get, Drop;
  }

  lemma SentStores(l: Lane, h: Hash, e: Msg, to: bytes)
    ensures var t := Sent(l, h, e, to);
            && t.entries == l.entries[h := Entry(e, MintTx(e, to), InMap)]
            && t.stored == l.stored && t.minted == l.minted
  {
    hide MintTx;
  }

  predicate SameStore(l: Lane, t: Lane) {
    t.stored == l.stored && t.minted == l.minted
  }

  lemma HandleStores(l: Lane, id: nat, pairs: map<bytes, bytes>, read: bool, h: Hash)
    requires Yields(l, id)
    ensures SameStore(l, Lanes.Handle(l, id, pairs, read, h))
  {
    hide Get, Sent, Lanes.Handle;
    if Relayer.Sends(l, id, pairs, read) {
      HandleSent(l, id, pairs, read, h);
      SentStores(TakePending(l, id), h, Get(l, id).value, pairs[Get(l, id).value.token]);
    } else {
      HandlePassed(l, id, pairs, read, h);
    }
  }

  lemma SettleStores(l: Lane, h: Hash, status: int32, putOk: bool)
    requires h in l.entries
    ensures var t := Lanes.Settle(l, h, status, putOk); var x := l.entries[h];
            && t.stored == (if putOk then l.stored[x.event.id := x.event.(status := status)] else l.stored)
            && t.minted == if putOk && status == SUCCEEDED then l.minted + [Mint(x.event.id, x.tx)] else l.minted
  {}

  lemma ResendStores(l: Lane, h: Hash, pairs: map<bytes, bytes>, read: bool, built: bool, next: Hash)
    requires h in l.entries && Retries(l.entries[h])
    ensures SameStore(l, Lanes.Resend(l, h, pairs, read, built, next))
  {
    hide MintTx;
  }

  /** A callback that was called with `v` ends. */
  lemma FinishStores(
    l: Lane, h: Hash, v: Verdict, pairs: map<bytes, bytes>, putOk: bool, read: bool, built: bool, next: Hash)
    requires h in l.entries && l.entries[h].phase == InCallback(v) && l.entries[h].event.retry <= 3
    ensures var t := Finished(l, h, pairs, putOk, read, built, next); var x := l.entries[h];
            if putOk && v == Confirmed then
              && t.stored == l.stored[x.event.id := x.event.(status := SUCCEEDED)]
              && t.minted == l.minted + [Mint(x.event.id, x.tx)]
            else
              && t.minted == l.minted
              && t.stored == if putOk && (v == OtherError || (v == TxFailed && x.event.retry == 3))
                             then l.stored[x.event.id := x.event.(status := FAILED)] else l.stored
  {
    SettleStores(l, h, SUCCEEDED, putOk);
    SettleStores(l, h, FAILED, putOk);
    if Retries(l.entries[h]) {
      ResendStores(l, h, pairs, read, built, next);
    }
    hide Lanes.Settle, Lanes.Resend;
  }

  lemma RetryHere(s: State, kind: bool, h: Hash)
    requires Relayer.Inv(s) && h in LaneOf(s, kind).entries
    ensures LaneOf(s, kind).entries[h].event.retry <= 3
  {
    LaneCore(s, kind);
    EntryHere(LaneOf(s, kind), h);
    hide Relayer.Inv, Core, Flight, MintTx, RecordOf;
  }

  lemma Elsewhere(s: State, kind: bool, h: Hash)
    requires Relayer.Inv(s)
    ensures Running(LaneOf(s, kind), h) ==> kind == !Running(s.erc20, h)
    ensures Running(s.erc20, h) || Running(s.nft, h) ==>
              (Running(LaneOf(s, kind), h) <==> kind == !Running(s.erc20, h))
  {
    OneLane(s, h);
    hide Relayer.Inv, Running;
  }

  lemma FinishIs(s: State, step: Step, kind: bool)
    requires Relayer.Inv(s) && Enabled(s, step) && step.Finish?
    ensures LaneNext(s, step, kind) ==
              if Running(LaneOf(s, kind), step.hash)
              then Finished(LaneOf(s, kind), step.hash, s.pairs, step.putOk, step.read, step.built, step.next)
              else LaneOf(s, kind)
  {
    hide Relayer.Inv, Running, Finished;
    Elsewhere(s, kind, step.hash);
  }

  /** A success writes its record and counts a mint, a failure writes its record, and nothing else writes anything. */
  predicate Writes(s: State, step: Step, kind: bool, t: Lane) {
    var l := LaneOf(s, kind);
    if Succeeds(s, step, kind) then
      var x := l.entries[step.hash];
      && t.stored == l.stored[x.event.id := x.event.(status := SUCCEEDED)]
      && t.minted == l.minted + [Mint(x.event.id, x.tx)]
    else
      && t.minted == l.minted
      && t.stored == if Fails(s, step, kind)
                     then var e := l.entries[step.hash].event; l.stored[e.id := e.(status := FAILED)]
                     else l.stored
  }

  /**
   A mint is counted if and only if the callback of a confirmed transaction writes its record, and it is that
   transaction; and that is when a record becomes SUCCEEDED. A record becomes FAILED if and only if one is written
   for a transaction that failed with its three retries used up, or whose fate is not known. No other step writes.
   */
  lemma StoresIff(s: State, step: Step, kind: bool)
    requires Relayer.Inv(s) && Enabled(s, step)
    ensures Writes(s, step, kind, LaneNext(s, step, kind))
  {
    hide Writes, Relayer.Inv;
    if step.Finish? {
      hide Enabled, Finished, LaneNext, Running;
      FinishIs(s, step, kind);
      if step.hash in LaneOf(s, kind).entries {
        RetryHere(s, kind, step.hash);
      }
      FinishStoresIff(s, step, kind, LaneNext(s, step, kind));
    } else {
      OthersStoreNothing(s, step, kind);
      NothingWritten(s, step, kind, LaneNext(s, step, kind));
    }
  }

  lemma FinishStoresIff(s: State, step: Step, kind: bool, t: Lane)
    requires step.Finish?
    requires step.hash in LaneOf(s, kind).entries ==> LaneOf(s, kind).entries[step.hash].event.retry <= 3
    requires t == if Running(LaneOf(s, kind), step.hash)
                  then Finished(LaneOf(s, kind), step.hash, s.pairs, step.putOk, step.read, step.built, step.next)
                  else LaneOf(s, kind)
    ensures Writes(s, step, kind, t)
  {
    hide Finished;
    var l := LaneOf(s, kind);
    if Running(l, step.hash) {
      FinishStores(
        l, step.hash, l.entries[step.hash].phase.verdict, s.pairs, step.putOk, step.read, step.built, step.next);
    }
  }

  lemma OthersStoreNothing(s: State, step: Step, kind: bool)
    requires Enabled(s, step) && !step.Finish?
    ensures SameStore(LaneOf(s, kind), LaneNext(s, step, kind))
  {
    hide Lanes.Handle, Lanes.Close, Lanes.FilterStops, NewLogs, BankLog, CallsBack, Fits, MapEmpty, LaneOf, Get;
    var l := LaneOf(s, kind);
    match step
    case Handle(k, id, read, h) =>
      if k == kind {
        HandleStores(l, id, s.pairs, read, h);
      }
    case FilterStops(k) =>
      if k == kind {
        StopStores(l);
      }
    case Close(a, b) => CloseStores(l, if kind then b else a);
    case _ =>
  }

  lemma StopStores(l: Lane)
    requires l.fetch.Some?
    ensures SameStore(l, Lanes.FilterStops(l))
  {
    hide Each;
  }

  lemma CloseStores(l: Lane, putOk: bool)
    ensures SameStore(l, Lanes.Close(l, putOk))
  {
    hide GivenUp, IdsInMap, IdsInCallback, Each;
  }

  lemma NothingWritten(s: State, step: Step, kind: bool, t: Lane)
    requires !step.Finish? && SameStore(LaneOf(s, kind), t)
    ensures Writes(s, step, kind, t)
  {}

  // ---------------------------------------------------------------- what a step sends

  /** What the loop sends for a deposit: the record there is, or a new one. */
  function FirstOf(l: Lane, id: nat): Msg
    requires id < |l.log| && l.log[id].deposit.Deposited?
  {
    if id in l.stored then l.stored[id] else FromLog(l.nft, l.log[id].deposit)
  }

  lemma HandleSends(l: Lane, head: nat, id: nat, pairs: map<bytes, bytes>, read: bool, h: Hash)
    requires LogOk(l, head) && StoredOk(l) && Yields(l, id)
    ensures Lanes.Handle(l, id, pairs, read, h).entries ==
              var token := l.log[id].deposit.token;
              if read && !(id in l.stored && l.stored[id].status == SUCCEEDED) && token in pairs
              then l.entries[h := Entry(FirstOf(l, id), MintTx(FirstOf(l, id), pairs[token]), InMap)] else l.entries
  {
    GetSeesStored(l, head, id);
    TokenIs(l, Get(l, id).value, id);
    hide LogOk, StoredOk, Get, FromLog, RecordOf, MintTx, Sent, Lanes.Handle;
    if Relayer.Sends(l, id, pairs, read) {
      HandleSent(l, id, pairs, read, h);
      SentStores(TakePending(l, id), h, FirstOf(l, id), pairs[FirstOf(l, id).token]);
    } else {
      HandlePassed(l, id, pairs, read, h);
    }
  }

  lemma FinishSends(
    l: Lane, h: Hash, v: Verdict, pairs: map<bytes, bytes>, putOk: bool, read: bool, built: bool, next: Hash)
    requires h in l.entries && l.entries[h].phase == InCallback(v)
    ensures var e := l.entries[h].event;
            Finished(l, h, pairs, putOk, read, built, next).entries ==
              if v == TxFailed && e.retry < 3 && read && built && e.token in pairs
              then (l.entries - {h})[next := NextEntry(e, pairs[e.token])] else l.entries - {h}
  {
    hide MintTx;
  }

  /** The entry of a message that is sent once more. */
  function NextEntry(e: Msg, to: bytes): Entry
    requires e.retry < 3
  {
    Entry(e.(retry := e.retry + 1), MintTx(e.(retry := e.retry + 1), to), InMap)
  }

  /**
   What is in flight after a step. A transaction goes out for a deposit the loop comes to, unless it has succeeded
   or has no pair, and for a failed one with retries left; a callback takes the hash it is called for out of the
   map, and its end takes it away; the end of the process takes all. There is nothing else.
   */
  lemma FlightIs(s: State, step: Step, kind: bool)
    requires Relayer.Inv(s) && Enabled(s, step)
    ensures var l, t := LaneOf(s, kind), LaneNext(s, step, kind);
            match step
            case Handle(_, id, _, h) =>
              t.entries == if SendsFirst(s, step, kind)
                           then var e := FirstOf(l, id);
                                l.entries[h := Entry(e, MintTx(e, s.pairs[l.log[id].deposit.token]), InMap)]
                           else l.entries
            case Callback(h, v) =>
              t.entries == if h in l.entries && l.entries[h].phase.InMap?
                           then l.entries[h := l.entries[h].(phase := InCallback(v))] else l.entries
            case Finish(h, _, _, _, _, next) =>
              t.entries == if !Running(l, h) then l.entries
                           else if SendsAgain(s, step, kind)
                           then var e := l.entries[h].event; (l.entries - {h})[next := NextEntry(e, s.pairs[e.token])]
                           else l.entries - {h}
            case Close(_, _) => t.entries == map[]
            case Crash => t.entries == map[]
            case _ => t.entries == l.entries
  {
    var l := LaneOf(s, kind);
    hide Relayer.Inv, Get, Finished, Lanes.Handle, NewLogs, BankLog, GivenUp, Each, MintTx, FirstOf, NextEntry;
    match step
    case Handle(k, id, read, h) =>
      if k == kind {
        LogAndStore(s, kind);
        hide LogOk, StoredOk;
        HandleSends(l, s.head, id, s.pairs, read, h);
      }
    case Finish(h, putOk, read, built, _, next) =>
      FinishIs(s, step, kind);
      hide Enabled, LaneNext;
      if Running(l, h) {
        FinishSends(l, h, l.entries[h].phase.verdict, s.pairs, putOk, read, built, next);
      }
    case Callback(h, v) => CallbackFinds(s, h);
    case _ =>
  }

  /**
   The watermark changes where the loop finds its map empty and at a close, if the store takes it, and becomes the
   last confirmed block. That one moves on where a fetch ends, to the end of its range, and falls back to the
   watermark with the process.
   */
  lemma MarksAre(s: State, step: Step, kind: bool)
    requires Relayer.Inv(s) && Enabled(s, step)
    ensures var l, t := LaneOf(s, kind), LaneNext(s, step, kind);
            && t.mark == (if || (step.Tick? && step.kind == kind && MapEmpty(l) && step.putOk)
                             || (step.Close? && if kind then step.putNFT else step.putERC20)
                          then l.confirmed else l.mark)
            && t.confirmed == (if step.EndFetch? && step.kind == kind then l.fetch.value.end
                               else if step.Close? || step.Crash? then t.mark else l.confirmed)
  {
    var l := LaneOf(s, kind);
    hide Relayer.Inv, Get, Finished, Lanes.Handle, NewLogs, BankLog, CallsBack, GivenUp, Each, MapEmpty;
    match step
    case Handle(k, id, read, h) =>
      if k == kind {
        HandleFrame(l, id, s.pairs, read, h);
      }
    case Finish(h, putOk, read, built, _, next) =>
      if kind == !Running(s.erc20, h) {
        FinishedMark(l, h, s.pairs, putOk, read, built, next);
      }
    case _ =>
  }

  /**
   What the confirmer is handed. A first transaction goes to it; a further one does too, unless its queue refuses
   it, and then it is stuck. Its calls take from what it was handed, and the end of the process takes all.
   */
  lemma QueuesAre(s: State, step: Step)
    requires Relayer.Inv(s) && Enabled(s, step)
    ensures var t := Next(s, step);
            match step
            case Handle(_, _, _, h) =>
              && t.stuck == s.stuck
              && t.outstanding == if SendsFirst(s, step, step.kind) then s.outstanding + {h} else s.outstanding
            case Callback(h, _) => t.stuck == s.stuck && t.outstanding == s.outstanding - {h}
            case Finish(_, _, _, _, enqueued, next) =>
              var again := SendsAgain(s, step, false) || SendsAgain(s, step, true);
              && t.outstanding == (if again && enqueued then s.outstanding + {next} else s.outstanding)
              && t.stuck == if again && !enqueued then s.stuck + {next} else s.stuck
            case Close(_, _) => t.outstanding == {} && t.stuck == {}
            case Crash => t.outstanding == {} && t.stuck == {}
            case _ => t.outstanding == s.outstanding && t.stuck == s.stuck
  {
    hide Relayer.Inv, Get, Finished, Lanes.Handle, NewLogs, BankLog, CallsBack, GivenUp, Each, MapEmpty, Bank.RunAll;
    match step
    case Handle(kind, id, read, h) =>
      LogAndStore(s, kind);
      hide LogOk, StoredOk;
      SendsIff(LaneOf(s, kind), s.head, id, s.pairs, read);
    case Finish(h, _, _, _, _, _) =>
      Elsewhere(s, false, h);
      Elsewhere(s, true, h);
    case _ =>
  }

  lemma SendsIff(l: Lane, head: nat, id: nat, pairs: map<bytes, bytes>, read: bool)
    requires LogOk(l, head) && StoredOk(l) && Yields(l, id)
    ensures Relayer.Sends(l, id, pairs, read) <==>
              read && !(id in l.stored && l.stored[id].status == SUCCEEDED) && l.log[id].deposit.token in pairs
  {
    GetSeesStored(l, head, id);
    TokenIs(l, Get(l, id).value, id);
    hide LogOk, StoredOk, Get, FromLog, RecordOf;
  }

  // ---------------------------------------------------------------- where records and mints come from

  /** A callback in the middle goes back to the confirmer's call. */
  lemma {:induction false} CalledBefore(run: seq<State>, steps: seq<Step>, k: nat, kind: bool, h: Hash)
    returns (j: nat)
    requires IsRun(run, steps) && k < |run| && Running(LaneOf(run[k], kind), h)
    ensures j < k && steps[j] == Callback(h, LaneOf(run[k], kind).entries[h].phase.verdict)
    ensures InMapOf(LaneOf(run[j], kind), h)
    ensures LaneOf(run[k], kind).entries[h] ==
              LaneOf(run[j], kind).entries[h].(phase := LaneOf(run[k], kind).entries[h].phase)
  {
    hide Relayer.Inv, Enabled, Disciplined, Next, LaneNext, FirstOf, MintTx;
    assert k > 0;
    var s, step := run[k - 1], steps[k - 1];
    Always(run, steps, k - 1);
    LaneNextIs(s, step, kind);
    FlightIs(s, step, kind);
    if h in LaneOf(s, kind).entries && LaneOf(s, kind).entries[h] == LaneOf(run[k], kind).entries[h] {
      j := CalledBefore(run, steps, k - 1, kind, h);
    } else {
      j := k - 1;
    }
  }

  /**
   In step `k` the callback for the transaction `x` ends and writes its record, and step `j` is the confirmer's call
   for that transaction.
   */
  ghost predicate Reported(
    run: seq<State>, steps: seq<Step>, j: nat, k: nat, kind: bool, v: Verdict, x: Entry)
  {
    && j < k < |steps| && |run| == |steps| + 1
    && steps[k].Finish? && steps[k].putOk && steps[j] == Callback(steps[k].hash, v)
    && InMapOf(LaneOf(run[j], kind), steps[k].hash) && x == LaneOf(run[j], kind).entries[steps[k].hash]
  }

  /**
   Over any run, each mint counted goes back to the confirmer's call that its own transaction, sent for its own
   deposit, was confirmed.
   */
  lemma {:induction false} EachMintWasConfirmed(run: seq<State>, steps: seq<Step>, i: nat, kind: bool, m: nat)
    returns (j: nat, k: nat, x: Entry)
    requires IsRun(run, steps) && i < |run| && m < |LaneOf(run[i], kind).minted|
    ensures k < i && Reported(run, steps, j, k, kind, Confirmed, x)
    ensures LaneOf(run[i], kind).minted[m] == Mint(x.event.id, x.tx)
  {
    hide Relayer.Inv, Enabled, Disciplined, Next, LaneNext, Fails;
    assert i > 0;
    k := i - 1;
    Always(run, steps, k);
    LaneNextIs(run[k], steps[k], kind);
    StoresIff(run[k], steps[k], kind);
    if m < |LaneOf(run[k], kind).minted| {
      j, k, x := EachMintWasConfirmed(run, steps, i - 1, kind, m);
    } else {
      j := CalledBefore(run, steps, k, kind, steps[k].hash);
      x := LaneOf(run[j], kind).entries[steps[k].hash];
    }
  }

  /**
   Over any run, each record goes back to the confirmer's call for a transaction of its deposit: that it was
   confirmed, if the record says SUCCEEDED, and otherwise that it failed with its retries used up or that its fate
   is not known.
   */
  lemma {:induction false} EachRecordWasReported(run: seq<State>, steps: seq<Step>, i: nat, kind: bool, id: nat)
    returns (j: nat, k: nat, v: Verdict, x: Entry)
    requires IsRun(run, steps) && i < |run| && id in LaneOf(run[i], kind).stored
    ensures k < i && Reported(run, steps, j, k, kind, v, x) && x.event.id == id
    ensures LaneOf(run[i], kind).stored[id] == x.event.(status := if v == Confirmed then SUCCEEDED else FAILED)
    ensures v == TxFailed ==> x.event.retry == 3
  {
    hide Relayer.Inv, Enabled, Disciplined, Next, LaneNext;
    assert i > 0;
    k := i - 1;
    var was, now := LaneOf(run[k], kind), LaneOf(run[i], kind);
    Always(run, steps, k);
    LaneNextIs(run[k], steps[k], kind);
    StoresIff(run[k], steps[k], kind);
    if id in was.stored && now.stored[id] == was.stored[id] {
      j, k, v, x := EachRecordWasReported(run, steps, i - 1, kind, id);
    } else {
      v := was.entries[steps[k].hash].phase.verdict;
      j := CalledBefore(run, steps, k, kind, steps[k].hash);
      x := LaneOf(run[j], kind).entries[steps[k].hash];
    }
  }

  // ---------------------------------------------------------------- where logs come from

  /** The token deposits of a kind that have gone through on the chain, in the order in which they completed. */
  ghost function MadeBy(run: seq<State>, steps: seq<Step>, i: nat, kind: bool): seq<Bank.Call>
    requires i <= |steps| < |run|
  {
    if i == 0 then []
    else
      MadeBy(run, steps, i - 1, kind) +
      if steps[i - 1].Mine?
      then Bank.Made(Bank.DoneAll(steps[i - 1].calls, run[i - 1].bank), if kind then Bank.NFT else Bank.ERC20)
      else []
  }

  lemma TellsMore(a: seq<Bank.Log>, b: seq<Bank.Log>, calls: seq<Bank.Call>, more: seq<Bank.Call>)
    requires Bank.TellsAll(a, calls) && a <= b && Bank.TellsAll(b[|a|..], more)
    ensures Bank.TellsAll(b, calls + more)
  {
    hide Bank.Tells;
    assert b == a + b[|a|..];
  }

  lemma BankNext(s: State, step: Step)
    requires Enabled(s, step)
    ensures Next(s, step).bank == if step.Mine? then Bank.RunAll(step.calls, s.bank) else s.bank
  {
    hide Bank.RunAll, NewLogs, BankLog, Finished, Lanes.Handle, Lanes.Tick, Lanes.FilterStops, Get, Begin, Lanes.Close;
    hide Resent, Sends;
  }

  /** The Bank's log of a kind tells all the deposits made. */
  lemma {:induction false} BankTells(run: seq<State>, steps: seq<Step>, i: nat, kind: bool)
    requires IsRun(run, steps) && i < |run|
    ensures Bank.TellsAll(BankLog(run[i].bank, kind), MadeBy(run, steps, i, kind))
  {
    hide Enabled, Disciplined, Next, Bank.TellsAll, Bank.RunAll, Bank.DoneAll, Bank.Made, Bank.Deposits;
    if i == 0 {
      NothingTold(run[0], kind);
    } else {
      var s, step := run[i - 1], steps[i - 1];
      BankTells(run, steps, i - 1, kind);
      BankNext(s, step);
      if step.Mine? {
        var k := if kind then Bank.NFT else Bank.ERC20;
        Bank.DepositsAreCalls(step.calls, s.bank, k);
        TellsMore(BankLog(s.bank, kind), BankLog(run[i].bank, kind), MadeBy(run, steps, i - 1, kind),
                  Bank.Made(Bank.DoneAll(step.calls, s.bank), k));
      } else {
        assert MadeBy(run, steps, i, kind) == MadeBy(run, steps, i - 1, kind);
      }
    }
  }

  lemma NothingTold(s: State, kind: bool)
    requires Init(s)
    ensures Bank.TellsAll(BankLog(s.bank, kind), [])
  {
    assert Bank.FRESH.log == [];
  }

  /**
   In every state of every run, the relayer's logs of a kind are one for each deposit of the kind that has gone
   through on the chain, in order: deposit `n` has id `n`, and the token, sender and value of the `n`th call.
   */
  lemma LogsAreDeposits(run: seq<State>, steps: seq<Step>, i: nat, kind: bool)
    requires IsRun(run, steps) && i < |run|
    ensures var l, calls := LaneOf(run[i], kind), MadeBy(run, steps, i, kind);
            && |l.log| == |calls|
            && forall n :: 0 <= n < |l.log| ==>
                 && l.log[n].deposit.Deposited? && l.log[n].deposit.id == n
                 && Bank.Tells(l.log[n].deposit, calls[n])
  {
    Always(run, steps, i);
    BankTells(run, steps, i, kind);
    LaneParts(run[i], kind);
    LogAndStore(run[i], kind);
    hide IsRun, MadeBy, Bank.Tells, Bank.Numbered, Lanes.Inv, Registered, ProcessOk, StoredOk;
    var l := LaneOf(run[i], kind);
    assert Fed(l, run[i].bank);
    forall n | 0 <= n < |l.log|
      ensures Bank.Tells(l.log[n].deposit, MadeBy(run, steps, i, kind)[n])
    {
      assert l.log[n].deposit == BankLog(run[i].bank, kind)[n];
    }
  }
}
