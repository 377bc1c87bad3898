/**
 Runs that show what goes wrong. First a deposit lost for each of the reasons there are; then what the one
 assumption on scheduling is for: three ticks in the middle of a callback that leave a confirmed deposit behind,
 two of them where a drop or a record from before hides it, and one that mints a deposit twice.
 */
module Hazards {
  import opened Bytes
  import opened Lanes
  import opened Message
  import opened Relayer
  import opened Seam
  import Bank
  import Runs

  const TOKEN: Bank.Address := [1]
  const SENDER: Bank.Address := [2]
  const TARGET: bytes := [3]
  const PAIRS: map<bytes, bytes> := map[TOKEN := TARGET]
  const DEPOSIT := Bank.Deposited(Bank.ERC20, 0, TOKEN, SENDER, 5)
  const CALLS := Bank.First(Bank.DepositToken(false, TOKEN, SENDER, 5, Bank.None, true), Bank.None)

  /** The hashes of the first, the second and the third transaction, and one that is not used. */
  const A: Hash := [4]
  const B: Hash := [5]
  const C: Hash := [6]
  const D: Hash := [7]

  // ---------------------------------------------------------------- adding to a run

  function Last(run: seq<State>): State
    requires run != []
  {
    run[|run| - 1]
  }

  lemma AddTick(run: seq<State>, steps: seq<Step>, end: nat) returns (run': seq<State>, steps': seq<Step>)
    requires Runs.IsRun(run, steps) && Last(run).up && Last(run).nft.fetch.None?
    requires Last(run).erc20.entries == map[] && Last(run).erc20.fetch.None?
    requires Last(run).erc20.confirmed <= end <= Last(run).head
    ensures Runs.IsRun(run', steps') && Last(run') == Last(run).(erc20 := Lanes.Tick(Last(run).erc20, end, true))
  {
    var step := Step.Tick(false, end, true);
    hide Lanes.Tick, Runs.IsRun;
    run', steps' := Runs.Extend(run, steps, step);
  }

  lemma AddHandle(run: seq<State>, steps: seq<Step>, read: bool, h: Hash)
    returns (run': seq<State>, steps': seq<Step>)
    requires Runs.IsRun(run, steps) && Last(run).up && h !in Last(run).used
    requires Last(run).erc20.fetch.Some? && 0 in Last(run).erc20.fetch.value.pending
    ensures Yields(Last(run).erc20, 0)
    ensures Runs.IsRun(run', steps') && Last(run') == HandleIn(Last(run), false, 0, read, h)
  {
    Runs.Always(run, steps, |run| - 1);
    var s := Last(run);
    hide Runs.IsRun, Relayer.Inv, HandleIn, Get, Enabled, Next, Disciplined;
    Relayer.HandleKeeps(s, false, 0, read, h);
    HandleIs(s, read, h);
    run', steps' := Runs.Extend(run, steps, Step.Handle(false, 0, read, h));
  }

  lemma HandleIs(s: State, read: bool, h: Hash)
    requires s.up && h !in s.used && Yields(s.erc20, 0)
    ensures var step := Step.Handle(false, 0, read, h);
            Enabled(s, step) && Disciplined(s, step) && Next(s, step) == HandleIn(s, false, 0, read, h)
  {
    hide Yields, HandleIn;
  }

  lemma AddStop(run: seq<State>, steps: seq<Step>) returns (run': seq<State>, steps': seq<Step>)
    requires Runs.IsRun(run, steps) && Last(run).up && Last(run).erc20.fetch.Some?
    ensures Runs.IsRun(run', steps') && Last(run') == Last(run).(erc20 := Lanes.FilterStops(Last(run).erc20))
  {
    hide Runs.IsRun, Lanes.FilterStops;
    run', steps' := Runs.Extend(run, steps, Step.FilterStops(false));
  }

  lemma AddEnd(run: seq<State>, steps: seq<Step>) returns (run': seq<State>, steps': seq<Step>)
    requires Runs.IsRun(run, steps) && Last(run).up && Last(run).erc20.fetch.Some?
    requires Last(run).erc20.fetch.value.pending == {}
    ensures Runs.IsRun(run', steps') && Last(run') == Last(run).(erc20 := Lanes.EndFetch(Last(run).erc20))
  {
    hide Runs.IsRun, Lanes.EndFetch;
    run', steps' := Runs.Extend(run, steps, Step.EndFetch(false));
  }

  lemma AddCallback(run: seq<State>, steps: seq<Step>, h: Hash, v: Verdict)
    returns (run': seq<State>, steps': seq<Step>)
    requires Runs.IsRun(run, steps) && Last(run).up && h in Last(run).outstanding && InERC20(Last(run), h)
    ensures Runs.IsRun(run', steps')
    ensures Last(run') == Last(run).(outstanding := Last(run).outstanding - {h}, erc20 := Begin(Last(run).erc20, h, v))
  {
    hide Runs.IsRun, Begin;
    run', steps' := Runs.Extend(run, steps, Callback(h, v));
  }

  lemma AddFinish(run: seq<State>, steps: seq<Step>, h: Hash, putOk: bool)
    returns (run': seq<State>, steps': seq<Step>)
    requires Runs.IsRun(run, steps) && Last(run).up && Running(Last(run).erc20, h) && C !in Last(run).used
    ensures Runs.IsRun(run', steps')
    ensures Last(run') == Last(run).(erc20 := Finished(Last(run).erc20, h, Last(run).pairs, putOk, true, false, C))
  {
    hide Runs.IsRun, Finished;
    run', steps' := Runs.Extend(run, steps, Finish(h, putOk, true, false, false, C));
  }

  lemma AddClose(run: seq<State>, steps: seq<Step>) returns (run': seq<State>, steps': seq<Step>)
    requires Runs.IsRun(run, steps) && Last(run).up && Last(run).erc20.fetch.None? && Last(run).nft.fetch.None?
    ensures Runs.IsRun(run', steps')
    ensures Last(run') == Off(Last(run), Lanes.Close(Last(run).erc20, true), Lanes.Close(Last(run).nft, true))
  {
    hide Runs.IsRun, Lanes.Close;
    run', steps' := Runs.Extend(run, steps, Step.Close(true, true));
  }

  lemma AddRestart(run: seq<State>, steps: seq<Step>, pairs: map<bytes, bytes>)
    returns (run': seq<State>, steps': seq<Step>)
    requires Runs.IsRun(run, steps) && !Last(run).up
    ensures Runs.IsRun(run', steps') && Last(run') == Last(run).(up := true, pairs := pairs)
  {
    RestartIs(Last(run), pairs);
    hide Runs.IsRun, Enabled, Next;
    run', steps' := Runs.Extend(run, steps, Restart(pairs));
  }

  // ---------------------------------------------------------------- the first steps

  function Fresh(): State {
    State(0, Bank.FRESH, false, map[], EMPTY_ERC20, EMPTY_NFT, {}, {}, {})
  }

  function Banked(): Bank.State {
    Bank.State(0, 0, 1, 0, false, [DEPOSIT])
  }

  /** The ERC20 lane with the deposit logged in block 1, when the store holds no more than a watermark of 0. */
  function Q(confirmed: nat, entries: map<Hash, Entry>, fetch: Option<Fetch>, dropped: map<nat, Reason>,
             sends: map<nat, nat>): Lane {
    Lane(false, [Logged(1, DEPOSIT)], map[], 0, confirmed, entries, fetch, dropped, Fates(entries, dropped), [], sends)
  }

  function Fates(entries: map<Hash, Entry>, dropped: map<nat, Reason>): map<nat, Fate> {
    if 0 in dropped then map[0 := Lost(dropped[0])] else if entries != map[] then map[0 := Sending] else map[]
  }

  /** A process in block `head`. */
  function Up(head: nat, pairs: map<bytes, bytes>, l: Lane, used: set<Hash>, outstanding: set<Hash>): State {
    State(head, Banked(), true, pairs, l, EMPTY_NFT, used, outstanding, {})
  }

  lemma OneDeposit(k: Bank.Kind)
    ensures Bank.Deposits([], k) == []
    ensures Bank.Deposits([DEPOSIT], k) == if k == Bank.ERC20 then [DEPOSIT] else []
  {
    Bank.OneMore([], DEPOSIT, k);
    assert [] + [DEPOSIT] == [DEPOSIT];
  }

  lemma Mines()
    ensures Bank.RunAll(CALLS, Bank.FRESH) == Banked() && Bank.RunAll(Bank.None, Banked()) == Banked()
    ensures BankLog(Bank.FRESH, false) == BankLog(Bank.FRESH, true) == BankLog(Banked(), true) == []
    ensures BankLog(Banked(), false) == [DEPOSIT]
  {
    OneDeposit(Bank.ERC20);
    OneDeposit(Bank.NFT);
    hide Bank.Deposits;
    assert Bank.Emit(Bank.FRESH, Bank.ERC20, TOKEN, SENDER, 5).log == [DEPOSIT];
  }

  lemma FirstBlock()
    ensures Enabled(Fresh(), Step.Mine(CALLS))
    ensures Next(Fresh(), Step.Mine(CALLS))
         == Up(1, map[], Q(0, map[], None, map[], map[]), {}, {}).(up := false)
  {
    Mines();
    hide Bank.RunAll, BankLog;
    assert NewLogs([DEPOSIT], 0, 1) == [Logged(1, DEPOSIT)];
    assert NewLogs([], 0, 1) == [];
  }

  lemma SecondBlock()
    ensures var s := Up(1, map[], Q(0, map[], None, map[], map[]), {}, {}).(up := false);
            Enabled(s, Step.Mine(Bank.None)) && Next(s, Step.Mine(Bank.None)) == s.(head := 2)
  {
    Mines();
    hide Bank.RunAll, BankLog;
    assert NewLogs([DEPOSIT], 1, 2) == [] && NewLogs([], 0, 2) == [];
  }

  /** The deposit is mined, in the last block or in the one before, and a process starts. */
  lemma Starts(head: nat, pairs: map<bytes, bytes>) returns (run: seq<State>, steps: seq<Step>)
    requires head == 1 || head == 2
    ensures Runs.IsRun(run, steps) && Last(run) == Up(head, pairs, Q(0, map[], None, map[], map[]), {}, {})
  {
    FirstBlock();
    SecondBlock();
    run, steps := [Fresh()], [];
    assert Init(run[0]);
    hide Next, Fresh, Runs.IsRun, Fits;
    run, steps := Runs.Extend(run, steps, Step.Mine(CALLS));
    if head == 2 {
      run, steps := Runs.Extend(run, steps, Step.Mine(Bank.None));
    }
    run, steps := AddRestart(run, steps, pairs);
  }

  lemma RestartIs(s: State, pairs: map<bytes, bytes>)
    requires !s.up
    ensures Enabled(s, Restart(pairs)) && Next(s, Restart(pairs)) == s.(up := true, pairs := pairs)
  {}

  // ---------------------------------------------------------------- every reason has its run

  /**
   The deposit is below the watermark for good, with nothing in flight or to come for it and no outcome in the
   store, and was given up for reason `r` in the end.
   */
  predicate LostForGood(s: State, r: Reason) {
    && |s.erc20.log| == 1 && s.erc20.log[0] == Logged(1, DEPOSIT) && s.erc20.log[0].block < s.erc20.mark
    && !Held(s.erc20, 0) && !Pending(s.erc20, 0) && !Runs.Settled(s.erc20, 0) && LostFor(s.erc20, 0, r)
  }

  function Event(status: int32): Msg {
    FromLog(false, DEPOSIT).(status := status)
  }

  function Flying(h: Hash, status: int32, phase: Phase): map<Hash, Entry> {
    map[h := Entry(Event(status), MintTx(Event(status), TARGET), phase)]
  }

  lemma Ranges(head: nat)
    requires head > 0
    ensures Lanes.Tick(Q(0, map[], None, map[], map[]), head, true)
         == Q(0, map[], Some(Fetch(head, {0})), map[], map[])
  {
    assert InRange([Logged(1, DEPOSIT)], 0, head) == {0};
    var none: map<nat, nat> := map[];
    assert none - {0} == none;
  }

  lemma Flies(h: Hash, status: int32, phase: Phase)
    ensures h in Flying(h, status, phase) && Flying(h, status, phase) != map[]
  {
    assert h in Flying(h, status, phase);
  }

  lemma Handles(head: nat, end: nat)
    ensures var l := Q(0, map[], Some(Fetch(end, {0})), map[], map[]);
            && Yields(l, 0)
            && HandleIn(Up(head, PAIRS, l, {}, {}), false, 0, true, A)
               == Up(head, PAIRS, Q(0, Flying(A, UNDEFINED, InMap), Some(Fetch(end, {})), map[], map[0 := 1]),
                     {A}, {A})
            && HandleIn(Up(head, PAIRS, l, {}, {}), false, 0, false, A)
               == Up(head, PAIRS, Q(0, map[], Some(Fetch(end, {})), map[0 := PairUnread], map[]), {}, {})
            && HandleIn(Up(head, map[], l, {}, {}), false, 0, true, A)
               == Up(head, map[], Q(0, map[], Some(Fetch(end, {})), map[0 := PairNotFound], map[]), {}, {})
  {
    hide MintTx;
    Flies(A, UNDEFINED, InMap);
    var l, e := Q(0, map[], Some(Fetch(end, {0})), map[], map[]), Event(UNDEFINED);
    assert Get(l, 0) == Ok(e);
    var t := Sent(TakePending(l, 0), A, e, TARGET);
    assert t.entries == Flying(A, UNDEFINED, InMap) && t.sends == map[0 := 1];
    assert TakePending(l, 0).fetch.value.pending == {};
  }

  /** A deposit given up while it is fetched. */
  lemma GivenUpAtOnce(r: Reason, end: nat) returns (run: seq<State>, steps: seq<Step>)
    requires (r == PairNotFound || r == PairUnread || r == FilterFailed) && 1 <= end <= 2
    ensures Runs.IsRun(run, steps)
    ensures Last(run) == Up(2, if r == PairNotFound then map[] else PAIRS,
                            Q(0, map[], Some(Fetch(end, {})), map[0 := r], map[]), {}, {})
  {
    run, steps := Starts(2, if r == PairNotFound then map[] else PAIRS);
    Ranges(end);
    Handles(2, end);
    hide Runs.IsRun, Lanes.Tick, HandleIn;
    run, steps := AddTick(run, steps, end);
    if r == FilterFailed {
      Stops(end);
      hide Lanes.FilterStops;
      run, steps := AddStop(run, steps);
    } else {
      run, steps := AddHandle(run, steps, r == PairNotFound, A);
    }
  }

  lemma Stops(end: nat)
    ensures Lanes.FilterStops(Q(0, map[], Some(Fetch(end, {0})), map[], map[]))
         == Q(0, map[], Some(Fetch(end, {})), map[0 := FilterFailed], map[])
  {}

  /** The deposit's first transaction is on its way, and the fetch has ended. */
  lemma Sends(head: nat, end: nat) returns (run: seq<State>, steps: seq<Step>)
    requires 1 <= end <= head <= 2
    ensures Runs.IsRun(run, steps)
    ensures Last(run) == Up(head, PAIRS, Q(end, Flying(A, UNDEFINED, InMap), None, map[], map[0 := 1]), {A}, {A})
  {
    run, steps := Starts(head, PAIRS);
    Ranges(end);
    Handles(head, end);
    hide Runs.IsRun, Lanes.Tick, HandleIn, Flying;
    run, steps := AddTick(run, steps, end);
    run, steps := AddHandle(run, steps, true, A);
    run, steps := AddEnd(run, steps);
  }

  lemma Begins(l: Lane, h: Hash, status: int32, v: Verdict)
    requires l.entries == Flying(h, status, InMap)
    ensures h in l.entries && l.entries[h].phase.InMap?
    ensures Begin(l, h, v) == l.(entries := Flying(h, status, InCallback(v)))
  {
    hide MintTx;
  }

  /** The confirmer has called, and the callback has emptied the map. */
  lemma CallsBack(head: nat, end: nat, v: Verdict) returns (run: seq<State>, steps: seq<Step>)
    requires 1 <= end <= head <= 2
    ensures Runs.IsRun(run, steps)
    ensures Last(run)
         == Up(head, PAIRS, Q(end, Flying(A, UNDEFINED, InCallback(v)), None, map[], map[0 := 1]), {A}, {})
  {
    run, steps := Sends(head, end);
    Begins(Last(run).erc20, A, UNDEFINED, v);
    assert {A} - {A} == {};
    hide Runs.IsRun, Begin, Flying;
    run, steps := AddCallback(run, steps, A, v);
  }

  lemma Finishes(v: Verdict, sends: map<nat, nat>)
    requires v.Confirmed? || v.TxFailed?
    ensures var l := Q(2, Flying(A, UNDEFINED, InCallback(v)), None, map[], sends);
            Running(l, A) && Finished(l, A, PAIRS, false, true, false, C)
              == Q(2, map[], None, map[0 := if v.Confirmed? then PutFailed else RetryNotSent], sends)
  {
    hide MintTx;
    assert Flying(A, UNDEFINED, InCallback(v)) - {A} == map[];
  }

  /** A deposit given up by its callback. */
  lemma GivenUpByCallback(r: Reason) returns (run: seq<State>, steps: seq<Step>)
    requires r == PutFailed || r == RetryNotSent
    ensures Runs.IsRun(run, steps) && Last(run).up && Last(run).nft == EMPTY_NFT && Last(run).head == 2
    ensures Last(run).erc20 == Q(2, map[], None, map[0 := r], map[0 := 1])
  {
    var v := if r == PutFailed then Confirmed else TxFailed;
    run, steps := CallsBack(2, 2, v);
    Finishes(v, map[0 := 1]);
    hide Runs.IsRun, Finished, Flying;
    run, steps := AddFinish(run, steps, A, false);
  }

  lemma Passes(s: State, r: Reason, sends: map<nat, nat>)
    requires s.erc20 == Q(2, map[], None, map[0 := r], sends)
    ensures LostForGood(s.(erc20 := Lanes.Tick(s.erc20, 2, true)), r)
  {}

  lemma Closes(s: State, phase: Phase)
    requires s.erc20 == Q(2, Flying(A, UNDEFINED, phase), None, map[], map[0 := 1])
    ensures LostForGood(Off(s, Lanes.Close(s.erc20, true), Lanes.Close(s.nft, true)),
                        if phase.InMap? then ForcedClose else CallbackCut)
  {
    hide MintTx, Each, GivenUp, Committed;
    var l := s.erc20;
    assert A in l.entries && l.entries[A].event.id == 0;
    assert phase.InMap? ==> 0 in IdsInMap(l);
    assert phase.InCallback? ==> 0 in IdsInCallback(l);
    hide IdsInMap, IdsInCallback;
    GivenUpFor(l, 0);
    GivesUpAll(l, true, 0);
    DownHeld(Committed(l, true), 0);
    CommittedMark(l);
  }

  lemma CommittedMark(l: Lane)
    ensures var t := Lanes.Close(l, true);
            t == Down(Committed(l, true)) && t.mark == l.confirmed && t.log == l.log && t.stored == l.stored
  {
    hide GivenUp, IdsInMap, IdsInCallback, Each;
  }

  lemma NotEmpty(run: seq<State>, steps: seq<Step>)
    requires Runs.IsRun(run, steps)
    ensures run != []
  {}

  /** Each reason for which a deposit is given up has a run in which one is lost for it. */
  lemma EveryReasonLoses(r: Reason) returns (run: seq<State>, steps: seq<Step>)
    ensures Runs.IsRun(run, steps) && LostForGood(Last(run), r)
  {
    hide Runs.IsRun, Lanes.Tick, Lanes.Close, Flying, LostForGood, Off;
    match r
    case ForcedClose =>
      run, steps := Sends(2, 2);
      NotEmpty(run, steps);
      Closes(Last(run), InMap);
      run, steps := AddClose(run, steps);
    case CallbackCut =>
      run, steps := CallsBack(2, 2, Confirmed);
      NotEmpty(run, steps);
      Closes(Last(run), InCallback(Confirmed));
      run, steps := AddClose(run, steps);
    case PutFailed =>
      run, steps := GivenUpByCallback(r);
      NotEmpty(run, steps);
      Passes(Last(run), r, map[0 := 1]);
      run, steps := AddTick(run, steps, 2);
    case RetryNotSent =>
      run, steps := GivenUpByCallback(r);
      NotEmpty(run, steps);
      Passes(Last(run), r, map[0 := 1]);
      run, steps := AddTick(run, steps, 2);
    case _ =>
      run, steps := GivenUpAtOnce(r, 2);
      run, steps := AddEnd(run, steps);
      NotEmpty(run, steps);
      Passes(Last(run), r, map[]);
      run, steps := AddTick(run, steps, 2);
  }

  // ---------------------------------------------------------------- a tick in the middle of a callback

  /** The transaction for the deposit is confirmed, and its callback has not come to its end. */
  predicate Confirming(s: State, h: Hash) {
    && Running(s.erc20, h) && s.erc20.entries[h].phase.verdict.Confirmed? && s.erc20.entries[h].event.id == 0
    && TOKEN in s.pairs
  }

  /** Below the watermark, nothing in flight or to come, nothing minted, and no word of the last transaction. */
  predicate LeftBehind(l: Lane) {
    && |l.log| == 1 && l.log[0] == Logged(1, DEPOSIT) && l.log[0].block < l.mark
    && !Held(l, 0) && !Pending(l, 0) && l.minted == [] && 0 in l.fate && l.fate[0].Sending?
  }

  /** The tick writes the watermark, and the process dies before the callback is done. */
  function PassedOver(s: State): Lane {
    Down(Lanes.Tick(s.erc20, 2, true))
  }

  /** Such a tick can happen here, for all that the assumption forbids it, and `t` is what it leads to. */
  predicate TickThenCrash(s: State, t: State) {
    var tick := Step.Tick(false, 2, true);
    && Enabled(s, tick) && !Disciplined(s, tick)
    && Enabled(Next(s, tick), Crash) && t == Next(Next(s, tick), Crash)
  }

  lemma PassesOver(s: State, h: Hash, status: int32) returns (t: State)
    requires s.up && s.head == 2 && s.nft == EMPTY_NFT && TOKEN in s.pairs
    requires s.erc20.log == [Logged(1, DEPOSIT)] && s.erc20.confirmed == 2 && s.erc20.fetch.None?
    requires s.erc20.entries == Flying(h, status, InCallback(Confirmed))
    requires s.erc20.minted == [] && s.erc20.fate == map[0 := Sending]
    ensures Confirming(s, h) && TickThenCrash(s, t) && LeftBehind(t.erc20)
    ensures t.erc20.stored == s.erc20.stored && t.erc20.dropped == s.erc20.dropped
  {
    hide MintTx, InRange;
    assert h in s.erc20.entries && MapEmpty(s.erc20);
    var m := Next(s, Step.Tick(false, 2, true));
    t := Next(m, Crash);
    assert t.erc20 == PassedOver(s);
  }

  /**
   A run reaches a state from which a tick, in the middle of the callback of a confirmed transaction, moves the
   watermark past its deposit, which is neither stored nor given up. After a crash it stays so.
   */
  lemma TickDuringCallbackForgets() returns (run: seq<State>, steps: seq<Step>, t: State)
    ensures Runs.IsRun(run, steps)
    ensures Confirming(Last(run), A) && TickThenCrash(Last(run), t) && LeftBehind(t.erc20)
    ensures !Covered(t.erc20, 0) && !NoLoss(t.erc20)
  {
    run, steps := CallsBack(2, 2, Confirmed);
    NotEmpty(run, steps);
    Flies(A, UNDEFINED, InCallback(Confirmed));
    hide Runs.IsRun, Flying, TickThenCrash, Confirming;
    t := PassesOver(Last(run), A, UNDEFINED);
  }

  // ---------------------------------------------------------------- where an old drop hides it

  /** A watermark of 1, and a deposit given up when it had no pair, and sent again since if anything is in flight. */
  function R(confirmed: nat, entries: map<Hash, Entry>, fetch: Option<Fetch>, sends: map<nat, nat>): Lane {
    Q(confirmed, entries, fetch, map[0 := PairNotFound], sends).(
      mark := 1, fate := map[0 := if entries == map[] then Lost(PairNotFound) else Sending])
  }

  lemma NoneHeld(l: Lane)
    requires l.entries == map[]
    ensures Lanes.Close(l, true) == Down(l.(mark := l.confirmed))
  {
    var none: set<nat> := {};
    assert IdsInMap(l) == none && IdsInCallback(l) == none;
    hide IdsInMap, IdsInCallback;
    assert Lanes.Close(l, true).dropped == l.dropped;
    assert Lanes.Close(l, true).fate == l.fate;
  }

  lemma Reopens()
    ensures var s := Up(2, map[], Q(1, map[], None, map[0 := PairNotFound], map[]), {}, {});
            Off(s, Lanes.Close(s.erc20, true), Lanes.Close(s.nft, true)).(up := true, pairs := PAIRS)
              == Up(2, PAIRS, R(1, map[], None, map[]), {}, {})
  {
    hide Lanes.Close;
    NoneHeld(Q(1, map[], None, map[0 := PairNotFound], map[]));
    NoneHeld(EMPTY_NFT);
  }

  /** Given up for want of a pair by the first process, which was then closed; the second has the pair. */
  lemma ReopenedRun() returns (run: seq<State>, steps: seq<Step>)
    ensures Runs.IsRun(run, steps) && Last(run) == Up(2, PAIRS, R(1, map[], None, map[]), {}, {})
  {
    run, steps := GivenUpAtOnce(PairNotFound, 1);
    Reopens();
    hide Runs.IsRun, Lanes.Close, Off;
    run, steps := AddEnd(run, steps);
    run, steps := AddClose(run, steps);
    ClosedDown(Up(2, map[], Q(1, map[], None, map[0 := PairNotFound], map[]), {}, {}));
    run, steps := AddRestart(run, steps, PAIRS);
  }

  lemma ClosedDown(s: State)
    ensures !Off(s, Lanes.Close(s.erc20, true), Lanes.Close(s.nft, true)).up
  {}

  lemma RangesAgain()
    ensures Lanes.Tick(R(1, map[], None, map[]), 2, true) == R(1, map[], Some(Fetch(2, {0})), map[])
  {
    assert InRange([Logged(1, DEPOSIT)], 1, 2) == {0};
    var none: map<nat, nat> := map[];
    assert none - {0} == none;
  }

  lemma SendsDropped()
    ensures var l := R(1, map[], Some(Fetch(2, {0})), map[]);
            && Yields(l, 0)
            && HandleIn(Up(2, PAIRS, l, {}, {}), false, 0, true, A)
               == Up(2, PAIRS, R(1, Flying(A, UNDEFINED, InMap), Some(Fetch(2, {})), map[0 := 1]), {A}, {A})
  {
    hide MintTx;
    Flies(A, UNDEFINED, InMap);
    var l, e := R(1, map[], Some(Fetch(2, {0})), map[]), Event(UNDEFINED);
    assert Get(l, 0) == Ok(e);
    var t := Sent(TakePending(l, 0), A, e, TARGET);
    assert t.entries == Flying(A, UNDEFINED, InMap) && t.sends == map[0 := 1];
    assert TakePending(l, 0).fetch.value.pending == {};
  }

  /**
   The deposit had no pair in the first process, and is sent in the second, which has one. A tick in the middle
   of the callback leaves it behind, although the drop on record keeps every deposit covered.
   */
  lemma OldDropHidesALoss() returns (run: seq<State>, steps: seq<Step>, t: State)
    ensures Runs.IsRun(run, steps)
    ensures Confirming(Last(run), A) && TickThenCrash(Last(run), t) && LeftBehind(t.erc20)
    ensures NoLoss(t.erc20) && t.erc20.stored == map[] && t.erc20.dropped == map[0 := PairNotFound]
  {
    run, steps := ReopenedRun();
    RangesAgain();
    SendsDropped();
    Flies(A, UNDEFINED, InMap);
    Flies(A, UNDEFINED, InCallback(Confirmed));
    Begins(R(2, Flying(A, UNDEFINED, InMap), None, map[0 := 1]), A, UNDEFINED, Confirmed);
    assert {A} - {A} == {};
    hide Runs.IsRun, Lanes.Tick, HandleIn, Begin, Flying, TickThenCrash, Confirming;
    run, steps := AddTick(run, steps, 2);
    run, steps := AddHandle(run, steps, true, A);
    run, steps := AddEnd(run, steps);
    run, steps := AddCallback(run, steps, A, Confirmed);
    NotEmpty(run, steps);
    t := PassesOver(Last(run), A, UNDEFINED);
  }

  // ---------------------------------------------------------------- and one that mints twice

  /** `steps` lead from `s` to `t`, with or without discipline. */
  ghost predicate Leads(s: State, steps: seq<Step>, t: State)
    decreases |steps|
  {
    if steps == [] then s == t else Enabled(s, steps[0]) && Leads(Next(s, steps[0]), steps[1..], t)
  }

  /** The lane with a watermark of 1 and a record of the deposit. */
  function W(confirmed: nat, entries: map<Hash, Entry>, fetch: Option<Fetch>, status: int32, minted: seq<Mint>,
             sends: map<nat, nat>): Lane
  {
    Lane(false, [Logged(1, DEPOSIT)], map[0 := Event(status)], 1, confirmed, entries, fetch, map[],
         map[0 := if entries == map[] || status == SUCCEEDED then Kept else Sending], minted, sends)
  }

  function Minted(): Mint {
    Mint(0, MintTx(Event(UNDEFINED), TARGET))
  }

  lemma GetsFailed(l: Lane)
    requires !l.nft && l.log == [Logged(1, DEPOSIT)] && l.stored == map[0 := Event(FAILED)]
    ensures Get(l, 0) == Ok(Event(FAILED))
  {
    hide Get, Decimal;
    assert LogOk(l, 1);
    GetSeesStored(l, 1, 0);
  }

  lemma FailsFirst()
    ensures var l := Q(1, Flying(A, UNDEFINED, InCallback(OtherError)), None, map[], map[0 := 1]);
            Running(l, A) && Finished(l, A, PAIRS, true, true, false, C)
              == W(1, map[], None, FAILED, [], map[0 := 1]).(mark := 0)
  {
    hide MintTx;
    assert Flying(A, UNDEFINED, InCallback(OtherError)) - {A} == map[];
  }

  lemma TicksAgain(entries: map<Hash, Entry>, mark: nat, end: nat, putOk: bool)
    requires 1 <= end && (mark == 1 || putOk)
    ensures Lanes.Tick(W(1, entries, None, FAILED, [], map[0 := 1]).(mark := mark), end, putOk)
         == W(1, entries, Some(Fetch(end, {0})), FAILED, [], map[])
  {
    assert InRange([Logged(1, DEPOSIT)], 1, end) == {0};
    var one: map<nat, nat> := map[0 := 1];
    assert one - {0} == map[];
  }

  lemma SendsAgain(head: nat, entries: map<Hash, Entry>, used: set<Hash>, out: set<Hash>, h: Hash)
    ensures var l := W(1, entries, Some(Fetch(head, {0})), FAILED, [], map[]);
            var sent := entries[h := Sent2(InMap)];
            && Yields(l, 0)
            && HandleIn(Up(head, PAIRS, l, used, out), false, 0, true, h)
               == Up(head, PAIRS, W(1, sent, Some(Fetch(head, {})), FAILED, [], map[0 := 1]), used + {h}, out + {h})
  {
    hide MintTx, Get;
    var l := W(1, entries, Some(Fetch(head, {0})), FAILED, [], map[]);
    GetsFailed(l);
    var t := Sent(TakePending(l, 0), h, Event(FAILED), TARGET);
    assert TakePending(l, 0).fetch.value.pending == {};
    assert h in t.entries && t.sends == map[0 := 1];
  }

  /** The first transaction has failed; the second is confirmed, and its callback has emptied the map. */
  lemma SecondCallback(head: nat) returns (run: seq<State>, steps: seq<Step>)
    requires 1 <= head <= 2
    ensures Runs.IsRun(run, steps)
    ensures Last(run) == Up(head, PAIRS,
                            W(head, Flying(B, FAILED, InCallback(Confirmed)), None, FAILED, [], map[0 := 1]),
                            {A, B}, {})
  {
    run, steps := CallsBack(head, 1, OtherError);
    FailsFirst();
    TicksAgain(map[], 0, head, true);
    SendsAgain(head, map[], {A}, {}, B);
    assert map[][B := Sent2(InMap)] == Flying(B, FAILED, InMap);
    Begins(W(head, Flying(B, FAILED, InMap), None, FAILED, [], map[0 := 1]), B, FAILED, Confirmed);
    assert {} + {B} - {B} == {} && {A} + {B} == {A, B};
    hide Runs.IsRun, Finished, Flying, Lanes.Tick, HandleIn, Begin, MintTx;
    run, steps := AddFinish(run, steps, A, true);
    run, steps := AddTick(run, steps, head);
    run, steps := AddHandle(run, steps, true, B);
    run, steps := AddEnd(run, steps);
    run, steps := AddCallback(run, steps, B, Confirmed);
  }

  /**
   The first transaction failed and the second is confirmed. A tick in the middle of its callback leaves the
   deposit behind with the record that it failed, although that record keeps every deposit covered.
   */
  lemma OldRecordHidesALoss() returns (run: seq<State>, steps: seq<Step>, t: State)
    ensures Runs.IsRun(run, steps)
    ensures Confirming(Last(run), B) && TickThenCrash(Last(run), t) && LeftBehind(t.erc20)
    ensures NoLoss(t.erc20) && t.erc20.stored == map[0 := Event(FAILED)] && t.erc20.dropped == map[]
  {
    run, steps := SecondCallback(2);
    NotEmpty(run, steps);
    Flies(B, FAILED, InCallback(Confirmed));
    hide Runs.IsRun, Flying, TickThenCrash, Confirming;
    t := PassesOver(Last(run), B, FAILED);
  }

  function Sent2(phase: Phase): Entry {
    Entry(Event(FAILED), MintTx(Event(FAILED), TARGET), phase)
  }

  /** A tick that fails to write the watermark, over a callback whose deposit is in the range. */
  function TheTick(): Step {
    Step.Tick(false, 1, false)
  }

  /** Both transactions are in flight, and no fetch is left to do. */
  function Both(): Lane {
    W(1, map[B := Sent2(InCallback(Confirmed)), C := Sent2(InMap)], Some(Fetch(1, {})), FAILED, [], map[0 := 1])
  }

  lemma DoubleSend()
    ensures var l := W(1, Flying(B, FAILED, InCallback(Confirmed)), None, FAILED, [], map[0 := 1]);
            var s := Up(1, PAIRS, l, {A, B}, {});
            && Enabled(s, TheTick()) && !Disciplined(s, TheTick()) && NoLoss(Next(s, TheTick()).erc20)
            && Enabled(Next(s, TheTick()), Step.Handle(false, 0, true, C))
            && Next(Next(s, TheTick()), Step.Handle(false, 0, true, C)) == Up(1, PAIRS, Both(), {A, B, C}, {C})
  {
    var entries := Flying(B, FAILED, InCallback(Confirmed));
    TicksAgain(entries, 1, 1, false);
    SendsAgain(1, entries, {A, B}, {}, C);
    var l := W(1, entries, None, FAILED, [], map[0 := 1]);
    assert l.(mark := 1) == l;
    assert {A, B} + {C} == {A, B, C} && {} + {C} == {C};
    assert MapEmpty(l) && B in l.entries && l.entries[B].event.id == 0;
    hide MintTx, FromLog, Get, Lanes.Tick, HandleIn;
    assert Covered(W(1, entries, Some(Fetch(1, {0})), FAILED, [], map[]), 0);
    assert entries[C := Sent2(InMap)] == Both().entries;
  }

  lemma FirstMint()
    ensures var s := Up(1, PAIRS, Both(), {A, B, C}, {C}); var step := Finish(B, true, true, false, false, D);
            && Enabled(s, step)
            && Next(s, step)
               == Up(1, PAIRS, W(1, map[C := Sent2(InMap)], Some(Fetch(1, {})), SUCCEEDED, [Minted()], map[0 := 1]),
                     {A, B, C}, {C})
  {
    hide MintTx, FromLog;
    SameMint();
    assert Both().entries - {B} == map[C := Sent2(InMap)];
    assert Both().stored[0 := Event(SUCCEEDED)] == map[0 := Event(SUCCEEDED)];
  }

  lemma SameMint()
    ensures MintTx(Event(FAILED), TARGET) == MintTx(Event(UNDEFINED), TARGET) && Event(FAILED).id == 0
  {}

  lemma SecondMint()
    ensures var l := W(1, map[C := Sent2(InMap)], Some(Fetch(1, {})), SUCCEEDED, [Minted()], map[0 := 1]);
            var s := Up(1, PAIRS, l, {A, B, C}, {C}); var step := Finish(C, true, true, false, false, D);
            && Enabled(s, Callback(C, Confirmed)) && Enabled(Next(s, Callback(C, Confirmed)), step)
            && Next(Next(s, Callback(C, Confirmed)), step).erc20.minted == [Minted(), Minted()]
  {
    hide MintTx, FromLog;
    SameMint();
    var l := W(1, map[C := Sent2(InMap)], Some(Fetch(1, {})), SUCCEEDED, [Minted()], map[0 := 1]);
    var t := Begin(l, C, Confirmed);
    assert t.entries == map[C := Sent2(InCallback(Confirmed))];
  }

  lemma LeadsOn(s: State, step: Step, steps: seq<Step>, t: State)
    requires Enabled(s, step) && Leads(Next(s, step), steps, t)
    ensures Leads(s, [step] + steps, t)
  {
    hide Enabled, Next;
    assert ([step] + steps)[1..] == steps;
  }

  /**
   A run reaches a state from which a tick in the middle of a callback fails to write the watermark, so that it
   passes nothing over, and yet the deposit comes to be minted twice: its block is in the range again, the loop
   sends it a second time before the callback stores SUCCEEDED, and both confirmations are handled.
   */
  lemma TickDuringCallbackMintsTwice()
    returns (run: seq<State>, steps: seq<Step>, more: seq<Step>, t: State)
    ensures Runs.IsRun(run, steps)
    ensures Enabled(Last(run), TheTick()) && !Disciplined(Last(run), TheTick())
    ensures NoLoss(Next(Last(run), TheTick()).erc20)
    ensures Leads(Last(run), [TheTick()] + more, t)
    ensures |t.erc20.minted| == 2 && t.erc20.minted[0].id == t.erc20.minted[1].id && !MintedOk(t.erc20)
  {
    run, steps := SecondCallback(1);
    DoubleSend();
    FirstMint();
    SecondMint();
    var s := Last(run);
    hide Runs.IsRun, Enabled, Next, Disciplined, NoLoss, Both, W, Leads, MintTx;
    var t1 := Next(s, TheTick());
    var t2 := Next(t1, Step.Handle(false, 0, true, C));
    var t3 := Next(t2, Finish(B, true, true, false, false, D));
    var t4 := Next(t3, Callback(C, Confirmed));
    t := Next(t4, Finish(C, true, true, false, false, D));
    StaysHere(t);
    LeadsOn(t4, Finish(C, true, true, false, false, D), [], t);
    more := [Finish(C, true, true, false, false, D)] + [];
    LeadsOn(t3, Callback(C, Confirmed), more, t);
    more := [Callback(C, Confirmed)] + more;
    LeadsOn(t2, Finish(B, true, true, false, false, D), more, t);
    more := [Finish(B, true, true, false, false, D)] + more;
    LeadsOn(t1, Step.Handle(false, 0, true, C), more, t);
    more := [Step.Handle(false, 0, true, C)] + more;
    LeadsOn(s, TheTick(), more, t);
  }

  lemma StaysHere(s: State)
    ensures Leads(s, [], s)
  {}
}
