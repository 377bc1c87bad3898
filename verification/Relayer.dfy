/**
 The relayer as a state machine: the chain with its Bank, the store, the process with its main loop and
 its confirmer callbacks, and the crashes and restarts between them.
 */
module Relayer {
  import opened Bytes
  import opened Lanes
  import opened Message
  import opened Seam
  import Bank

  datatype State = State(
    head: nat,                 // the latest block of the source chain
    bank: Bank.State,          // the Bank contract on it
    up: bool,                  // whether a process is running
    pairs: map<bytes, bytes>,  // the store: destination contract by source contract
    erc20: Lane,
    nft: Lane,
    used: set<Hash>,           // transaction hashes of this process
    outstanding: set<Hash>,    // handed to the confirmer, which has not called back yet
    stuck: set<Hash>)          // in the event map of this process, but refused by the confirmer's queue

  /** Everything that can happen next; the arguments are the environment's choices. */
  datatype Step =
    | Mine(calls: Bank.Calls)
    | Tick(kind: bool, end: nat, putOk: bool)
    | Handle(kind: bool, id: nat, read: bool, hash: Hash)
    | FilterStops(kind: bool)
    | EndFetch(kind: bool)
    | Callback(hash: Hash, verdict: Verdict)
    | Finish(hash: Hash, putOk: bool, read: bool, built: bool, enqueued: bool, next: Hash)
    | Close(putERC20: bool, putNFT: bool)
    | Crash
    | Restart(pairs: map<bytes, bytes>)

  function LaneOf(s: State, nft: bool): Lane {
    if nft then s.nft else s.erc20
  }

  function With(s: State, nft: bool, l: Lane): State {
    if nft then s.(nft := l) else s.(erc20 := l)
  }

  /** The logs of a kind past the first `n`, in block `block`. */
  function NewLogs(log: seq<Bank.Log>, n: nat, block: nat): seq<Logged>
    requires n <= |log|
  {
    seq(|log| - n, i requires 0 <= i < |log| - n => Logged(block, log[n + i]))
  }

  function BankLog(b: Bank.State, nft: bool): seq<Bank.Log> {
    Bank.Deposits(b.log, Bank.TokenKind(nft))
  }

  /** The lane whose entries hold `h`; the maps are read in this order. */
  predicate InERC20(s: State, h: Hash) {
    h in s.erc20.entries && s.erc20.entries[h].phase.InMap?
  }

  predicate InNFT(s: State, h: Hash) {
    h in s.nft.entries && s.nft.entries[h].phase.InMap?
  }

  predicate Running(l: Lane, h: Hash) {
    h in l.entries && l.entries[h].phase.InCallback?
  }

  /** Deposit ids stay below 2^64. */
  predicate Fits(b: Bank.State, c: Bank.State) {
    && |BankLog(b, false)| <= |BankLog(c, false)| <= TWO_64
    && |BankLog(b, true)| <= |BankLog(c, true)| <= TWO_64
  }

  /** The filter can yield the log of deposit `id` next. */
  predicate Yields(l: Lane, id: nat) {
    && l.fetch.Some? && id in l.fetch.value.pending
    && id < |l.log| && l.log[id].deposit.Deposited? && Get(l, id).Ok?
  }

  /** What the environment may choose: the assumptions about chain, filter, confirmer and nonces. */
  predicate Enabled(s: State, step: Step) {
    match step
    case Mine(calls) => Fits(s.bank, Bank.RunAll(calls, s.bank))
    case Tick(kind, end, _) =>
      && s.up && s.erc20.fetch.None? && s.nft.fetch.None?
      && LaneOf(s, kind).confirmed <= end <= s.head
    case Handle(kind, id, read, h) => s.up && h !in s.used && Yields(LaneOf(s, kind), id)
    case FilterStops(kind) => s.up && LaneOf(s, kind).fetch.Some?
    case EndFetch(kind) => s.up && LaneOf(s, kind).fetch.Some? && LaneOf(s, kind).fetch.value.pending == {}
    case Callback(h, _) => s.up && h in s.outstanding
    case Finish(h, _, _, _, _, next) => s.up && (Running(s.erc20, h) || Running(s.nft, h)) && next !in s.used
    case Close(_, _) => s.up && s.erc20.fetch.None? && s.nft.fetch.None?
    case Crash => s.up
    case Restart(_) => !s.up
  }

  /** Whether a `Handle` gets as far as sending. */
  predicate Sends(l: Lane, id: nat, pairs: map<bytes, bytes>, read: bool)
    requires id < |l.log| && l.log[id].deposit.Deposited? && Get(l, id).Ok?
  {
    !(id in l.stored && Get(l, id).value.status == SUCCEEDED) && read && Get(l, id).value.token in pairs
  }

  /** The end of a callback: the confirmed handler, or either branch of the error handler. */
  function Finished(l: Lane, h: Hash, pairs: map<bytes, bytes>, putOk: bool, read: bool, built: bool, next: Hash): Lane
    requires Running(l, h)
  {
    if l.entries[h].phase.verdict.Confirmed? then Lanes.Settle(l, h, SUCCEEDED, putOk)
    else if GivesUp(l.entries[h]) then Lanes.Settle(l, h, FAILED, putOk)
    else Lanes.Resend(l, h, pairs, read, built, next)
  }

  predicate Resent(l: Lane, h: Hash, pairs: map<bytes, bytes>, read: bool, built: bool)
    requires Running(l, h)
  {
    Retries(l.entries[h]) && l.entries[h].event.token in pairs && read && built
  }

  function HandleIn(s: State, kind: bool, id: nat, read: bool, h: Hash): State
    requires LaneOf(s, kind).fetch.Some? && id < |LaneOf(s, kind).log|
    requires LaneOf(s, kind).log[id].deposit.Deposited? && Get(LaneOf(s, kind), id).Ok?
  {
    var t := With(s, kind, Lanes.Handle(LaneOf(s, kind), id, s.pairs, read, h));
    if Sends(LaneOf(s, kind), id, s.pairs, read) then t.(used := s.used + {h}, outstanding := s.outstanding + {h})
    else t
  }

  /** A callback looks its hash up in the ERC20 map first; a hash in neither map is ignored. */
  function CallbackIn(s: State, h: Hash, v: Verdict): State {
    var t := s.(outstanding := s.outstanding - {h});
    if InERC20(s, h) then t.(erc20 := Begin(s.erc20, h, v))
    else if InNFT(s, h) then t.(nft := Begin(s.nft, h, v))
    else t
  }

  function FinishIn(
    s: State, nft: bool, h: Hash, putOk: bool, read: bool, built: bool, enqueued: bool, next: Hash): State
    requires Running(LaneOf(s, nft), h)
  {
    Handed(s, nft, Finished(LaneOf(s, nft), h, s.pairs, putOk, read, built, next),
           Resent(LaneOf(s, nft), h, s.pairs, read, built), enqueued, next)
  }

  /** What was sent again goes to the confirmer, or finds its queue closed to it. */
  function Handed(s: State, nft: bool, l: Lane, resent: bool, enqueued: bool, next: Hash): State {
    var t := With(s, nft, l);
    if !resent then t
    else if enqueued then t.(used := s.used + {next}, outstanding := s.outstanding + {next})
    else t.(used := s.used + {next}, stuck := s.stuck + {next})
  }

  function Off(s: State, erc20: Lane, nft: Lane): State {
    s.(up := false, erc20 := erc20, nft := nft, used := {}, outstanding := {}, stuck := {})
  }

  function Next(s: State, step: Step): State
    requires Enabled(s, step)
  {
    match step
    case Mine(calls) =>
      var b := Bank.RunAll(calls, s.bank);
      s.(head := s.head + 1, bank := b,
         erc20 := Lanes.Mine(s.erc20, NewLogs(BankLog(b, false), |BankLog(s.bank, false)|, s.head + 1)),
         nft := Lanes.Mine(s.nft, NewLogs(BankLog(b, true), |BankLog(s.bank, true)|, s.head + 1)))
    case Tick(kind, end, putOk) =>
      if !MapEmpty(LaneOf(s, kind)) then s
      else With(s, kind, Lanes.Tick(LaneOf(s, kind), end, putOk))
    case Handle(kind, id, read, h) => HandleIn(s, kind, id, read, h)
    case FilterStops(kind) => With(s, kind, Lanes.FilterStops(LaneOf(s, kind)))
    case EndFetch(kind) => With(s, kind, Lanes.EndFetch(LaneOf(s, kind)))
    case Callback(h, v) => CallbackIn(s, h, v)
    case Finish(h, putOk, read, built, enqueued, next) =>
      FinishIn(s, !Running(s.erc20, h), h, putOk, read, built, enqueued, next)
    case Close(putERC20, putNFT) => Off(s, Lanes.Close(s.erc20, putERC20), Lanes.Close(s.nft, putNFT))
    case Crash => Off(s, Down(s.erc20), Down(s.nft))
    case Restart(pairs) => s.(up := true, pairs := pairs)
  }

  /** What a step does to the lane of one kind. */
  function LaneNext(s: State, step: Step, kind: bool): Lane
    requires Enabled(s, step)
  {
    var l := LaneOf(s, kind);
    match step
    case Mine(calls) =>
      Lanes.Mine(l, NewLogs(BankLog(Bank.RunAll(calls, s.bank), kind), |BankLog(s.bank, kind)|, s.head + 1))
    case Tick(k, end, putOk) => if k == kind && MapEmpty(l) then Lanes.Tick(l, end, putOk) else l
    case Handle(k, id, read, h) => if k == kind then Lanes.Handle(l, id, s.pairs, read, h) else l
    case FilterStops(k) => if k == kind then Lanes.FilterStops(l) else l
    case EndFetch(k) => if k == kind then Lanes.EndFetch(l) else l
    case Callback(h, v) => if CallsBack(s, h, kind) then Begin(l, h, v) else l
    case Finish(h, putOk, read, built, _, next) =>
      if kind == !Running(s.erc20, h) then Finished(l, h, s.pairs, putOk, read, built, next) else l
    case Close(putERC20, putNFT) => Lanes.Close(l, if kind then putNFT else putERC20)
    case Crash => Down(l)
    case Restart(_) => l
  }

  predicate CallsBack(s: State, h: Hash, kind: bool) {
    if kind then !InERC20(s, h) && InNFT(s, h) else InERC20(s, h)
  }

  lemma LaneNextIs(s: State, step: Step, kind: bool)
    requires Enabled(s, step)
    ensures LaneOf(Next(s, step), kind) == LaneNext(s, step, kind)
  {
    hide Enabled, Lanes.Mine, Lanes.Tick, Lanes.Handle, Lanes.FilterStops, Lanes.EndFetch, Lanes.Begin;
    hide Finished, Lanes.Close, Down, Bank.RunAll, NewLogs, BankLog, Sends, Resent, Get;
  }

  /**
   The one assumption about scheduling: a tick that finds its map empty and writes the watermark does not
   fall inside a callback that emptied the map. Where the write fails, it may, if the deposit of the callback
   is in a block before the range of the fetch.
   */
  predicate Disciplined(s: State, step: Step) {
    step.Tick? && MapEmpty(LaneOf(s, step.kind)) ==> TickSafe(LaneOf(s, step.kind), step.putOk)
  }

  // ---------------------------------------------------------------- the invariant

  /** The lane's log is what the Bank has logged for the kind. */
  predicate Fed(l: Lane, b: Bank.State) {
    && |l.log| == |BankLog(b, l.nft)|
    && forall i :: 0 <= i < |l.log| ==> l.log[i].deposit == BankLog(b, l.nft)[i]
  }

  /** What the event maps hold is what the confirmer has, or refused to take. */
  ghost predicate Registered(s: State) {
    && s.erc20.entries.Keys !! s.nft.entries.Keys
    && s.erc20.entries.Keys + s.nft.entries.Keys <= s.used
    && s.outstanding !! s.stuck
    && forall h :: InERC20(s, h) || InNFT(s, h) <==> h in s.outstanding || h in s.stuck
  }

  predicate Resting(l: Lane) {
    l.entries == map[] && l.fetch.None? && l.confirmed == l.mark
  }

  ghost predicate LanesOk(s: State) {
    && !s.erc20.nft && s.nft.nft && Lanes.Inv(s.erc20, s.head) && Lanes.Inv(s.nft, s.head)
  }

  ghost predicate ChainOk(s: State) {
    Bank.Numbered(s.bank) && Fed(s.erc20, s.bank) && Fed(s.nft, s.bank)
  }

  predicate ProcessOk(s: State) {
    && (s.erc20.fetch.None? || s.nft.fetch.None?)
    && (!s.up ==> Resting(s.erc20) && Resting(s.nft))
  }

  ghost predicate Inv(s: State) {
    LanesOk(s) && ChainOk(s) && Registered(s) && ProcessOk(s)
  }

  /** A fresh chain, an empty store, no process. */
  predicate Init(s: State) {
    s == State(0, Bank.FRESH, false, s.pairs, EMPTY_ERC20, EMPTY_NFT, {}, {}, {})
  }

  lemma NothingFed(l: Lane)
    requires l.log == []
    ensures Fed(l, Bank.FRESH)
  {
    assert Bank.FRESH.log == [];
    assert BankLog(Bank.FRESH, l.nft) == [];
  }

  lemma InitLanes(s: State)
    requires Init(s)
    ensures LanesOk(s) && ProcessOk(s) && s.erc20.log == [] && s.nft.log == [] && s.bank == Bank.FRESH
  {
    hide Lanes.Inv;
    EmptyOk(false);
    EmptyOk(true);
  }

  lemma InitChain(s: State)
    requires s.erc20.log == [] && s.nft.log == [] && s.bank == Bank.FRESH
    ensures ChainOk(s)
  {
    hide Bank.Numbered, Fed, BankLog, Bank.FRESH;
    Bank.Fresh();
    NothingFed(s.erc20);
    NothingFed(s.nft);
  }

  lemma InitHashes(s: State)
    requires Init(s)
    ensures Registered(s)
  {}

  /** The machine starts from a fresh chain and an empty store, and the invariant holds there. */
  lemma InitOk(s: State)
    requires Init(s)
    ensures Inv(s)
  {
    hide Init, LanesOk, ChainOk, Registered, ProcessOk;
    InitLanes(s);
    InitChain(s);
    InitHashes(s);
  }

  // ---------------------------------------------------------------- every step keeps it

  lemma LogsContinue(l: Lane, b: Bank.State, calls: Bank.Calls, block: nat)
    requires Fed(l, b) && Bank.Numbered(b) && |BankLog(Bank.RunAll(calls, b), l.nft)| <= TWO_64
    requires |BankLog(b, l.nft)| <= |BankLog(Bank.RunAll(calls, b), l.nft)|
    ensures var c := Bank.RunAll(calls, b);
            var more := NewLogs(BankLog(c, l.nft), |BankLog(b, l.nft)|, block);
            Continues(l, more, block) && Fed(Lanes.Mine(l, more), c) && Bank.Numbered(c)
  {
    var c := Bank.RunAll(calls, b);
    Bank.RunAllNumbered(calls, b);
    Bank.RunAllGrows(calls, b);
    Bank.DepositsGrow(b.log, c.log, Bank.TokenKind(l.nft));
    assert Bank.Dense(c.log, Bank.TokenKind(l.nft));
    hide Bank.RunAll, Bank.Deposits, Bank.Numbered, Continues, Fed;
    MoreLogs(l, b, c, block);
  }

  lemma MoreLogs(l: Lane, b: Bank.State, c: Bank.State, block: nat)
    requires Fed(l, b) && BankLog(b, l.nft) <= BankLog(c, l.nft) && |BankLog(c, l.nft)| <= TWO_64
    requires Bank.Dense(c.log, Bank.TokenKind(l.nft))
    ensures var more := NewLogs(BankLog(c, l.nft), |BankLog(b, l.nft)|, block);
            Continues(l, more, block) && Fed(Lanes.Mine(l, more), c)
  {
    hide Bank.Deposits;
    var more := NewLogs(BankLog(c, l.nft), |BankLog(b, l.nft)|, block);
    forall i | 0 <= i < |more|
      ensures more[i].block == block && more[i].deposit.Deposited? && more[i].deposit.id == |l.log| + i
    {
      assert more[i].deposit == BankLog(c, l.nft)[|l.log| + i];
    }
  }

  lemma MineKeeps(s: State, calls: Bank.Calls)
    requires Inv(s) && Enabled(s, Mine(calls))
    ensures Inv(Next(s, Mine(calls)))
  {
    MineLanes(s, calls);
    hide LanesOk, ChainOk, Bank.RunAll, NewLogs, BankLog;
    SameMaps(s, Next(s, Mine(calls)));
    hide Registered;
  }

  lemma MineLane(l: Lane, b: Bank.State, calls: Bank.Calls, head: nat)
    requires Lanes.Inv(l, head) && Fed(l, b) && Bank.Numbered(b) && |BankLog(Bank.RunAll(calls, b), l.nft)| <= TWO_64
    requires |BankLog(b, l.nft)| <= |BankLog(Bank.RunAll(calls, b), l.nft)|
    ensures var c := Bank.RunAll(calls, b);
            var t := Lanes.Mine(l, NewLogs(BankLog(c, l.nft), |BankLog(b, l.nft)|, head + 1));
            Lanes.Inv(t, head + 1) && Fed(t, c) && Bank.Numbered(c)
  {
    LogsContinue(l, b, calls, head + 1);
    hide Fed, Lanes.Inv, Bank.RunAll, Bank.Numbered, NewLogs, Continues, BankLog;
    Lanes.MineKeeps(l, head, NewLogs(BankLog(Bank.RunAll(calls, b), l.nft), |BankLog(b, l.nft)|, head + 1));
  }

  lemma MineLanes(s: State, calls: Bank.Calls)
    requires LanesOk(s) && ChainOk(s) && Enabled(s, Mine(calls))
    ensures LanesOk(Next(s, Mine(calls))) && ChainOk(Next(s, Mine(calls)))
  {
    hide Fed, Lanes.Inv, Bank.RunAll, Bank.Numbered, NewLogs, BankLog;
    MineLane(s.erc20, s.bank, calls, s.head);
    MineLane(s.nft, s.bank, calls, s.head);
  }

  /** Nothing about registration changes while the entries and the hash sets stay. */
  lemma SameMaps(s: State, t: State)
    requires Registered(s) && t.erc20.entries == s.erc20.entries && t.nft.entries == s.nft.entries
    requires t.used == s.used && t.outstanding == s.outstanding && t.stuck == s.stuck
    ensures Registered(t)
  {
    forall h
      ensures InERC20(t, h) == InERC20(s, h) && InNFT(t, h) == InNFT(s, h)
    {}
  }

  /** A step of a running process that changes one lane, and neither log nor head. */
  lemma LaneStep(s: State, kind: bool, l: Lane, t: State)
    requires Inv(s) && s.up && t == With(s, kind, l).(used := t.used, outstanding := t.outstanding, stuck := t.stuck)
    requires l.nft == kind && l.log == LaneOf(s, kind).log && Lanes.Inv(l, s.head) && Registered(t)
    requires LaneOf(s, !kind).fetch.None? || l.fetch.None?
    ensures Inv(t)
  {
    hide Registered, Lanes.Inv, Bank.Numbered, BankLog;
  }

  lemma LaneParts(s: State, kind: bool)
    requires Inv(s)
    ensures Lanes.Inv(LaneOf(s, kind), s.head) && LaneOf(s, kind).nft == kind && Registered(s)
    ensures LaneOf(s, kind).fetch.Some? ==> LaneOf(s, !kind).fetch.None?
  {
    hide Registered, Lanes.Inv, ChainOk;
  }

  lemma TickKeeps(s: State, kind: bool, end: nat, putOk: bool)
    requires Inv(s) && Enabled(s, Tick(kind, end, putOk)) && Disciplined(s, Tick(kind, end, putOk))
    ensures Inv(Next(s, Tick(kind, end, putOk)))
  {
    var l, t := LaneOf(s, kind), Next(s, Tick(kind, end, putOk));
    LaneParts(s, kind);
    hide Inv, Registered, Lanes.Inv;
    if MapEmpty(l) {
      SameMaps(s, t);
      Lanes.TickKeeps(l, s.head, end, putOk);
      LaneStep(s, kind, Lanes.Tick(l, end, putOk), t);
    }
  }

  lemma FilterStopsKeeps(s: State, kind: bool)
    requires Inv(s) && Enabled(s, FilterStops(kind))
    ensures Inv(Next(s, FilterStops(kind)))
  {
    var l, t := LaneOf(s, kind), Next(s, FilterStops(kind));
    LaneParts(s, kind);
    hide Inv, Registered, Lanes.Inv;
    SameMaps(s, t);
    Lanes.FilterStopsKeeps(l, s.head);
    LaneStep(s, kind, Lanes.FilterStops(l), t);
  }

  lemma EndFetchKeeps(s: State, kind: bool)
    requires Inv(s) && Enabled(s, EndFetch(kind))
    ensures Inv(Next(s, EndFetch(kind)))
  {
    var l, t := LaneOf(s, kind), Next(s, EndFetch(kind));
    LaneParts(s, kind);
    hide Inv, Registered, Lanes.Inv;
    SameMaps(s, t);
    Lanes.EndFetchKeeps(l, s.head);
    LaneStep(s, kind, Lanes.EndFetch(l), t);
  }

  // ---------------------------------------------------------------- entries come and go

  predicate InMapOf(l: Lane, h: Hash) {
    h in l.entries && l.entries[h].phase.InMap?
  }

  /** A lane's in-map hashes gain or lose one, and so do the process's hash sets. */
  lemma Reregister(s: State, kind: bool, l: Lane, t: State, gone: set<Hash>, come: set<Hash>)
    requires Registered(s)
    requires t == With(s, kind, l).(used := t.used, outstanding := t.outstanding, stuck := t.stuck)
    requires l.entries.Keys <= LaneOf(s, kind).entries.Keys + come
    requires come !! s.used && t.used == s.used + come
    requires forall h :: InMapOf(l, h) <==> (InMapOf(LaneOf(s, kind), h) && h !in gone) || h in come
    requires gone <= LaneOf(s, kind).entries.Keys
    requires (t.outstanding == s.outstanding - gone + come && t.stuck == s.stuck - gone)
          || (t.outstanding == s.outstanding - gone && t.stuck == s.stuck - gone + come)
    ensures Registered(t)
  {
    forall h
      ensures InERC20(t, h) || InNFT(t, h) <==> h in t.outstanding || h in t.stuck
    {
      assert InERC20(s, h) || InNFT(s, h) <==> h in s.outstanding || h in s.stuck;
      assert h in come ==> h !in s.used;
    }
  }

  lemma SentMaps(l: Lane, h: Hash, e: Msg, to: bytes, g: Hash)
    ensures InMapOf(Sent(l, h, e, to), g) <==> InMapOf(l, g) || g == h
    ensures Sent(l, h, e, to).entries.Keys == l.entries.Keys + {h}
  {}

  lemma HandleMaps(l: Lane, id: nat, pairs: map<bytes, bytes>, read: bool, h: Hash, g: Hash)
    requires l.fetch.Some? && id < |l.log| && l.log[id].deposit.Deposited? && Get(l, id).Ok?
    ensures InMapOf(Lanes.Handle(l, id, pairs, read, h), g) <==> InMapOf(l, g) || (Sends(l, id, pairs, read) && g == h)
    ensures Lanes.Handle(l, id, pairs, read, h).entries.Keys ==
              l.entries.Keys + (if Sends(l, id, pairs, read) then {h} else {})
  {
    hide Get, Sent;
    if Sends(l, id, pairs, read) {
      var e := Get(l, id).value;
      SentMaps(TakePending(l, id), h, e, pairs[e.token], g);
    }
  }

  lemma HandleKeeps(s: State, kind: bool, id: nat, read: bool, h: Hash)
    requires Inv(s) && s.up && LaneOf(s, kind).fetch.Some? && id in LaneOf(s, kind).fetch.value.pending && h !in s.used
    ensures id < |LaneOf(s, kind).log|
    ensures LaneOf(s, kind).log[id].deposit.Deposited? && Get(LaneOf(s, kind), id).Ok?
    ensures Inv(HandleIn(s, kind, id, read, h))
  {
    var l := LaneOf(s, kind);
    LaneParts(s, kind);
    NotUsed(s, kind, h);
    hide Inv, Registered, Lanes.Inv, Lanes.Handle, InMapOf, Get, Sends;
    Lanes.HandleKeeps(l, s.head, id, s.pairs, read, h);
    HandleFrame(l, id, s.pairs, read, h);
    HandleRegisters(s, kind, id, read, h);
    LaneStep(s, kind, Lanes.Handle(l, id, s.pairs, read, h), HandleIn(s, kind, id, read, h));
  }

  lemma HandleRegisters(s: State, kind: bool, id: nat, read: bool, h: Hash)
    requires Registered(s) && LaneOf(s, kind).fetch.Some? && id < |LaneOf(s, kind).log| && h !in s.used
    requires LaneOf(s, kind).log[id].deposit.Deposited? && Get(LaneOf(s, kind), id).Ok?
    ensures Registered(HandleIn(s, kind, id, read, h))
  {
    hide Registered, Lanes.Handle, InMapOf, Get, Sends;
    var l := LaneOf(s, kind);
    var next := Lanes.Handle(l, id, s.pairs, read, h);
    var come: set<Hash> := if Sends(l, id, s.pairs, read) then {h} else {};
    forall g
      ensures InMapOf(next, g) <==> (InMapOf(l, g) && g !in {}) || g in come
    {
      HandleMaps(l, id, s.pairs, read, h, g);
    }
    HandleMaps(l, id, s.pairs, read, h, h);
    Reregister(s, kind, next, HandleIn(s, kind, id, read, h), {}, come);
  }

  lemma NotUsed(s: State, kind: bool, h: Hash)
    requires Registered(s) && h !in s.used
    ensures h !in LaneOf(s, kind).entries
  {}

  lemma SentFrame(l: Lane, h: Hash, e: Msg, to: bytes)
    ensures var t := Sent(l, h, e, to);
            t.nft == l.nft && t.log == l.log && t.fetch == l.fetch && t.mark == l.mark && t.confirmed == l.confirmed
  {
    hide MintTx;
  }

  lemma HandleFrame(l: Lane, id: nat, pairs: map<bytes, bytes>, read: bool, h: Hash)
    requires l.fetch.Some? && id < |l.log| && l.log[id].deposit.Deposited? && Get(l, id).Ok?
    ensures var t := Lanes.Handle(l, id, pairs, read, h);
            && t.nft == l.nft && t.log == l.log && t.mark == l.mark && t.confirmed == l.confirmed
            && t.fetch == TakePending(l, id).fetch
  {
    hide Get, Sent;
    var e := Get(l, id).value;
    if Sends(l, id, pairs, read) {
      SentFrame(TakePending(l, id), h, e, pairs[e.token]);
    }
  }

  lemma BeginMaps(l: Lane, h: Hash, v: Verdict, g: Hash)
    requires h in l.entries
    ensures InMapOf(Begin(l, h, v), g) <==> InMapOf(l, g) && g != h
    ensures Begin(l, h, v).entries.Keys == l.entries.Keys
  {}

  /** Every first callback finds its event, in exactly one of the two maps. */
  lemma CallbackFinds(s: State, h: Hash)
    requires Inv(s) && h in s.outstanding
    ensures InMapOf(s.erc20, h) <==> !InMapOf(s.nft, h)
    ensures InMapOf(s.erc20, h) ==> h !in s.nft.entries
  {
    hide LanesOk, ChainOk;
    assert InERC20(s, h) || InNFT(s, h);
  }

  lemma CallbackKeeps(s: State, h: Hash, v: Verdict)
    requires Inv(s) && s.up && h in s.outstanding
    ensures Inv(CallbackIn(s, h, v))
  {
    CallbackFinds(s, h);
    var kind := !InMapOf(s.erc20, h);
    LaneParts(s, kind);
    CallbackRegisters(s, kind, h, v);
    hide Inv, Registered, Lanes.Inv, Begin;
    Lanes.BeginKeeps(LaneOf(s, kind), s.head, h, v);
    BeginFrame(LaneOf(s, kind), h, v);
    LaneStep(s, kind, Begin(LaneOf(s, kind), h, v), CallbackIn(s, h, v));
  }

  lemma CallbackRegisters(s: State, kind: bool, h: Hash, v: Verdict)
    requires Registered(s) && h in s.outstanding && InMapOf(LaneOf(s, kind), h)
    ensures Registered(With(s, kind, Begin(LaneOf(s, kind), h, v)).(outstanding := s.outstanding - {h}))
  {
    var next := Begin(LaneOf(s, kind), h, v);
    assert h !in s.stuck;
    hide Registered, InMapOf, Begin;
    forall g
      ensures InMapOf(next, g) <==> (InMapOf(LaneOf(s, kind), g) && g !in {h}) || g in {}
    {
      BeginMaps(LaneOf(s, kind), h, v, g);
    }
    BeginMaps(LaneOf(s, kind), h, v, h);
    Reregister(s, kind, next, With(s, kind, next).(outstanding := s.outstanding - {h}), {h}, {});
  }

  lemma BeginFrame(l: Lane, h: Hash, v: Verdict)
    requires h in l.entries
    ensures var t := Begin(l, h, v); t.nft == l.nft && t.log == l.log && t.fetch == l.fetch
  {}

  lemma FinishedMaps(
    l: Lane, h: Hash, pairs: map<bytes, bytes>, putOk: bool, read: bool, built: bool, next: Hash, g: Hash)
    requires Running(l, h) && next !in l.entries
    ensures var t := Finished(l, h, pairs, putOk, read, built, next);
            && (InMapOf(t, g) <==> InMapOf(l, g) || (Resent(l, h, pairs, read, built) && g == next))
            && t.entries.Keys <= l.entries.Keys + (if Resent(l, h, pairs, read, built) then {next} else {})
  {
    hide Sent;
    if Resent(l, h, pairs, read, built) {
      var e := l.entries[h].event.(retry := l.entries[h].event.retry + 1);
      SentMaps(TakeEntry(l, h), next, e, pairs[e.token], g);
    }
  }

  lemma FinishedFrame(l: Lane, h: Hash, pairs: map<bytes, bytes>, putOk: bool, read: bool, built: bool, next: Hash)
    requires Running(l, h)
    ensures var t := Finished(l, h, pairs, putOk, read, built, next);
            t.nft == l.nft && t.log == l.log && t.fetch == l.fetch
  {
    hide Sent, Lanes.Settle, Lanes.Resend;
    if l.entries[h].phase.verdict.Confirmed? {
      SettleFrame(l, h, SUCCEEDED, putOk);
    } else if GivesUp(l.entries[h]) {
      SettleFrame(l, h, FAILED, putOk);
    } else {
      ResendFrame(l, h, pairs, read, built, next);
    }
  }

  lemma SettleFrame(l: Lane, h: Hash, status: int32, putOk: bool)
    requires h in l.entries
    ensures var t := Lanes.Settle(l, h, status, putOk); t.nft == l.nft && t.log == l.log && t.fetch == l.fetch
  {}

  lemma ResendFrame(l: Lane, h: Hash, pairs: map<bytes, bytes>, read: bool, built: bool, next: Hash)
    requires h in l.entries && Retries(l.entries[h])
    ensures var t := Lanes.Resend(l, h, pairs, read, built, next);
            t.nft == l.nft && t.log == l.log && t.fetch == l.fetch
  {
    hide MintTx;
  }

  lemma FinishedKeeps(
    l: Lane, head: nat, h: Hash, pairs: map<bytes, bytes>, putOk: bool, read: bool, built: bool, next: Hash)
    requires Lanes.Inv(l, head) && Running(l, h) && next !in l.entries
    ensures Lanes.Inv(Finished(l, h, pairs, putOk, read, built, next), head)
  {
    hide Lanes.Inv, Lanes.Settle, Lanes.Resend;
    if l.entries[h].phase.verdict.Confirmed? {
      Lanes.SettleKeeps(l, head, h, SUCCEEDED, putOk);
    } else if GivesUp(l.entries[h]) {
      Lanes.SettleKeeps(l, head, h, FAILED, putOk);
    } else {
      Lanes.ResendKeeps(l, head, h, pairs, read, built, next);
    }
  }

  lemma FinishKeeps(s: State, kind: bool, h: Hash, putOk: bool, read: bool, built: bool, enqueued: bool, next: Hash)
    requires Inv(s) && s.up && Running(LaneOf(s, kind), h) && next !in s.used
    ensures Inv(FinishIn(s, kind, h, putOk, read, built, enqueued, next))
  {
    var l := LaneOf(s, kind);
    LaneParts(s, kind);
    NotUsed(s, kind, next);
    hide Inv, Registered, Lanes.Inv, Finished, Resent;
    FinishedKeeps(l, s.head, h, s.pairs, putOk, read, built, next);
    FinishedFrame(l, h, s.pairs, putOk, read, built, next);
    FinishRegisters(s, kind, h, putOk, read, built, enqueued, next);
    LaneStep(s, kind, Finished(l, h, s.pairs, putOk, read, built, next),
             FinishIn(s, kind, h, putOk, read, built, enqueued, next));
  }

  lemma FinishRegisters(s: State, kind: bool, h: Hash, putOk: bool, read: bool, built: bool, enqueued: bool, next: Hash)
    requires Registered(s) && Running(LaneOf(s, kind), h) && next !in s.used
    ensures Registered(FinishIn(s, kind, h, putOk, read, built, enqueued, next))
  {
    NotUsed(s, kind, next);
    hide Registered, Finished, Resent, Running, InMapOf, LaneOf, Handed;
    var l, resent := LaneOf(s, kind), Resent(LaneOf(s, kind), h, s.pairs, read, built);
    var m := Finished(l, h, s.pairs, putOk, read, built, next);
    FinishedMaps(l, h, s.pairs, putOk, read, built, next, h);
    forall g
      ensures InMapOf(m, g) <==> InMapOf(l, g) || (resent && g == next)
    {
      FinishedMaps(l, h, s.pairs, putOk, read, built, next, g);
    }
    MoreMaps(s, kind, m, resent, enqueued, next);
  }

  /** A lane with at most one new hash, which the confirmer takes or refuses. */
  lemma MoreMaps(s: State, kind: bool, m: Lane, resent: bool, enqueued: bool, next: Hash)
    requires Registered(s) && next !in s.used
    requires forall g :: InMapOf(m, g) <==> InMapOf(LaneOf(s, kind), g) || (resent && g == next)
    requires m.entries.Keys <= LaneOf(s, kind).entries.Keys + (if resent then {next} else {})
    ensures Registered(Handed(s, kind, m, resent, enqueued, next))
  {
    hide Registered, InMapOf;
    var t := Handed(s, kind, m, resent, enqueued, next);
    if resent {
      Reregister(s, kind, m, t, {}, {next});
    } else {
      Reregister(s, kind, m, t, {}, {});
    }
  }

  lemma OffOk(s: State, erc20: Lane, nft: Lane)
    requires ChainOk(s) && LanesOk(s.(erc20 := erc20, nft := nft))
    requires Resting(erc20) && Resting(nft) && erc20.log == s.erc20.log && nft.log == s.nft.log
    requires !s.erc20.nft && s.nft.nft
    ensures Inv(Off(s, erc20, nft))
  {
    hide Lanes.Inv, Bank.Numbered, BankLog;
  }

  lemma CoreOf(l: Lane, head: nat)
    requires Lanes.Inv(l, head)
    ensures Core(l, head)
  {
    hide Core, Flight, Accounted;
  }

  lemma EndKeeps(s: State, step: Step)
    requires Inv(s) && Enabled(s, step) && (step.Close? || step.Crash?)
    ensures Inv(Next(s, step))
  {
    LaneParts(s, false);
    LaneParts(s, true);
    CoreOf(s.erc20, s.head);
    CoreOf(s.nft, s.head);
    hide ChainOk, Registered, Lanes.Inv, Core, IdsInMap;
    match step
    case Close(a, b) =>
      Lanes.CloseKeeps(s.erc20, s.head, a);
      Lanes.CloseKeeps(s.nft, s.head, b);
      OffOk(s, Lanes.Close(s.erc20, a), Lanes.Close(s.nft, b));
    case Crash =>
      Lanes.DownKeeps(s.erc20, s.head);
      Lanes.DownKeeps(s.nft, s.head);
      OffOk(s, Down(s.erc20), Down(s.nft));
  }

  lemma RestartKeeps(s: State, pairs: map<bytes, bytes>)
    requires Inv(s) && Enabled(s, Restart(pairs))
    ensures Inv(Next(s, Restart(pairs)))
  {
    hide Lanes.Inv, ChainOk, Registered;
    SameMaps(s, Next(s, Restart(pairs)));
    SameChain(s, Next(s, Restart(pairs)));
  }

  lemma SameChain(s: State, t: State)
    requires ChainOk(s) && t == s.(up := t.up, pairs := t.pairs)
    ensures ChainOk(t)
  {}

  lemma CallbackStep(s: State, step: Step)
    requires Inv(s) && Enabled(s, step) && (step.Handle? || step.Callback? || step.Finish?)
    ensures Inv(Next(s, step))
  {
    hide Inv, HandleIn, CallbackIn, FinishIn;
    match step
    case Handle(kind, id, read, h) => HandleKeeps(s, kind, id, read, h);
    case Callback(h, v) => CallbackKeeps(s, h, v);
    case Finish(h, putOk, read, built, enqueued, next) =>
      FinishKeeps(s, !Running(s.erc20, h), h, putOk, read, built, enqueued, next);
  }

  /** Every step of the machine keeps the invariant. */
  lemma StepKeeps(s: State, step: Step)
    requires Inv(s) && Enabled(s, step) && Disciplined(s, step)
    ensures Inv(Next(s, step))
  {
    hide Inv, Enabled, Next, Disciplined;
    match step
    case Mine(calls) => MineKeeps(s, calls);
    case Tick(kind, end, putOk) => TickKeeps(s, kind, end, putOk);
    case FilterStops(kind) => FilterStopsKeeps(s, kind);
    case EndFetch(kind) => EndFetchKeeps(s, kind);
    case Handle(_, _, _, _) => CallbackStep(s, step);
    case Callback(_, _) => CallbackStep(s, step);
    case Finish(_, _, _, _, _, _) => CallbackStep(s, step);
    case Close(_, _) => EndKeeps(s, step);
    case Crash => EndKeeps(s, step);
    case Restart(pairs) => RestartKeeps(s, pairs);
  }

  /** And but for an undisciplined tick, which breaks it, every step does: the assumption is the weakest there is. */
  lemma StepKeepsIff(s: State, step: Step)
    requires Inv(s) && Enabled(s, step)
    ensures Inv(Next(s, step)) <==> Disciplined(s, step)
  {
    if Disciplined(s, step) {
      StepKeeps(s, step);
    } else {
      hide Inv, Lanes.Inv, Lanes.Tick, TickSafe;
      LaneParts(s, step.kind);
      Lanes.TickKeepsIff(LaneOf(s, step.kind), s.head, step.end, step.putOk);
      var t := Next(s, step);
      if Inv(t) {
        LaneParts(t, step.kind);
      }
    }
  }
}
