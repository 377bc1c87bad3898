/**
 Conservation across the two chains: what handled confirmations have minted against what the Bank has
 logged.
 */
module Totals {
  import opened Bytes
  import opened Lanes
  import opened Message
  import opened Relayer
  import opened Seam
  import Bank
  import Runs

  // ---------------------------------------------------------------- sums

  /** The amounts minted for the deposits in `ids`. */
  function MintSum(ms: seq<Mint>, ids: set<nat>): int {
    if ms == [] then 0
    else
      var last := ms[|ms| - 1];
      MintSum(ms[..|ms| - 1], ids) + if last.id in ids then last.tx.value else 0
  }

  /** The amounts minted on the destination contract `to`. */
  function MintedOn(ms: seq<Mint>, to: bytes): int {
    if ms == [] then 0
    else
      var last := ms[|ms| - 1];
      MintedOn(ms[..|ms| - 1], to) + if last.tx.to == to then last.tx.value else 0
  }

  /** The amounts of the deposits in `ids`. */
  function DepositSum(log: seq<Logged>, ids: set<nat>): nat {
    if log == [] then 0
    else
      var last := |log| - 1;
      DepositSum(log[..last], ids) + if last in ids then log[last].deposit.value else 0
  }

  lemma {:induction false} MoreDeposits(log: seq<Logged>, a: set<nat>, b: set<nat>)
    requires a <= b
    ensures DepositSum(log, a) <= DepositSum(log, b)
    decreases |log|
  {
    if log != [] {
      MoreDeposits(log[..|log| - 1], a, b);
    }
  }

  lemma {:induction false} SameDeposits(log: seq<Logged>, a: set<nat>, b: set<nat>)
    requires forall i :: 0 <= i < |log| ==> (i in a <==> i in b)
    ensures DepositSum(log, a) == DepositSum(log, b)
    decreases |log|
  {
    if log != [] {
      SameDeposits(log[..|log| - 1], a, b);
    }
  }

  lemma {:induction false} OneMoreDeposit(log: seq<Logged>, ids: set<nat>, id: nat)
    requires id < |log| && id !in ids
    ensures DepositSum(log, ids + {id}) == DepositSum(log, ids) + log[id].deposit.value
    decreases |log|
  {
    var last := |log| - 1;
    if id == last {
      SameDeposits(log[..last], ids + {id}, ids);
    } else {
      OneMoreDeposit(log[..last], ids, id);
      assert log[..last][id] == log[id];
    }
  }

  function Ids(ms: seq<Mint>): set<nat> {
    set m | m in ms :: m.id
  }

  /** Each mint is of one deposit, for its value, and no two are of the same one. */
  predicate Matched(ms: seq<Mint>, log: seq<Logged>) {
    && (forall i :: 0 <= i < |ms| ==> ms[i].id < |log| && ms[i].tx.value == log[ms[i].id].deposit.value)
    && (forall i, j :: 0 <= i < j < |ms| ==> ms[i].id != ms[j].id)
  }

  lemma {:induction false} MatchedSums(ms: seq<Mint>, log: seq<Logged>, ids: set<nat>)
    requires Matched(ms, log)
    ensures MintSum(ms, ids) == DepositSum(log, Ids(ms) * ids)
    decreases |ms|
  {
    if ms == [] {
      assert Ids(ms) * ids == {};
      NoDeposits(log);
    } else {
      var rest, last := ms[..|ms| - 1], ms[|ms| - 1];
      MatchedSums(rest, log, ids);
      LastId(ms, log);
      hide Matched, Ids, DepositSum;
      if last.id in ids {
        assert Ids(ms) * ids == Ids(rest) * ids + {last.id};
        OneMoreDeposit(log, Ids(rest) * ids, last.id);
      } else {
        assert Ids(ms) * ids == Ids(rest) * ids;
      }
    }
  }

  lemma LastId(ms: seq<Mint>, log: seq<Logged>)
    requires Matched(ms, log) && ms != []
    ensures var rest, last := ms[..|ms| - 1], ms[|ms| - 1];
            && Ids(ms) == Ids(rest) + {last.id} && last.id !in Ids(rest)
            && last.id < |log| && last.tx.value == log[last.id].deposit.value
  {
    assert ms == ms[..|ms| - 1] + [ms[|ms| - 1]];
  }

  lemma {:induction false} NoDeposits(log: seq<Logged>)
    ensures DepositSum(log, {}) == 0
  {
    if log != [] {
      NoDeposits(log[..|log| - 1]);
    }
  }

  lemma {:induction false} MintedOnIsSum(ms: seq<Mint>, to: bytes, ids: set<nat>)
    requires forall i :: 0 <= i < |ms| ==> (ms[i].tx.to == to <==> ms[i].id in ids)
    ensures MintedOn(ms, to) == MintSum(ms, ids)
    decreases |ms|
  {
    if ms != [] {
      MintedOnIsSum(ms[..|ms| - 1], to, ids);
    }
  }

  // ---------------------------------------------------------------- one mint, one deposit

  function Succeeded(l: Lane): set<nat> {
    set id | id in l.stored && l.stored[id].status == SUCCEEDED
  }

  lemma IdsSucceeded(l: Lane)
    requires MintedOk(l)
    ensures Ids(l.minted) == Succeeded(l)
  {
    hide MintTx;
    forall id
      ensures id in Ids(l.minted) <==> id in Succeeded(l)
    {
      if id in Succeeded(l) {
        assert MintedAt(l, id);
      }
    }
  }

  /** What a handled confirmation minted, next to what was deposited. */
  lemma MintOfDeposit(l: Lane, head: nat, i: nat)
    requires Core(l, head) && i < |l.minted|
    ensures var m := l.minted[i];
            && m.id < |l.log| && l.log[m.id].deposit.Deposited? && l.log[m.id].deposit.id == m.id
            && m.tx.recipient == l.log[m.id].deposit.sender
            && (m.tx.value == l.log[m.id].deposit.value <==> (l.nft ==> l.log[m.id].deposit.value < TWO_63))
  {
    var m := l.minted[i];
    Runs.CoreParts(l, head);
    hide Core, NoLoss, Marks, SendsOk, RecordOf, MintTx, Final;
    MintIsDeposit(l.stored[m.id], l.nft, l.log[m.id].deposit, m.tx.to);
  }

  /** The lane's log is the Bank's. */
  lemma LogIsBanks(s: State, kind: bool, id: nat)
    requires Relayer.Inv(s) && id < |LaneOf(s, kind).log|
    ensures |LaneOf(s, kind).log| == |BankLog(s.bank, kind)|
    ensures LaneOf(s, kind).log[id].deposit == BankLog(s.bank, kind)[id]
  {
    hide BankLog, Bank.Numbered, Lanes.Inv, Registered;
  }

  /**
   In every state of every run, each handled confirmation is of exactly one deposit in the Bank's log: it
   pays the depositor, and the value deposited, unless that is a token id of 2^63 or more.
   */
  lemma EachMintIsOneDeposit(run: seq<State>, steps: seq<Step>, i: nat, kind: bool, n: nat)
    requires Runs.IsRun(run, steps) && i < |run| && n < |LaneOf(run[i], kind).minted|
    ensures var m := LaneOf(run[i], kind).minted[n]; var log := BankLog(run[i].bank, kind);
            && m.id < |log| && log[m.id].Deposited? && log[m.id].id == m.id && m.tx.recipient == log[m.id].sender
            && (m.tx.value == log[m.id].value <==> (kind ==> log[m.id].value < TWO_63))
            && forall k :: 0 <= k < |LaneOf(run[i], kind).minted| && k != n ==>
                 LaneOf(run[i], kind).minted[k].id != m.id
  {
    Runs.Always(run, steps, i);
    var s, l := run[i], LaneOf(run[i], kind);
    Runs.LaneCore(s, kind);
    LaneParts(s, kind);
    hide Relayer.Inv, Core, Flight, Lanes.Inv, LaneOf, BankLog, Runs.IsRun, MintTx;
    MintOfDeposit(l, s.head, n);
    Runs.CoreParts(l, s.head);
    LogIsBanks(s, kind, l.minted[n].id);
  }

  // ---------------------------------------------------------------- the Bank's own books

  lemma BankOf(s: State, step: Step)
    requires Enabled(s, step)
    ensures Next(s, step).bank == if step.Mine? then Bank.RunAll(step.calls, s.bank) else s.bank
  {
    hide Enabled, Lanes.Mine, Lanes.Tick, Lanes.Handle, Lanes.FilterStops, Lanes.EndFetch, Lanes.Begin;
    hide Finished, Lanes.Close, Down, Bank.RunAll, NewLogs, BankLog, Sends, Resent, Get;
  }

  /** In every state of every run, the Bank holds what was paid in less what was paid out, and no call is open. */
  lemma {:induction false} BankBooks(run: seq<State>, steps: seq<Step>, i: nat)
    requires Runs.IsRun(run, steps) && i < |run|
    ensures Bank.Surplus(run[i].bank) == 0 && !run[i].bank.entered
  {
    hide Relayer.Inv, Enabled, Disciplined, Next, Bank.Surplus, Bank.RunAll;
    if i == 0 {
      Bank.Fresh();
    } else {
      BankBooks(run, steps, i - 1);
      BankOf(run[i - 1], steps[i - 1]);
      if steps[i - 1].Mine? {
        Bank.RunAllBalanced(steps[i - 1].calls, run[i - 1].bank);
      }
    }
  }

  // ---------------------------------------------------------------- amounts

  lemma AmountsMatch(l: Lane, head: nat)
    requires Core(l, head) && !l.nft
    ensures Matched(l.minted, l.log)
  {
    Runs.CoreParts(l, head);
    hide Core, MintTx;
    forall i | 0 <= i < |l.minted|
      ensures l.minted[i].id < |l.log| && l.minted[i].tx.value == l.log[l.minted[i].id].deposit.value
    {
      MintOfDeposit(l, head, i);
    }
  }

  function All(log: seq<Logged>): set<nat> {
    set id | 0 <= id < |log| && log[id].deposit.Deposited?
  }

  lemma SuccessesLogged(l: Lane)
    requires StoredOk(l)
    ensures Succeeded(l) <= All(l.log)
  {
    hide RecordOf, Final;
  }

  /**
   Conservation over any set of deposits, such as those of one token or one sender: the amounts minted
   for them are the amounts of those stored as SUCCEEDED, and no more than were deposited.
   */
  lemma AmountsConserved(run: seq<State>, steps: seq<Step>, i: nat, ids: set<nat>)
    requires Runs.IsRun(run, steps) && i < |run|
    ensures var l := run[i].erc20;
            MintSum(l.minted, ids) == DepositSum(l.log, Succeeded(l) * ids) <= DepositSum(l.log, All(l.log) * ids)
  {
    Runs.Always(run, steps, i);
    var l := run[i].erc20;
    Runs.LaneCore(run[i], false);
    LaneParts(run[i], false);
    hide Relayer.Inv, Core, Flight, Lanes.Inv, Runs.IsRun, MintedOk;
    AmountsMatch(l, run[i].head);
    Runs.CoreParts(l, run[i].head);
    IdsSucceeded(l);
    SuccessesLogged(l);
    MatchedSums(l.minted, l.log, ids);
    MoreDeposits(l.log, Succeeded(l) * ids, All(l.log) * ids);
  }

  // ---------------------------------------------------------------- destinations

  /** Every transaction in flight or handled goes where `pairs` sends the deposit's token. */
  predicate Routed(l: Lane, pairs: map<bytes, bytes>) {
    && (forall h :: h in l.entries ==> Routes(pairs, l.entries[h].event.token, l.entries[h].tx.to))
    && (forall i :: 0 <= i < |l.minted| ==>
          && l.minted[i].id < |l.log| && l.log[l.minted[i].id].deposit.Deposited?
          && Routes(pairs, l.log[l.minted[i].id].deposit.token, l.minted[i].tx.to))
  }

  predicate Routes(pairs: map<bytes, bytes>, token: bytes, to: bytes) {
    token in pairs && to == pairs[token]
  }

  lemma SentRouted(l: Lane, h: Hash, e: Msg, pairs: map<bytes, bytes>)
    requires Routed(l, pairs) && e.token in pairs
    ensures Routed(Sent(l, h, e, pairs[e.token]), pairs)
  {}

  lemma HandleRouted(l: Lane, id: nat, pairs: map<bytes, bytes>, read: bool, h: Hash)
    requires Routed(l, pairs) && l.fetch.Some? && id < |l.log| && l.log[id].deposit.Deposited? && Get(l, id).Ok?
    ensures Routed(Lanes.Handle(l, id, pairs, read, h), pairs)
  {
    hide Get, Sent, Routed;
    RoutedFrame(l, TakePending(l, id), pairs);
    if Sends(l, id, pairs, read) {
      SentRouted(TakePending(l, id), h, Get(l, id).value, pairs);
    } else {
      RoutedFrame(l, Lanes.Handle(l, id, pairs, read, h), pairs);
    }
  }

  lemma RoutedFrame(l: Lane, t: Lane, pairs: map<bytes, bytes>)
    requires Routed(l, pairs) && t.entries == l.entries && t.minted == l.minted && t.log == l.log
    ensures Routed(t, pairs)
  {}

  lemma SettleRouted(l: Lane, h: Hash, status: int32, putOk: bool, pairs: map<bytes, bytes>)
    requires Routed(l, pairs) && h in l.entries && EntryOk(l, l.entries[h])
    ensures Routed(Lanes.Settle(l, h, status, putOk), pairs)
  {
    var e := l.entries[h].event;
    assert e.token == l.log[e.id].deposit.token;
    hide EntryOk;
  }

  lemma FinishedRouted(l: Lane, h: Hash, pairs: map<bytes, bytes>, putOk: bool, read: bool, built: bool, next: Hash)
    requires Routed(l, pairs) && Running(l, h) && EntryOk(l, l.entries[h])
    ensures Routed(Finished(l, h, pairs, putOk, read, built, next), pairs)
  {
    hide EntryOk, Lanes.Settle, Sent, Routed;
    if l.entries[h].phase.verdict.Confirmed? {
      SettleRouted(l, h, SUCCEEDED, putOk, pairs);
    } else if GivesUp(l.entries[h]) {
      SettleRouted(l, h, FAILED, putOk, pairs);
    } else {
      ResendRouted(l, h, pairs, read, built, next);
    }
  }

  lemma ResendRouted(l: Lane, h: Hash, pairs: map<bytes, bytes>, read: bool, built: bool, next: Hash)
    requires Routed(l, pairs) && h in l.entries && Retries(l.entries[h])
    ensures Routed(Lanes.Resend(l, h, pairs, read, built, next), pairs)
  {
    hide Sent;
    var e := l.entries[h].event.(retry := l.entries[h].event.retry + 1);
    if e.token in pairs && read && built {
      SentRouted(TakeEntry(l, h), next, e, pairs);
    }
  }

  lemma EntryOf(s: State, kind: bool, h: Hash)
    requires Relayer.Inv(s) && h in LaneOf(s, kind).entries
    ensures EntryOk(LaneOf(s, kind), LaneOf(s, kind).entries[h])
  {
    Runs.LaneCore(s, kind);
    hide Relayer.Inv, Core;
    EntryHere(LaneOf(s, kind), h);
  }

  lemma CallsBackHas(s: State, h: Hash, kind: bool)
    requires CallsBack(s, h, kind)
    ensures h in LaneOf(s, kind).entries
  {}

  lemma StepRouted(s: State, step: Step, kind: bool, pairs: map<bytes, bytes>)
    requires Relayer.Inv(s) && Enabled(s, step) && Routed(LaneOf(s, kind), pairs) && (s.up ==> s.pairs == pairs)
    ensures Routed(LaneNext(s, step, kind), pairs)
  {
    var l := LaneOf(s, kind);
    hide Relayer.Inv, Finished, Lanes.Handle, Get, NewLogs, BankLog, CallsBack, EntryOk, Sent;
    match step
    case Handle(k, id, read, h) =>
      if k == kind {
        HandleRouted(l, id, pairs, read, h);
      }
    case Finish(h, putOk, read, built, _, next) =>
      if kind == !Running(s.erc20, h) {
        EntryOf(s, kind, h);
        FinishedRouted(l, h, pairs, putOk, read, built, next);
      }
    case Callback(h, v) =>
      if CallsBack(s, h, kind) {
        CallsBackHas(s, h, kind);
      }
    case Mine(_) => assert l.log <= LaneNext(s, step, kind).log;
    case _ =>
  }

  /** The pairs are the same in every process. */
  predicate Steady(steps: seq<Step>, pairs: map<bytes, bytes>) {
    forall j :: 0 <= j < |steps| && steps[j].Restart? ==> steps[j].pairs == pairs
  }

  lemma PairsStay(s: State, step: Step, pairs: map<bytes, bytes>)
    requires Enabled(s, step) && (s.up ==> s.pairs == pairs) && (step.Restart? ==> step.pairs == pairs)
    ensures Next(s, step).up ==> Next(s, step).pairs == pairs
  {
    hide Enabled, Lanes.Mine, Lanes.Tick, Lanes.Handle, Lanes.FilterStops, Lanes.EndFetch, Lanes.Begin;
    hide Finished, Lanes.Close, Down, Bank.RunAll, NewLogs, BankLog, Sends, Resent, Get;
  }

  lemma {:induction false} RunRouted(run: seq<State>, steps: seq<Step>, i: nat, kind: bool, pairs: map<bytes, bytes>)
    requires Runs.IsRun(run, steps) && i < |run| && Steady(steps, pairs)
    ensures Routed(LaneOf(run[i], kind), pairs) && (run[i].up ==> run[i].pairs == pairs)
  {
    hide Relayer.Inv, Enabled, Disciplined, Next, LaneNext, Routed;
    if i == 0 {
      NothingRouted(LaneOf(run[0], kind), pairs);
    } else {
      RunRouted(run, steps, i - 1, kind, pairs);
      Runs.Always(run, steps, i - 1);
      StepRouted(run[i - 1], steps[i - 1], kind, pairs);
      LaneNextIs(run[i - 1], steps[i - 1], kind);
      PairsStay(run[i - 1], steps[i - 1], pairs);
    }
  }

  lemma NothingRouted(l: Lane, pairs: map<bytes, bytes>)
    requires l.entries == map[] && l.minted == []
    ensures Routed(l, pairs)
  {}

  /** The deposits whose token is paired with the destination contract `to`. */
  function Bound(log: seq<Logged>, pairs: map<bytes, bytes>, to: bytes): set<nat> {
    set id | 0 <= id < |log| && log[id].deposit.Deposited? && Routes(pairs, log[id].deposit.token, to)
  }

  /** The deposits that handled transactions to the destination contract `to` were for. */
  function SentTo(l: Lane, to: bytes): set<nat> {
    set m | m in l.minted && m.tx.to == to :: m.id
  }

  /**
   Cross-chain conservation: on each destination contract, the sum of the mints whose confirmation was
   handled is the sum of the deposits sent there that are stored as SUCCEEDED, and at most the sum of all
   that the Bank logged of those, whatever becomes of the pairs between processes.
   */
  lemma DestinationConserved(run: seq<State>, steps: seq<Step>, i: nat, to: bytes)
    requires Runs.IsRun(run, steps) && i < |run|
    ensures var l := run[i].erc20; var sent := SentTo(l, to);
            MintedOn(l.minted, to) == DepositSum(l.log, Succeeded(l) * sent) <= DepositSum(l.log, All(l.log) * sent)
  {
    var l := run[i].erc20;
    Runs.HandledOnce(run, steps, i, false);
    SentApart(l, to);
    MintedOnIsSum(l.minted, to, SentTo(l, to));
    hide Runs.IsRun;
    AmountsConserved(run, steps, i, SentTo(l, to));
  }

  lemma SentApart(l: Lane, to: bytes)
    requires MintedOk(l)
    ensures forall i :: 0 <= i < |l.minted| ==> (l.minted[i].tx.to == to <==> l.minted[i].id in SentTo(l, to))
  {
    hide MintTx;
  }

  /**
   And with the same pairs in every process, that is the sum of the deposits stored as SUCCEEDED whose token
   is paired with the contract, and at most the sum of all that the Bank logged for it.
   */
  lemma PairConserved(run: seq<State>, steps: seq<Step>, i: nat, pairs: map<bytes, bytes>, to: bytes)
    requires Runs.IsRun(run, steps) && i < |run| && Steady(steps, pairs)
    ensures var l := run[i].erc20; var bound := Bound(l.log, pairs, to);
            MintedOn(l.minted, to) == DepositSum(l.log, Succeeded(l) * bound) <= DepositSum(l.log, bound)
  {
    var l := run[i].erc20;
    var bound := Bound(l.log, pairs, to);
    RunRouted(run, steps, i, false, pairs);
    MintedOnIsSum(l.minted, to, bound);
    hide Runs.IsRun, Routed;
    AmountsConserved(run, steps, i, bound);
    assert All(l.log) * bound == bound;
  }
}
