/**
 The event maps drain: for what is in flight and each log handled there are only so many callbacks to run, and
 once they have run the maps hold nothing but transactions that the confirmer refused to take.
 */
module Drain {
  import opened Bytes
  import opened Lanes
  import opened Relayer
  import opened Seam
  import Runs

  /** What a transaction in flight can still cause: two half callbacks for each retry it has left, and for itself. */
  function Weight(e: Entry): int {
    2 * (4 - e.event.retry) - if e.phase.InCallback? then 1 else 0
  }

  ghost function Sum(m: map<Hash, Entry>): int
    decreases |m|
  {
    if m == map[] then 0
    else
      var h :| h in m;
      Weight(m[h]) + Sum(m - {h})
  }

  /** Any entry can be taken out first. */
  lemma {:induction false} SumWithout(m: map<Hash, Entry>, h: Hash)
    requires h in m
    ensures Sum(m) == Weight(m[h]) + Sum(m - {h})
    decreases |m|
  {
    var g :| g in m && Sum(m) == Weight(m[g]) + Sum(m - {g});
    if g != h {
      SumWithout(m - {g}, h);
      SumWithout(m - {h}, g);
      assert m - {g} - {h} == m - {h} - {g};
    }
  }

  lemma SumPut(m: map<Hash, Entry>, h: Hash, e: Entry)
    ensures Sum(m[h := e]) == Weight(e) + Sum(m - {h})
  {
    SumWithout(m[h := e], h);
    assert m[h := e] - {h} == m - {h};
  }

  predicate Light(m: map<Hash, Entry>) {
    forall h :: h in m ==> m[h].event.retry <= 3
  }

  /** With retry counts of at most 3 every entry weighs between 1 and 8. */
  lemma {:induction false} SumBounds(m: map<Hash, Entry>)
    requires Light(m)
    ensures |m| <= Sum(m) <= 8 * |m|
    decreases |m|
  {
    if m != map[] {
      var h :| h in m && Sum(m) == Weight(m[h]) + Sum(m - {h});
      assert (m - {h}).Keys == m.Keys - {h} && |m.Keys - {h}| == |m.Keys| - 1;
      assert |m.Keys| == |m| && |(m - {h}).Keys| == |m - {h}|;
      assert 1 <= Weight(m[h]) <= 8;
      SumBounds(m - {h});
    }
  }

  ghost function Measure(s: State): int {
    Sum(s.erc20.entries) + Sum(s.nft.entries)
  }

  /** Half a callback weighs one. */
  lemma BeginLightens(l: Lane, h: Hash, v: Verdict)
    requires InMapOf(l, h)
    ensures Sum(Begin(l, h, v).entries) == Sum(l.entries) - 1
  {
    SumWithout(l.entries, h);
    SumPut(l.entries, h, l.entries[h].(phase := InCallback(v)));
  }

  lemma FinishedLightens(l: Lane, h: Hash, pairs: map<bytes, bytes>, putOk: bool, read: bool, built: bool, next: Hash)
    requires Running(l, h) && next !in l.entries && l.entries[h].event.retry <= 3
    ensures Sum(Finished(l, h, pairs, putOk, read, built, next).entries) < Sum(l.entries)
  {
    SumWithout(l.entries, h);
    hide Sum, MintTx, Finished;
    if Resent(l, h, pairs, read, built) {
      ResentEntries(l, h, pairs, putOk, read, built, next);
      var e := l.entries[h].event.(retry := l.entries[h].event.retry + 1);
      SumPut(l.entries - {h}, next, Entry(e, MintTx(e, pairs[e.token]), InMap));
      assert l.entries - {h} - {next} == l.entries - {h};
    } else {
      FinishedDrops(l, h, pairs, putOk, read, built, next);
    }
  }

  lemma ResentEntries(l: Lane, h: Hash, pairs: map<bytes, bytes>, putOk: bool, read: bool, built: bool, next: Hash)
    requires Running(l, h) && Resent(l, h, pairs, read, built)
    ensures var e := l.entries[h].event.(retry := l.entries[h].event.retry + 1);
            Finished(l, h, pairs, putOk, read, built, next).entries ==
              (l.entries - {h})[next := Entry(e, MintTx(e, pairs[e.token]), InMap)]
  {
    hide MintTx;
  }

  lemma FinishedDrops(l: Lane, h: Hash, pairs: map<bytes, bytes>, putOk: bool, read: bool, built: bool, next: Hash)
    requires Running(l, h) && !Resent(l, h, pairs, read, built)
    ensures Finished(l, h, pairs, putOk, read, built, next).entries == l.entries - {h}
  {}

  // ---------------------------------------------------------------- steps and runs

  predicate IsCallback(step: Step) {
    step.Callback? || step.Finish?
  }

  lemma EntryLight(s: State, kind: bool)
    requires Relayer.Inv(s)
    ensures Light(LaneOf(s, kind).entries)
  {
    Runs.LaneCore(s, kind);
    hide Relayer.Inv, Core, Seam.RecordOf, MintTx;
  }

  lemma CallbackLightens(s: State, h: Hash, v: Verdict)
    requires Relayer.Inv(s) && h in s.outstanding
    ensures Measure(CallbackIn(s, h, v)) == Measure(s) - 1
  {
    CallbackFinds(s, h);
    hide Relayer.Inv, Sum, Begin;
    BeginLightens(LaneOf(s, !InERC20(s, h)), h, v);
  }

  lemma FinishLightens(s: State, kind: bool, h: Hash, putOk: bool, read: bool, built: bool, enqueued: bool, next: Hash)
    requires Relayer.Inv(s) && Running(LaneOf(s, kind), h) && next !in s.used
    ensures Measure(FinishIn(s, kind, h, putOk, read, built, enqueued, next)) < Measure(s)
  {
    LaneParts(s, kind);
    NotUsed(s, kind, next);
    EntryLight(s, kind);
    hide Relayer.Inv, Sum, Registered, Finished, Resent, Lanes.Inv;
    FinishedLightens(LaneOf(s, kind), h, s.pairs, putOk, read, built, next);
  }

  /** Each callback, and each half of one, lightens what is in flight. */
  lemma Lightens(s: State, step: Step)
    requires Relayer.Inv(s) && Enabled(s, step) && IsCallback(step)
    ensures Measure(Next(s, step)) < Measure(s)
  {
    hide Relayer.Inv, Measure, CallbackIn, FinishIn;
    match step
    case Callback(h, v) => CallbackLightens(s, h, v);
    case Finish(h, putOk, read, built, enqueued, next) =>
      FinishLightens(s, !Running(s.erc20, h), h, putOk, read, built, enqueued, next);
  }

  lemma HandleWeighs(l: Lane, id: nat, pairs: map<bytes, bytes>, read: bool, h: Hash)
    requires Yields(l, id) && h !in l.entries
    ensures Sum(Lanes.Handle(l, id, pairs, read, h).entries) <= Sum(l.entries) + 8
  {
    hide Get, MintTx;
    if Sends(l, id, pairs, read) {
      var e := Get(l, id).value;
      SumPut(l.entries, h, Entry(e, MintTx(e, pairs[e.token]), InMap));
      assert l.entries - {h} == l.entries;
    }
  }

  /** A log handled puts at most one transaction in flight. */
  lemma HandleAdds(s: State, kind: bool, id: nat, read: bool, h: Hash)
    requires Relayer.Inv(s) && h !in s.used && Yields(LaneOf(s, kind), id)
    ensures Measure(HandleIn(s, kind, id, read, h)) <= Measure(s) + 8
  {
    LaneParts(s, kind);
    NotUsed(s, kind, h);
    hide Relayer.Inv, Sum, Lanes.Handle, Sends, Registered, Lanes.Inv, Get;
    HandleWeighs(LaneOf(s, kind), id, s.pairs, read, h);
  }

  lemma LaneKeepsEntries(s: State, step: Step, kind: bool)
    requires Enabled(s, step) && !step.Handle? && !IsCallback(step)
    ensures var t := LaneNext(s, step, kind); t.entries == LaneOf(s, kind).entries || t.entries == map[]
  {
    hide NewLogs, BankLog, Fits, Get, MapEmpty;
  }

  /** What the chain, the main loop, a restart and an end do puts nothing in flight. */
  lemma OthersAddNothing(s: State, step: Step)
    requires Relayer.Inv(s) && Enabled(s, step) && !step.Handle? && !IsCallback(step)
    ensures Measure(Next(s, step)) <= Measure(s)
  {
    LaneNextIs(s, step, false);
    LaneNextIs(s, step, true);
    LaneKeepsEntries(s, step, false);
    LaneKeepsEntries(s, step, true);
    EntryLight(s, false);
    EntryLight(s, true);
    hide Relayer.Inv, Enabled, Next, LaneNext, Light;
    SumBounds(s.erc20.entries);
    SumBounds(s.nft.entries);
  }

  /** What one step does to the measure. */
  lemma StepWeighs(s: State, step: Step)
    requires Relayer.Inv(s) && Enabled(s, step)
    ensures Measure(Next(s, step)) <=
              Measure(s) + (if step.Handle? then 8 else 0) - (if IsCallback(step) then 1 else 0)
  {
    hide Relayer.Inv, Measure, HandleIn, CallbackIn, FinishIn, Yields;
    if IsCallback(step) {
      Lightens(s, step);
    } else if step.Handle? {
      HandleAdds(s, step.kind, step.id, step.read, step.hash);
    } else {
      OthersAddNothing(s, step);
    }
  }

  /** How many of the first `k` steps are halves of callbacks. */
  function Callbacks(steps: seq<Step>, k: nat): nat
    requires k <= |steps|
  {
    if k == 0 then 0 else Callbacks(steps, k - 1) + if IsCallback(steps[k - 1]) then 1 else 0
  }

  /** How many of them handle a log. */
  function Handles(steps: seq<Step>, k: nat): nat
    requires k <= |steps|
  {
    if k == 0 then 0 else Handles(steps, k - 1) + if steps[k - 1].Handle? then 1 else 0
  }

  /**
   Whatever else happens in between, over any stretch there are at most eight half callbacks for each
   transaction in flight at its start and for each log handled on the way.
   */
  lemma {:induction false} CallbacksEnd(run: seq<State>, steps: seq<Step>, k: nat)
    requires Runs.Follows(run, steps) && Relayer.Inv(run[0]) && k <= |steps|
    ensures Relayer.Inv(run[k]) && Measure(run[k]) + Callbacks(steps, k) <= Measure(run[0]) + 8 * Handles(steps, k)
    ensures Callbacks(steps, k) <= 8 * (|run[0].erc20.entries| + |run[0].nft.entries| + Handles(steps, k))
  {
    hide Relayer.Inv, Enabled, Disciplined, Next, Measure;
    if k > 0 {
      CallbacksEnd(run, steps, k - 1);
      StepKeeps(run[k - 1], steps[k - 1]);
      StepWeighs(run[k - 1], steps[k - 1]);
    }
    MeasureBounds(run[0]);
    MeasureBounds(run[k]);
  }

  lemma MeasureBounds(s: State)
    requires Relayer.Inv(s)
    ensures 0 <= Measure(s) <= 8 * (|s.erc20.entries| + |s.nft.entries|)
  {
    hide Relayer.Inv, Sum, Light;
    EntryLight(s, false);
    EntryLight(s, true);
    SumBounds(s.erc20.entries);
    SumBounds(s.nft.entries);
  }

  /** No callback is left to come, and none is running. */
  predicate Still(s: State) {
    s.outstanding == {} && Quiet(s.erc20) && Quiet(s.nft)
  }

  /**
   Once it is still, the maps hold exactly the transactions the confirmer refused, and so they are empty
   if and only if it refused none.
   */
  lemma Drained(s: State)
    requires Relayer.Inv(s) && Still(s)
    ensures s.erc20.entries.Keys + s.nft.entries.Keys == s.stuck
    ensures MapEmpty(s.erc20) && MapEmpty(s.nft) <==> s.stuck == {}
  {
    LaneParts(s, false);
    hide Relayer.Inv, Lanes.Inv;
    forall h
      ensures h in s.erc20.entries.Keys + s.nft.entries.Keys <==> h in s.stuck
    {
      assert InERC20(s, h) || InNFT(s, h) <==> h in s.outstanding || h in s.stuck;
    }
  }

  /** There is always a hash that has not been used. */
  lemma {:induction false} Longer(used: set<Hash>) returns (n: nat)
    ensures forall h :: h in used ==> |h| < n
    decreases |used|
  {
    if used == {} {
      n := 0;
    } else {
      var h :| h in used;
      var m := Longer(used - {h});
      n := m + |h| + 1;
      assert forall g :: g in used ==> g == h || g in used - {h};
    }
  }

  /** Until it is still, some callback can come, or one that is running can finish. */
  lemma NotStillMoves(s: State) returns (step: Step)
    requires s.up && !Still(s)
    ensures IsCallback(step) && Enabled(s, step)
  {
    if s.outstanding != {} {
      var h :| h in s.outstanding;
      step := Callback(h, Confirmed);
    } else {
      var n := Longer(s.used);
      var next: Hash := seq(n, i => 0);
      if !Quiet(s.erc20) {
        var h :| h in s.erc20.entries && !s.erc20.entries[h].phase.InMap?;
        step := Finish(h, true, true, true, true, next);
      } else {
        var h :| h in s.nft.entries && !s.nft.entries[h].phase.InMap?;
        step := Finish(h, true, true, true, true, next);
      }
    }
  }
}
