/**
 Whole runs of the relayer, across crashes, restarts and graceful closes, and what holds in every state of
 every one of them.
 */
module Runs {
  import opened Bytes
  import opened Lanes
  import opened Message
  import opened Relayer
  import opened Seam
  import Bank

  /** `steps` takes the first state of `run` through all the others. */
  ghost predicate Follows(run: seq<State>, steps: seq<Step>) {
    && |run| == |steps| + 1
    && forall i :: 0 <= i < |steps| ==>
         Enabled(run[i], steps[i]) && Disciplined(run[i], steps[i]) && run[i + 1] == Next(run[i], steps[i])
  }

  /** A run from a fresh chain and an empty store. */
  ghost predicate IsRun(run: seq<State>, steps: seq<Step>) {
    Follows(run, steps) && Init(run[0])
  }

  /** One step more. */
  lemma Extend(run: seq<State>, steps: seq<Step>, step: Step) returns (run': seq<State>, steps': seq<Step>)
    requires IsRun(run, steps) && Enabled(run[|run| - 1], step) && Disciplined(run[|run| - 1], step)
    ensures IsRun(run', steps') && run' == run + [Next(run[|run| - 1], step)] && steps' == steps + [step]
  {
    hide Enabled, Disciplined, Next, Init;
    run', steps' := run + [Next(run[|run| - 1], step)], steps + [step];
  }

  lemma {:induction false} Always(run: seq<State>, steps: seq<Step>, i: nat)
    requires IsRun(run, steps) && i < |run|
    ensures Relayer.Inv(run[i])
  {
    hide Relayer.Inv, Enabled, Disciplined, Next, Init;
    if i == 0 {
      InitOk(run[0]);
    } else {
      Always(run, steps, i - 1);
      StepKeeps(run[i - 1], steps[i - 1]);
    }
  }

  // ---------------------------------------------------------------- no deposit is forgotten

  /** The outcome is in the store. */
  predicate Settled(l: Lane, id: nat) {
    id in l.stored && Final(l.stored[id])
  }

  lemma LaneCore(s: State, kind: bool)
    requires Relayer.Inv(s)
    ensures Core(LaneOf(s, kind), s.head) && Flight(LaneOf(s, kind))
  {
    LaneParts(s, kind);
    hide Relayer.Inv, Core, Flight, Accounted;
  }

  lemma CoreParts(l: Lane, head: nat)
    requires Core(l, head)
    ensures StoredOk(l) && NoLoss(l) && MintedOk(l) && SendsOk(l) && LogOk(l, head) && Marks(l, head)
  {}

  lemma LaneSound(s: State, kind: bool)
    requires Relayer.Inv(s)
    ensures Lanes.Inv(LaneOf(s, kind), s.head) && Sound(LaneOf(s, kind), s.head)
  {
    LaneParts(s, kind);
    hide Relayer.Inv, Sound, Trail;
  }

  /** The last that became of a deposit is an outcome in the store, or that it was given up for this reason. */
  predicate Resolved(l: Lane, id: nat) {
    id in l.fate && match l.fate[id]
                    case Sending => false
                    case Kept => Settled(l, id)
                    case Lost(r) => LostFor(l, id, r)
  }

  lemma Adrift(l: Lane, head: nat, id: nat)
    requires Lanes.Inv(l, head) && id < |l.log|
    ensures Held(l, id) || Pending(l, id) || Unreached(l) <= l.log[id].block || Resolved(l, id)
  {
    SoundParts(l, head);
    assert TrailAt(l, id);
    assert l.log[id].block <= Reach(l) ==> Placed(l, id);
    hide Sound, Trail, LogOk, Flight, Held;
  }

  /**
   In every state of every run, each deposit ever logged is in flight, or to come in the running fetch, or in a
   block no fetch of this process has got to, or is resolved: its last outcome stands in the store, or it was
   given up for a named reason and nothing has become of it since.
   */
  lemma NoneAdrift(run: seq<State>, steps: seq<Step>, i: nat, kind: bool, id: nat)
    requires IsRun(run, steps) && i < |run| && id < |LaneOf(run[i], kind).log|
    ensures var l := LaneOf(run[i], kind);
            Held(l, id) || Pending(l, id) || Unreached(l) <= l.log[id].block || Resolved(l, id)
  {
    Always(run, steps, i);
    LaneSound(run[i], kind);
    hide Relayer.Inv, IsRun, Lanes.Inv, Sound, LaneOf;
    Adrift(LaneOf(run[i], kind), run[i].head, id);
  }

  /**
   In every state of every run, no deposit in a block strictly below the persisted watermark of its kind is in
   flight or to come, and each one is resolved: a crash, after which nothing below the watermark is read
   again, takes no transaction of such a deposit with it.
   */
  lemma NothingBelow(run: seq<State>, steps: seq<Step>, i: nat, kind: bool, id: nat)
    requires IsRun(run, steps) && i < |run| && id < |LaneOf(run[i], kind).log|
    requires LaneOf(run[i], kind).log[id].block < LaneOf(run[i], kind).mark
    ensures var l := LaneOf(run[i], kind); !Held(l, id) && !Pending(l, id) && Resolved(l, id)
  {
    Always(run, steps, i);
    LaneSound(run[i], kind);
    hide Relayer.Inv, IsRun, Lanes.Inv, Sound, LaneOf, LostFor, Held, Pending;
    BelowMark(LaneOf(run[i], kind), run[i].head, id);
  }

  /**
   In every state of every run, a deposit in a block at or below the persisted watermark of its kind has had an
   outcome: a final status in the store, or it was given up for one of the named reasons. In the watermark's own
   block, which is read again, a later transaction for it may be on its way.
   */
  lemma NoDepositForgotten(run: seq<State>, steps: seq<Step>, i: nat, kind: bool, id: nat)
    requires IsRun(run, steps) && i < |run| && id < |LaneOf(run[i], kind).log|
    requires LaneOf(run[i], kind).log[id].block <= LaneOf(run[i], kind).mark
    ensures Settled(LaneOf(run[i], kind), id) || id in LaneOf(run[i], kind).dropped
    ensures LaneOf(run[i], kind).log[id].block < LaneOf(run[i], kind).mark ==> Resolved(LaneOf(run[i], kind), id)
  {
    if LaneOf(run[i], kind).log[id].block < LaneOf(run[i], kind).mark {
      NothingBelow(run, steps, i, kind, id);
    }
    Always(run, steps, i);
    LaneCore(run[i], kind);
    hide Relayer.Inv, IsRun, Core, LaneOf, Resolved;
    CoreParts(LaneOf(run[i], kind), run[i].head);
    assert Covered(LaneOf(run[i], kind), id);
  }

  // ---------------------------------------------------------------- what a deposit is given up for

  /** The step at which a deposit is given up, for each reason there is. */
  predicate Causes(s: State, step: Step, kind: bool, id: nat, r: Reason)
    requires Enabled(s, step)
  {
    var l := LaneOf(s, kind);
    match r
    case PairNotFound => Looks(s, step, kind, id) && step.read && l.log[id].deposit.token !in s.pairs
    case PairUnread => (Looks(s, step, kind, id) || Again(s, step, kind, id)) && !step.read
    case RetryNotSent =>
      Again(s, step, kind, id) && step.read && !(step.built && l.entries[step.hash].event.token in s.pairs)
    case PutFailed => Ends(s, step, kind, id) && !Retries(l.entries[step.hash]) && !step.putOk
    case FilterFailed => step.FilterStops? && step.kind == kind && id in l.fetch.value.pending
    case ForcedClose => step.Close? && id in IdsInMap(l)
    case CallbackCut => step.Close? && id in IdsInCallback(l)
  }

  /** The loop gets to deposit `id` and does not find it SUCCEEDED. */
  predicate Looks(s: State, step: Step, kind: bool, id: nat)
    requires Enabled(s, step)
  {
    && step.Handle? && step.kind == kind && step.id == id
    && !(id in LaneOf(s, kind).stored && LaneOf(s, kind).stored[id].status == SUCCEEDED)
  }

  /** A callback for deposit `id` comes to its end. */
  predicate Ends(s: State, step: Step, kind: bool, id: nat) {
    && step.Finish? && Running(LaneOf(s, kind), step.hash)
    && LaneOf(s, kind).entries[step.hash].event.id == id
  }

  /** And that end is to send it again. */
  predicate Again(s: State, step: Step, kind: bool, id: nat) {
    Ends(s, step, kind, id) && Retries(LaneOf(s, kind).entries[step.hash])
  }

  predicate DroppedFor(l: Lane, id: nat, r: Reason) {
    id in l.dropped && l.dropped[id] == r
  }

  /** The step gets to deposit `id`. */
  predicate Turns(s: State, step: Step, kind: bool, id: nat)
    requires Enabled(s, step)
  {
    || Looks(s, step, kind, id)
    || Ends(s, step, kind, id)
    || (step.FilterStops? && step.kind == kind && id in LaneOf(s, kind).fetch.value.pending)
    || (step.Close? && Held(LaneOf(s, kind), id))
  }

  /** What the loop makes of a deposit it gets to, if it does not pass it by. */
  function Looked(l: Lane, id: nat, pairs: map<bytes, bytes>, read: bool): Option<Fate>
    requires id < |l.log| && l.log[id].deposit.Deposited?
  {
    if id in l.stored && l.stored[id].status == SUCCEEDED then None
    else if !read then Some(Lost(PairUnread))
    else if l.log[id].deposit.token in pairs then Some(Sending)
    else Some(Lost(PairNotFound))
  }

  /** What the end of a callback makes of its deposit. */
  function Ended(e: Entry, pairs: map<bytes, bytes>, putOk: bool, read: bool, built: bool): Fate {
    if !Retries(e) then if putOk then Kept else Lost(PutFailed)
    else if !read then Lost(PairUnread)
    else if built && e.event.token in pairs then Sending
    else Lost(RetryNotSent)
  }

  predicate Becomes(l: Lane, t: Lane, id: nat, f: Option<Fate>) {
    match f
    case None => t.fate == l.fate && t.dropped == l.dropped
    case Some(x) =>
      && t.fate == l.fate[id := x]
      && t.dropped == if x.Lost? then l.dropped[id := x.reason] else l.dropped
  }

  lemma BecomesIff(l: Lane, t: Lane, at: nat, f: Option<Fate>, id: nat, r: Reason)
    requires Becomes(l, t, at, f)
    ensures LostFor(t, id, r) <==> (id == at && f == Some(Lost(r))) || (LostFor(l, id, r) && (id != at || f.None?))
    ensures DroppedFor(t, id, r) ==> (id == at && f == Some(Lost(r))) || DroppedFor(l, id, r)
  {}

  lemma HandleBecomes(l: Lane, head: nat, id: nat, pairs: map<bytes, bytes>, read: bool, h: Hash)
    requires LogOk(l, head) && StoredOk(l) && Yields(l, id)
    ensures Becomes(l, Lanes.Handle(l, id, pairs, read, h), id, Looked(l, id, pairs, read))
  {
    GetSeesStored(l, head, id);
    TokenIs(l, Get(l, id).value, id);
    hide LogOk, StoredOk, Get, Sent, FromLog, RecordOf, Becomes;
    var e := Get(l, id).value;
    if Sends(l, id, pairs, read) {
      SentBecomes(l, TakePending(l, id), h, e, pairs[e.token]);
    } else {
      OtherwiseBecomes(l, id, pairs, read, h);
    }
  }

  lemma OtherwiseBecomes(l: Lane, id: nat, pairs: map<bytes, bytes>, read: bool, h: Hash)
    requires Yields(l, id) && !Sends(l, id, pairs, read)
    ensures var t := Lanes.Handle(l, id, pairs, read, h);
            Becomes(l, t, id,
                    if id in l.stored && Get(l, id).value.status == SUCCEEDED then None
                    else if !read then Some(Lost(PairUnread)) else Some(Lost(PairNotFound)))
  {
    hide Get;
  }

  lemma TokenIs(l: Lane, e: Msg, id: nat)
    requires id < |l.log| && l.log[id].deposit.Deposited? && RecordOf(e, l.nft, l.log[id].deposit)
    ensures e.token == l.log[id].deposit.token
  {}

  lemma SentBecomes(l: Lane, rest: Lane, h: Hash, e: Msg, to: bytes)
    requires rest.fate == l.fate && rest.dropped == l.dropped
    ensures Becomes(l, Sent(rest, h, e, to), e.id, Some(Sending))
  {
    hide MintTx;
  }

  lemma SettleBecomes(l: Lane, h: Hash, status: int32, putOk: bool)
    requires h in l.entries
    ensures Becomes(l, Lanes.Settle(l, h, status, putOk), l.entries[h].event.id,
                    Some(if putOk then Kept else Lost(PutFailed)))
  {}

  lemma ResendBecomes(l: Lane, h: Hash, pairs: map<bytes, bytes>, read: bool, built: bool, next: Hash)
    requires h in l.entries && Retries(l.entries[h])
    ensures Becomes(l, Lanes.Resend(l, h, pairs, read, built, next), l.entries[h].event.id,
                    Some(Ended(l.entries[h], pairs, true, read, built)))
  {
    hide Sent;
    var e := l.entries[h].event.(retry := l.entries[h].event.retry + 1);
    if e.token in pairs {
      SentBecomes(l, TakeEntry(l, h), next, e, pairs[e.token]);
    }
  }

  lemma FinishBecomes(
    l: Lane, h: Hash, pairs: map<bytes, bytes>, putOk: bool, read: bool, built: bool, next: Hash)
    requires Running(l, h)
    ensures Becomes(l, Finished(l, h, pairs, putOk, read, built, next), l.entries[h].event.id,
                    Some(Ended(l.entries[h], pairs, putOk, read, built)))
  {
    hide Becomes, Lanes.Settle, Lanes.Resend;
    if !Retries(l.entries[h]) {
      SettleBecomes(l, h, if l.entries[h].phase.verdict.Confirmed? then SUCCEEDED else FAILED, putOk);
    } else {
      ResendBecomes(l, h, pairs, read, built, next);
    }
  }

  lemma OneLane(s: State, h: Hash)
    requires Relayer.Inv(s)
    ensures !(Running(s.erc20, h) && Running(s.nft, h))
  {
    LaneParts(s, false);
    hide Relayer.Inv, Lanes.Inv;
  }

  /** After the step the deposit is lost for `r` just if the step is the cause, or it was and is passed by. */
  predicate CausesIff(s: State, step: Step, kind: bool, id: nat, r: Reason)
    requires Enabled(s, step)
  {
    var l, t := LaneOf(s, kind), LaneNext(s, step, kind);
    && (LostFor(t, id, r) <==> Causes(s, step, kind, id, r) || (LostFor(l, id, r) && !Turns(s, step, kind, id)))
    && (DroppedFor(t, id, r) ==> Causes(s, step, kind, id, r) || DroppedFor(l, id, r))
  }

  lemma HandleCauses(s: State, step: Step, kind: bool, id: nat, r: Reason)
    requires Relayer.Inv(s) && Enabled(s, step) && step.Handle?
    ensures CausesIff(s, step, kind, id, r)
  {
    hide Relayer.Inv, Get, Lanes.Handle, Yields, LostFor, DroppedFor, Looked, Becomes;
    var l := LaneOf(s, kind);
    if step.kind == kind {
      LogAndStore(s, kind);
      LogHere(l, step.id);
      HandleBecomes(l, s.head, step.id, s.pairs, step.read, step.hash);
      BecomesIff(l, LaneNext(s, step, kind), step.id, Looked(l, step.id, s.pairs, step.read), id, r);
      CausesOfHandle(s, step, kind, id, r);
      hide Causes, LogOk, StoredOk;
    }
  }

  lemma CausesOfHandle(s: State, step: Step, kind: bool, id: nat, r: Reason)
    requires Enabled(s, step) && step.Handle? && step.kind == kind
    requires step.id < |LaneOf(s, kind).log| && LaneOf(s, kind).log[step.id].deposit.Deposited?
    ensures var f := Looked(LaneOf(s, kind), step.id, s.pairs, step.read);
            && (Causes(s, step, kind, id, r) <==> id == step.id && f == Some(Lost(r)))
            && (Turns(s, step, kind, id) <==> id == step.id && f.Some?)
  {
    hide Enabled, IdsInMap, IdsInCallback, Retries, Held;
  }

  lemma LogHere(l: Lane, id: nat)
    requires Yields(l, id)
    ensures id < |l.log| && l.log[id].deposit.Deposited?
  {}

  lemma FinishCauses(s: State, step: Step, kind: bool, id: nat, r: Reason)
    requires Relayer.Inv(s) && Enabled(s, step) && step.Finish?
    ensures CausesIff(s, step, kind, id, r)
  {
    hide Relayer.Inv, Finished, Causes, CausesIff;
    OneLane(s, step.hash);
    if kind == !Running(s.erc20, step.hash) {
      FinishCausesHere(s, step, kind, id, r);
    } else {
      FinishCausesNot(s, step, kind, id, r);
    }
  }

  lemma FinishCausesNot(s: State, step: Step, kind: bool, id: nat, r: Reason)
    requires Enabled(s, step) && step.Finish? && kind != !Running(s.erc20, step.hash)
    requires !Running(LaneOf(s, kind), step.hash)
    ensures CausesIff(s, step, kind, id, r)
  {
    hide Finished, Enabled, IdsInMap, IdsInCallback, Retries, LostFor, DroppedFor, Held;
  }

  lemma FinishCausesHere(s: State, step: Step, kind: bool, id: nat, r: Reason)
    requires Enabled(s, step) && step.Finish? && kind == !Running(s.erc20, step.hash)
    requires Running(LaneOf(s, kind), step.hash)
    ensures CausesIff(s, step, kind, id, r)
  {
    hide Finished, Enabled, IdsInMap, IdsInCallback, Retries, Causes, LostFor, DroppedFor, Held;
    var l := LaneOf(s, kind);
    var f := Ended(l.entries[step.hash], s.pairs, step.putOk, step.read, step.built);
    assert LaneNext(s, step, kind)
        == Finished(l, step.hash, s.pairs, step.putOk, step.read, step.built, step.next);
    FinishBecomes(l, step.hash, s.pairs, step.putOk, step.read, step.built, step.next);
    BecomesIff(l, LaneNext(s, step, kind), l.entries[step.hash].event.id, Some(f), id, r);
    CausesOfFinish(s, step, kind, id, r);
    hide LaneNext, Ended;
  }

  lemma CausesOfFinish(s: State, step: Step, kind: bool, id: nat, r: Reason)
    requires Enabled(s, step) && step.Finish? && Running(LaneOf(s, kind), step.hash)
    ensures var e := LaneOf(s, kind).entries[step.hash];
            Causes(s, step, kind, id, r) <==>
              e.event.id == id && Ended(e, s.pairs, step.putOk, step.read, step.built) == Lost(r)
  {
    hide Enabled, IdsInMap, IdsInCallback, Retries;
  }

  lemma SameLost(l: Lane, t: Lane, id: nat, r: Reason)
    requires SameFate(l, t, id)
    ensures LostFor(t, id, r) == LostFor(l, id, r) && DroppedFor(t, id, r) == DroppedFor(l, id, r)
  {}

  lemma OneReason(l: Lane, id: nat, q: Reason, r: Reason)
    requires LostFor(l, id, q)
    ensures (LostFor(l, id, r) <==> q == r) && (DroppedFor(l, id, r) <==> q == r)
  {}

  function PutOf(step: Step, kind: bool): bool
    requires step.Close?
  {
    if kind then step.putNFT else step.putERC20
  }

  lemma ClosesLane(s: State, step: Step, kind: bool)
    requires Enabled(s, step) && step.Close?
    ensures LaneNext(s, step, kind) == Lanes.Close(LaneOf(s, kind), PutOf(step, kind))
  {
    hide Enabled, Lanes.Close;
  }

  lemma CloseCauses(s: State, step: Step, kind: bool, id: nat, r: Reason)
    requires Relayer.Inv(s) && Enabled(s, step) && step.Close?
    ensures CausesIff(s, step, kind, id, r)
  {
    hide Relayer.Inv, Enabled, Causes, Turns, Unique, Lanes.Close, GivenUp, LostFor, DroppedFor, LaneNext, LaneOf;
    UniqueAlways(s, kind);
    ClosesLane(s, step, kind);
    CloseLoses(LaneOf(s, kind), PutOf(step, kind), id, r);
    CausesOfClose(s, step, kind, id, r);
  }

  lemma UniqueAlways(s: State, kind: bool)
    requires Relayer.Inv(s)
    ensures Unique(LaneOf(s, kind))
  {
    LaneCore(s, kind);
    hide Relayer.Inv, Core, Flight, Unique;
    UniqueOf(LaneOf(s, kind));
  }

  lemma CausesOfClose(s: State, step: Step, kind: bool, id: nat, r: Reason)
    requires Enabled(s, step) && step.Close? && Unique(LaneOf(s, kind))
    ensures var g := GivenUp(LaneOf(s, kind));
            && (Causes(s, step, kind, id, r) <==> id in g && g[id] == r)
            && (Turns(s, step, kind, id) <==> id in g)
  {
    GivenUpFor(LaneOf(s, kind), id);
    GivenUpReasons(LaneOf(s, kind), id);
    hide Enabled, GivenUp, IdsInMap, IdsInCallback, Held, Unique, LaneOf;
  }

  lemma GivenUpReasons(l: Lane, id: nat)
    ensures id in GivenUp(l) ==> GivenUp(l)[id] == ForcedClose || GivenUp(l)[id] == CallbackCut
  {}

  lemma CloseLoses(l: Lane, putOk: bool, id: nat, r: Reason)
    requires Unique(l)
    ensures var t, r' := Lanes.Close(l, putOk), GivenUp(l);
            if id in r' then (LostFor(t, id, r) <==> r'[id] == r) && (DroppedFor(t, id, r) <==> r'[id] == r)
            else LostFor(t, id, r) == LostFor(l, id, r) && DroppedFor(t, id, r) == DroppedFor(l, id, r)
    ensures id in GivenUp(l) <==> Held(l, id)
  {
    GivenUpFor(l, id);
    GivesUpAll(l, putOk, id);
    hide GivenUp, Held, Unique, Committed, LostFor, DroppedFor, SameFate;
    var t := Committed(l, putOk);
    DownHeld(t, id);
    SameLost(t, Down(t), id, r);
    if id in GivenUp(l) {
      OneReason(t, id, GivenUp(l)[id], r);
    } else {
      SameLost(l, t, id, r);
    }
  }

  lemma FilterCauses(s: State, step: Step, kind: bool, id: nat, r: Reason)
    requires Enabled(s, step) && step.FilterStops?
    ensures CausesIff(s, step, kind, id, r)
  {
    hide Lanes.FilterStops, Held, Get, LostFor, DroppedFor, SameFate;
    var l := LaneOf(s, kind);
    if step.kind == kind {
      Stopped(l);
      if id in l.fetch.value.pending {
        OneReason(Lanes.FilterStops(l), id, FilterFailed, r);
      } else {
        SameLost(l, Lanes.FilterStops(l), id, r);
      }
    }
  }

  lemma OtherFates(s: State, step: Step, kind: bool)
    requires Enabled(s, step) && !step.Handle? && !step.Finish? && !step.Close? && !step.FilterStops?
    ensures var l, t := LaneOf(s, kind), LaneNext(s, step, kind); t.fate == l.fate && t.dropped == l.dropped
  {
    hide NewLogs, BankLog, CallsBack, Fits, Yields, Get, MapEmpty;
  }

  lemma OtherCauses(s: State, step: Step, kind: bool, id: nat, r: Reason)
    requires Enabled(s, step) && !step.Handle? && !step.Finish? && !step.Close? && !step.FilterStops?
    ensures CausesIff(s, step, kind, id, r)
  {
    OtherFates(s, step, kind);
    hide Enabled, LaneNext, LaneOf;
  }

  lemma StepCauses(s: State, step: Step, kind: bool, id: nat, r: Reason)
    requires Relayer.Inv(s) && Enabled(s, step)
    ensures CausesIff(s, step, kind, id, r)
  {
    hide Relayer.Inv, Enabled, CausesIff;
    if step.Handle? {
      HandleCauses(s, step, kind, id, r);
    } else if step.Finish? {
      FinishCauses(s, step, kind, id, r);
    } else if step.Close? {
      CloseCauses(s, step, kind, id, r);
    } else if step.FilterStops? {
      FilterCauses(s, step, kind, id, r);
    } else {
      OtherCauses(s, step, kind, id, r);
    }
  }

  /**
   After a step a deposit stands as given up for a reason if and only if the step is that reason's cause, or it
   stood so before and the step does not get to it. And no step but the cause puts the reason on record.
   */
  lemma StepCausesIff(s: State, step: Step, kind: bool, id: nat, r: Reason)
    requires Relayer.Inv(s) && Enabled(s, step)
    ensures LostFor(LaneNext(s, step, kind), id, r) <==>
              Causes(s, step, kind, id, r) || (LostFor(LaneOf(s, kind), id, r) && !Turns(s, step, kind, id))
    ensures !DroppedFor(LaneOf(s, kind), id, r) ==>
              (DroppedFor(LaneNext(s, step, kind), id, r) <==> Causes(s, step, kind, id, r))
  {
    hide Relayer.Inv, Enabled, Causes, Turns, LaneNext;
    StepCauses(s, step, kind, id, r);
  }

  lemma LogAndStore(s: State, kind: bool)
    requires Relayer.Inv(s)
    ensures LogOk(LaneOf(s, kind), s.head) && StoredOk(LaneOf(s, kind))
  {
    LaneCore(s, kind);
    hide Relayer.Inv, Core, Flight, LogOk, StoredOk;
    CoreParts(LaneOf(s, kind), s.head);
  }

  ghost predicate Caused(run: seq<State>, steps: seq<Step>, j: nat, kind: bool, id: nat, r: Reason) {
    j < |steps| && j < |run| && Enabled(run[j], steps[j]) && Causes(run[j], steps[j], kind, id, r)
  }

  ghost predicate Turned(run: seq<State>, steps: seq<Step>, k: nat, kind: bool, id: nat) {
    k < |steps| && k < |run| && Enabled(run[k], steps[k]) && Turns(run[k], steps[k], kind, id)
  }

  /** Step `j` gave the deposit up for `r`, and no step from then to state `i` has got to it. */
  ghost predicate LastCaused(
    run: seq<State>, steps: seq<Step>, j: nat, i: nat, kind: bool, id: nat, r: Reason)
  {
    && j < i && Caused(run, steps, j, kind, id, r)
    && forall k :: j < k < i ==> !Turned(run, steps, k, kind, id)
  }

  /** Nothing is put on record as given up without its cause. */
  lemma {:induction false} EveryLossHasItsCause(run: seq<State>, steps: seq<Step>, i: nat, kind: bool, id: nat)
    returns (j: nat)
    requires IsRun(run, steps) && i < |run| && id in LaneOf(run[i], kind).dropped
    ensures j < i && Caused(run, steps, j, kind, id, LaneOf(run[i], kind).dropped[id])
  {
    hide Relayer.Inv, Enabled, Disciplined, Next, LaneNext, Causes, Turns, LostFor;
    assert i > 0;
    var r := LaneOf(run[i], kind).dropped[id];
    if DroppedFor(LaneOf(run[i - 1], kind), id, r) {
      j := EveryLossHasItsCause(run, steps, i - 1, kind, id);
    } else {
      j := i - 1;
      Always(run, steps, j);
      LaneNextIs(run[j], steps[j], kind);
      StepCausesIff(run[j], steps[j], kind, id, r);
    }
  }

  lemma {:induction false} LostSince(run: seq<State>, steps: seq<Step>, i: nat, kind: bool, id: nat, r: Reason)
    returns (j: nat)
    requires IsRun(run, steps) && i < |run| && LostFor(LaneOf(run[i], kind), id, r)
    ensures LastCaused(run, steps, j, i, kind, id, r)
  {
    hide Relayer.Inv, Enabled, Disciplined, Next, LaneNext, Causes, Turns;
    assert i > 0;
    hide LostFor;
    var k := i - 1;
    Always(run, steps, k);
    LaneNextIs(run[k], steps[k], kind);
    StepCausesIff(run[k], steps[k], kind, id, r);
    if Causes(run[k], steps[k], kind, id, r) {
      j := k;
    } else {
      j := LostSince(run, steps, k, kind, id, r);
    }
  }

  lemma {:induction false} StaysLost(
    run: seq<State>, steps: seq<Step>, j: nat, i: nat, kind: bool, id: nat, r: Reason)
    requires IsRun(run, steps) && i < |run| && LastCaused(run, steps, j, i, kind, id, r)
    ensures LostFor(LaneOf(run[i], kind), id, r)
  {
    hide Relayer.Inv, Enabled, Disciplined, Next, LaneNext, Causes, Turns, LostFor;
    var k := i - 1;
    Always(run, steps, k);
    LaneNextIs(run[k], steps[k], kind);
    StepCausesIff(run[k], steps[k], kind, id, r);
    if j < k {
      assert !Turned(run, steps, k, kind, id);
      StaysLost(run, steps, j, k, kind, id, r);
    }
  }

  /**
   Over any run: a deposit stands as given up for a reason exactly when a step was that reason's cause and none
   after it has got to the deposit, and the deposits that were ever given up are exactly those that met a cause.
   */
  lemma LossesAreCaused(run: seq<State>, steps: seq<Step>, i: nat, kind: bool, id: nat)
    requires IsRun(run, steps) && i < |run|
    ensures forall r ::
              LostFor(LaneOf(run[i], kind), id, r) <==> exists j :: LastCaused(run, steps, j, i, kind, id, r)
    ensures id in LaneOf(run[i], kind).dropped <==> exists j, r :: 0 <= j < i && Caused(run, steps, j, kind, id, r)
  {
    hide Relayer.Inv, Enabled, Disciplined, Next, LaneNext, Causes, LaneOf, LostFor, LastCaused;
    forall r
      ensures LostFor(LaneOf(run[i], kind), id, r) <==> exists j :: LastCaused(run, steps, j, i, kind, id, r)
    {
      if LostFor(LaneOf(run[i], kind), id, r) {
        var j := LostSince(run, steps, i, kind, id, r);
      }
      if j :| LastCaused(run, steps, j, i, kind, id, r) {
        StaysLost(run, steps, j, i, kind, id, r);
      }
    }
    if id in LaneOf(run[i], kind).dropped {
      var j := EveryLossHasItsCause(run, steps, i, kind, id);
    }
    forall j, r | 0 <= j < i && Caused(run, steps, j, kind, id, r)
      ensures id in LaneOf(run[i], kind).dropped
    {
      CauseDrops(run, steps, j, kind, id, r);
      NeverBack(run, steps, j + 1, i, kind);
    }
  }

  lemma CauseDrops(run: seq<State>, steps: seq<Step>, j: nat, kind: bool, id: nat, r: Reason)
    requires IsRun(run, steps) && Caused(run, steps, j, kind, id, r)
    ensures j + 1 < |run| && DroppedFor(LaneOf(run[j + 1], kind), id, r)
  {
    hide Relayer.Inv, Enabled, Disciplined, Next, LaneNext, Causes, Turns, LaneOf;
    Always(run, steps, j);
    StepCausesIff(run[j], steps[j], kind, id, r);
    LaneNextIs(run[j], steps[j], kind);
  }

  /** Nothing is in flight. */
  predicate AllDone(s: State) {
    s.erc20.entries == map[] && s.nft.entries == map[]
  }

  /** A step at which no filter stops short, pairs are read, records are written, and no close comes early. */
  ghost predicate Careful(s: State, step: Step) {
    match step
    case Handle(_, _, read, _) => read
    case FilterStops(kind) => LaneOf(s, kind).fetch.Some? ==> LaneOf(s, kind).fetch.value.pending == {}
    case Finish(_, putOk, read, _, _, _) => putOk && read
    case Close(_, _) => AllDone(s)
    case _ => true
  }

  lemma CarefulCauses(s: State, step: Step, kind: bool, id: nat, r: Reason)
    requires Enabled(s, step) && Careful(s, step) && Causes(s, step, kind, id, r)
    ensures r == PairNotFound || r == RetryNotSent
  {
    hide Get, Fits;
  }

  /**
   Where filters, reads of pairs, writes of records and closes go well, a deposit at or below the watermark
   has had a final status stored, or had no pair, or had a retry that could not be sent. Strictly below the
   watermark that is what it came to in the end.
   */
  lemma OnlyTwoReasons(run: seq<State>, steps: seq<Step>, i: nat, kind: bool, id: nat)
    requires IsRun(run, steps) && i < |run| && id < |LaneOf(run[i], kind).log|
    requires forall j :: 0 <= j < i ==> Careful(run[j], steps[j])
    requires LaneOf(run[i], kind).log[id].block <= LaneOf(run[i], kind).mark
    ensures Settled(LaneOf(run[i], kind), id)
         || DroppedFor(LaneOf(run[i], kind), id, PairNotFound) || DroppedFor(LaneOf(run[i], kind), id, RetryNotSent)
    ensures LaneOf(run[i], kind).log[id].block < LaneOf(run[i], kind).mark ==>
              || (KeptAt(LaneOf(run[i], kind), id) && Settled(LaneOf(run[i], kind), id))
              || LostFor(LaneOf(run[i], kind), id, PairNotFound) || LostFor(LaneOf(run[i], kind), id, RetryNotSent)
  {
    var l := LaneOf(run[i], kind);
    NoDepositForgotten(run, steps, i, kind, id);
    hide Settled, Careful, Causes, LaneOf, Enabled, Disciplined, Next, Init, Caused, Turned, IsRun;
    if id in l.dropped {
      var j := EveryLossHasItsCause(run, steps, i, kind, id);
      CausedWithCare(run, steps, i, j, kind, id, l.dropped[id]);
    }
    if l.log[id].block < l.mark && l.fate[id].Lost? {
      assert DroppedFor(l, id, l.fate[id].reason);
    }
  }

  predicate KeptAt(l: Lane, id: nat) {
    id in l.fate && l.fate[id].Kept?
  }

  lemma CausedWithCare(
    run: seq<State>, steps: seq<Step>, i: nat, j: nat, kind: bool, id: nat, r: Reason)
    requires j < i && Caused(run, steps, j, kind, id, r) && |run| == |steps| + 1 && i < |run|
    requires forall j :: 0 <= j < i ==> Careful(run[j], steps[j])
    ensures r == PairNotFound || r == RetryNotSent
  {
    hide Enabled, Careful, Causes;
    CarefulCauses(run[j], steps[j], kind, id, r);
  }

  /** Every token that has been deposited has a pair. */
  predicate Paired(l: Lane, pairs: map<bytes, bytes>) {
    forall i :: 0 <= i < |l.log| && l.log[i].deposit.Deposited? ==> l.log[i].deposit.token in pairs
  }

  /**
   A step at which nothing goes wrong in a way the code answers by giving a deposit up: careful, with a
   pair for every token, and with every retry's transaction built.
   */
  ghost predicate Clean(s: State, step: Step) {
    && Careful(s, step)
    && (step.Handle? ==> Paired(LaneOf(s, step.kind), s.pairs))
    && (step.Finish? ==> step.built && Paired(s.erc20, s.pairs) && Paired(s.nft, s.pairs))
  }

  lemma TokenOfRecord(l: Lane, pairs: map<bytes, bytes>, e: Msg)
    requires Paired(l, pairs) && e.id < |l.log| && l.log[e.id].deposit.Deposited?
    requires RecordOf(e, l.nft, l.log[e.id].deposit)
    ensures e.token in pairs
  {}

  /** In a clean step neither of the two remaining causes occurs. */
  lemma CleanCauses(s: State, step: Step, kind: bool, id: nat, r: Reason)
    requires Relayer.Inv(s) && Enabled(s, step) && Clean(s, step)
    ensures !Causes(s, step, kind, id, r)
  {
    if Again(s, step, kind, id) {
      EntryToken(s, kind, step.hash);
    }
    hide Relayer.Inv, Get, Fits;
  }

  lemma EntryToken(s: State, kind: bool, h: Hash)
    requires Relayer.Inv(s) && h in LaneOf(s, kind).entries && Paired(LaneOf(s, kind), s.pairs)
    ensures LaneOf(s, kind).entries[h].event.token in s.pairs
  {
    var l := LaneOf(s, kind);
    LaneCore(s, kind);
    EntryHere(l, h);
    hide Relayer.Inv, Core, Flight, Paired;
    TokenOfRecord(l, s.pairs, l.entries[h].event);
  }

  /**
   Over a run in which nothing of the kind goes wrong, crashes apart, every deposit at or below the watermark
   has an outcome in the store, and strictly below it that is the outcome of the last transaction sent for it.
   */
  lemma CleanRunSettlesAll(run: seq<State>, steps: seq<Step>, i: nat, kind: bool, id: nat)
    requires IsRun(run, steps) && i < |run| && id < |LaneOf(run[i], kind).log|
    requires forall j :: 0 <= j < i ==> Clean(run[j], steps[j])
    requires LaneOf(run[i], kind).log[id].block <= LaneOf(run[i], kind).mark
    ensures Settled(LaneOf(run[i], kind), id)
    ensures LaneOf(run[i], kind).log[id].block < LaneOf(run[i], kind).mark ==> KeptAt(LaneOf(run[i], kind), id)
  {
    NoDepositForgotten(run, steps, i, kind, id);
    hide Settled, Clean, Causes, LaneOf, Enabled, Disciplined, Next, Init, Relayer.Inv;
    if id in LaneOf(run[i], kind).dropped {
      var j := EveryLossHasItsCause(run, steps, i, kind, id);
      Always(run, steps, j);
      CleanCauses(run[j], steps[j], kind, id, LaneOf(run[i], kind).dropped[id]);
    }
  }

  // ---------------------------------------------------------------- nothing goes back

  lemma FinishedForward(
    l: Lane, head: nat, h: Hash, pairs: map<bytes, bytes>, putOk: bool, read: bool, built: bool, next: Hash)
    requires Sound(l, head) && Running(l, h)
    ensures Forward(l, Finished(l, h, pairs, putOk, read, built, next))
  {
    hide Sound, Lanes.Settle, Lanes.Resend, Forward;
    if l.entries[h].phase.verdict.Confirmed? {
      SettleForward(l, head, h, SUCCEEDED, putOk);
    } else if GivesUp(l.entries[h]) {
      SettleForward(l, head, h, FAILED, putOk);
    } else {
      ResendForward(l, h, pairs, read, built, next);
    }
  }

  lemma ForwardSame(l: Lane, t: Lane)
    requires t.nft == l.nft && l.log <= t.log && t.mark == l.mark && t.minted == l.minted && t.stored == l.stored
    requires l.dropped.Keys <= t.dropped.Keys
    ensures Forward(l, t)
  {}

  lemma FinishForward(s: State, kind: bool, h: Hash, putOk: bool, read: bool, built: bool, next: Hash)
    requires Relayer.Inv(s) && Running(LaneOf(s, kind), h)
    ensures Forward(LaneOf(s, kind), Finished(LaneOf(s, kind), h, s.pairs, putOk, read, built, next))
  {
    LaneSound(s, kind);
    hide Relayer.Inv, Lanes.Inv, Sound, Forward, Finished;
    FinishedForward(LaneOf(s, kind), s.head, h, s.pairs, putOk, read, built, next);
  }

  lemma PutForward(s: State, kind: bool, end: nat, putOk: bool)
    requires Relayer.Inv(s)
    ensures Forward(LaneOf(s, kind), Lanes.Tick(LaneOf(s, kind), end, putOk))
    ensures Forward(LaneOf(s, kind), Lanes.Close(LaneOf(s, kind), putOk))
  {
    LaneCore(s, kind);
    CoreParts(LaneOf(s, kind), s.head);
    hide Relayer.Inv, Core, Forward;
    TickForward(LaneOf(s, kind), s.head, end, putOk);
  }

  lemma StepForward(s: State, step: Step, kind: bool)
    requires Relayer.Inv(s) && Enabled(s, step)
    ensures Forward(LaneOf(s, kind), LaneNext(s, step, kind))
  {
    var l := LaneOf(s, kind);
    hide Relayer.Inv, Forward, Get, Finished, Lanes.Handle, NewLogs, BankLog, CallsBack, Lanes.Tick, Lanes.Close;
    ForwardSame(l, l);
    match step
    case Tick(_, end, putOk) => PutForward(s, kind, end, putOk);
    case Close(a, b) => PutForward(s, kind, 0, if kind then b else a);
    case Handle(k, id, read, h) =>
      if k == kind {
        HandleForward(l, id, s.pairs, read, h);
      }
    case Finish(h, putOk, read, built, _, next) =>
      if kind == !Running(s.erc20, h) {
        FinishForward(s, kind, h, putOk, read, built, next);
      }
    case _ => ForwardSame(l, LaneNext(s, step, kind));
  }

  /**
   From any state of a run to any later one, across restarts: the watermark does not fall, a record stored
   as SUCCEEDED is never overwritten, no stored retry count falls, and the handled confirmations and the
   chain only grow.
   */
  lemma {:induction false} NeverBack(run: seq<State>, steps: seq<Step>, i: nat, j: nat, kind: bool)
    requires IsRun(run, steps) && i <= j < |run|
    ensures Forward(LaneOf(run[i], kind), LaneOf(run[j], kind))
    decreases j
  {
    hide Relayer.Inv, Enabled, Disciplined, Next, LaneNext, Init, Forward;
    if i == j {
      ForwardSame(LaneOf(run[i], kind), LaneOf(run[i], kind));
    } else {
      NeverBack(run, steps, i, j - 1, kind);
      Always(run, steps, j - 1);
      StepForward(run[j - 1], steps[j - 1], kind);
      LaneNextIs(run[j - 1], steps[j - 1], kind);
      ForwardChains(LaneOf(run[i], kind), LaneOf(run[j - 1], kind), LaneOf(run[j], kind));
    }
  }

  // ---------------------------------------------------------------- one transaction at a time

  /**
   In every state of every run: a deposit has at most one transaction in flight, none when it is stored
   as SUCCEEDED, and at most four were sent for it since a fetch of its block last began.
   */
  lemma OneInFlight(run: seq<State>, steps: seq<Step>, i: nat, kind: bool, g: Hash, h: Hash)
    requires IsRun(run, steps) && i < |run|
    requires g in LaneOf(run[i], kind).entries && h in LaneOf(run[i], kind).entries
    ensures var l := LaneOf(run[i], kind); var id := l.entries[h].event.id;
            && (l.entries[g].event.id == id ==> g == h)
            && (id in l.stored ==> l.stored[id].status == FAILED)
            && l.entries[h].event.retry <= 3 && id in l.sends && l.sends[id] <= 4
  {
    Always(run, steps, i);
    LaneCore(run[i], kind);
    var l := LaneOf(run[i], kind);
    hide Relayer.Inv, IsRun, Core, Flight, LaneOf, RecordOf, MintTx;
    CoreParts(l, run[i].head);
    EntryHere(l, h);
  }

  /**
   Over a run with any number of restarts, the confirmations handled to the end are of distinct deposits,
   and they are the deposits that are stored as SUCCEEDED.
   */
  lemma HandledOnce(run: seq<State>, steps: seq<Step>, i: nat, kind: bool)
    requires IsRun(run, steps) && i < |run|
    ensures MintedOk(LaneOf(run[i], kind))
    ensures forall id :: MintedAt(LaneOf(run[i], kind), id) <==>
              id in LaneOf(run[i], kind).stored && LaneOf(run[i], kind).stored[id].status == SUCCEEDED
  {
    Always(run, steps, i);
    LaneCore(run[i], kind);
    hide Relayer.Inv, IsRun, Core, Flight, LaneOf, MintTx;
    CoreParts(LaneOf(run[i], kind), run[i].head);
  }

  /** No stored record has been retried more than three times, and no fetch sends a deposit more than four times. */
  lemma RetriesBounded(run: seq<State>, steps: seq<Step>, i: nat, kind: bool, id: nat)
    requires IsRun(run, steps) && i < |run|
    ensures var l := LaneOf(run[i], kind);
            (id in l.stored ==> l.stored[id].retry <= 3) && (id in l.sends ==> l.sends[id] <= 4)
  {
    Always(run, steps, i);
    LaneCore(run[i], kind);
    hide Relayer.Inv, IsRun, Core, Flight, LaneOf, RecordOf;
    CoreParts(LaneOf(run[i], kind), run[i].head);
  }

  /**
   In every state of every run, a hash the confirmer has not called back for is in exactly one of the
   two event maps, and no transaction about to be sent has a hash that is in either: a callback finds
   its event, and an entry is never overwritten.
   */
  lemma RegisteredOnce(run: seq<State>, steps: seq<Step>, i: nat, h: Hash)
    requires IsRun(run, steps) && i < |run|
    ensures h in run[i].outstanding ==> (InERC20(run[i], h) <==> !InNFT(run[i], h))
    ensures h !in run[i].used ==> h !in run[i].erc20.entries && h !in run[i].nft.entries
  {
    Always(run, steps, i);
    LaneParts(run[i], false);
    hide Relayer.Inv, IsRun, Lanes.Inv;
    if h in run[i].outstanding {
      assert InERC20(run[i], h) || InNFT(run[i], h);
    }
  }

  // ---------------------------------------------------------------- ranges

  /** A step before `i` began a fetch of this kind, with block `b` in its range. */
  ghost predicate Fetched(run: seq<State>, steps: seq<Step>, i: nat, kind: bool, b: nat) {
    exists j :: 0 <= j < i && j < |steps| && j < |run| && Begins(run[j], steps[j], kind, b)
  }

  predicate Begins(s: State, step: Step, kind: bool, b: nat) {
    && step.Tick? && step.kind == kind && MapEmpty(LaneOf(s, kind)) && LaneOf(s, kind).confirmed <= b <= step.end
  }

  lemma ReachOnlyByTick(s: State, step: Step, kind: bool)
    requires Relayer.Inv(s) && Enabled(s, step)
    ensures Reach(LaneNext(s, step, kind)) <= Reach(LaneOf(s, kind))
         || (step.Tick? && Begins(s, step, kind, step.end) && Reach(LaneNext(s, step, kind)) == step.end)
  {
    var l := LaneOf(s, kind);
    hide Relayer.Inv, Get, Finished, Lanes.Handle, NewLogs, BankLog, CallsBack, Lanes.FilterStops, Lanes.Close;
    MarksOf(s, kind);
    match step
    case Handle(k, id, read, h) =>
      if k == kind {
        HandleFrame(l, id, s.pairs, read, h);
      }
    case Finish(h, putOk, read, built, _, next) =>
      if kind == !Running(s.erc20, h) {
        FinishedReach(l, h, s.pairs, putOk, read, built, next);
      }
    case FilterStops(_) => StopReach(l);
    case Close(a, b) => StopReach(l);
    case _ =>
  }

  lemma MarksOf(s: State, kind: bool)
    requires Relayer.Inv(s)
    ensures LaneOf(s, kind).mark <= LaneOf(s, kind).confirmed <= Reach(LaneOf(s, kind))
  {
    LaneCore(s, kind);
    hide Relayer.Inv, Core, Flight;
    CoreParts(LaneOf(s, kind), s.head);
  }

  lemma StopReach(l: Lane)
    requires l.mark <= l.confirmed <= Reach(l)
    ensures l.fetch.Some? ==> Reach(Lanes.FilterStops(l)) == Reach(l)
    ensures Reach(Lanes.Close(l, true)) <= Reach(l) && Reach(Lanes.Close(l, false)) <= Reach(l)
  {}

  lemma FinishedReach(l: Lane, h: Hash, pairs: map<bytes, bytes>, putOk: bool, read: bool, built: bool, next: Hash)
    requires Running(l, h)
    ensures Reach(Finished(l, h, pairs, putOk, read, built, next)) == Reach(l)
  {
    FinishedMark(l, h, pairs, putOk, read, built, next);
    FinishedFrame(l, h, pairs, putOk, read, built, next);
    hide Finished;
  }

  /**
   The fetch ranges leave no gap: every block up to what a state has reached, and so up to where its next
   fetch starts and up to the watermark, was in the range of a fetch that began.
   */
  lemma {:induction false} RangesMeet(run: seq<State>, steps: seq<Step>, i: nat, kind: bool, b: nat)
    requires IsRun(run, steps) && i < |run| && 0 < b <= Reach(LaneOf(run[i], kind))
    ensures Fetched(run, steps, i, kind, b)
  {
    hide Relayer.Inv, Enabled, Disciplined, Next, LaneNext, Reach;
    assert i > 0 by {
      NothingReached(run[0], kind);
    }
    var was := run[i - 1];
    Always(run, steps, i - 1);
    ReachOnlyByTick(was, steps[i - 1], kind);
    LaneNextIs(was, steps[i - 1], kind);
    MarksOf(was, kind);
    if b <= Reach(LaneOf(was, kind)) {
      RangesMeet(run, steps, i - 1, kind, b);
    } else {
      assert Begins(was, steps[i - 1], kind, b);
    }
  }

  lemma NothingReached(s: State, kind: bool)
    requires Init(s)
    ensures Reach(LaneOf(s, kind)) == 0
  {}

  // ---------------------------------------------------------------- a map that never empties

  lemma FinishedMark(l: Lane, h: Hash, pairs: map<bytes, bytes>, putOk: bool, read: bool, built: bool, next: Hash)
    requires Running(l, h)
    ensures var t := Finished(l, h, pairs, putOk, read, built, next); t.mark == l.mark && t.confirmed == l.confirmed
  {
    hide MintTx;
  }

  lemma StuckApart(s: State, h: Hash)
    requires Relayer.Inv(s) && h in s.stuck
    ensures h in s.used && h !in s.outstanding
    ensures forall g :: g in s.outstanding ==> g !in s.stuck
  {
    LaneParts(s, false);
    hide Relayer.Inv, Lanes.Inv;
    assert InERC20(s, h) || InNFT(s, h);
  }

  /** A transaction that the queue refused is `stuck`, and the entry stays while the process does. */
  predicate Stuck(s: State, kind: bool, h: Hash) {
    h in s.stuck && InMapOf(LaneOf(s, kind), h)
  }

  lemma StuckHandle(s: State, kind: bool, id: nat, read: bool, g: Hash, h: Hash)
    requires Yields(LaneOf(s, kind), id) && InMapOf(LaneOf(s, kind), h)
    ensures var t := Lanes.Handle(LaneOf(s, kind), id, s.pairs, read, g);
            InMapOf(t, h) && t.mark == LaneOf(s, kind).mark
  {
    hide Get, Lanes.Handle;
    HandleMaps(LaneOf(s, kind), id, s.pairs, read, g, h);
    HandleFrame(LaneOf(s, kind), id, s.pairs, read, g);
  }

  lemma StuckFinish(s: State, kind: bool, g: Hash, putOk: bool, read: bool, built: bool, next: Hash, h: Hash)
    requires Relayer.Inv(s) && Running(LaneOf(s, kind), g) && next !in s.used && InMapOf(LaneOf(s, kind), h)
    ensures var t := Finished(LaneOf(s, kind), g, s.pairs, putOk, read, built, next);
            InMapOf(t, h) && t.mark == LaneOf(s, kind).mark
  {
    LaneParts(s, kind);
    NotUsed(s, kind, next);
    hide Relayer.Inv, Lanes.Inv, Registered, Finished;
    FinishedMaps(LaneOf(s, kind), g, s.pairs, putOk, read, built, next, h);
    FinishedMark(LaneOf(s, kind), g, s.pairs, putOk, read, built, next);
  }

  lemma StuckLane(s: State, step: Step, kind: bool, h: Hash)
    requires Relayer.Inv(s) && Enabled(s, step) && Stuck(s, kind, h) && !step.Close? && !step.Crash?
    ensures InMapOf(LaneNext(s, step, kind), h) && LaneNext(s, step, kind).mark == LaneOf(s, kind).mark
  {
    hide Relayer.Inv, Get, Finished, Lanes.Handle, NewLogs, BankLog, CallsBack, Yields, Fits;
    match step
    case Handle(k, id, read, g) =>
      if k == kind {
        StuckHandle(s, kind, id, read, g, h);
      }
    case Finish(g, putOk, read, built, _, next) =>
      if kind == !Running(s.erc20, g) {
        StuckFinish(s, kind, g, putOk, read, built, next, h);
      }
    case Callback(_, _) => StuckApart(s, h);
    case _ =>
  }

  lemma StuckSet(s: State, step: Step, h: Hash)
    requires Enabled(s, step) && h in s.stuck && !step.Close? && !step.Crash?
    ensures h in Next(s, step).stuck
  {
    hide Lanes.Mine, Lanes.Tick, Lanes.Handle, Lanes.FilterStops, Lanes.EndFetch, Lanes.Begin;
    hide Finished, Bank.RunAll, NewLogs, BankLog, Sends, Resent, Get;
  }

  /**
   From a state in which the queue has refused an entry of a kind, and until the process ends, the event map
   of the kind never empties, and its watermark does not move.
   */
  lemma {:induction false} StuckForever(run: seq<State>, steps: seq<Step>, i: nat, j: nat, kind: bool, h: Hash)
    requires IsRun(run, steps) && i <= j < |run| && Stuck(run[i], kind, h)
    requires forall k :: i <= k < j ==> !steps[k].Close? && !steps[k].Crash?
    ensures Stuck(run[j], kind, h) && !MapEmpty(LaneOf(run[j], kind))
    ensures LaneOf(run[j], kind).mark == LaneOf(run[i], kind).mark
    decreases j
  {
    hide Relayer.Inv, Enabled, Disciplined, Next, LaneNext, Init;
    if i < j {
      StuckForever(run, steps, i, j - 1, kind, h);
      Always(run, steps, j - 1);
      StuckLane(run[j - 1], steps[j - 1], kind, h);
      StuckSet(run[j - 1], steps[j - 1], h);
      LaneNextIs(run[j - 1], steps[j - 1], kind);
    }
  }

  // ---------------------------------------------------------------- stretches of a run

  /** `steps` lead from `s` to `t`. */
  ghost predicate Goes(s: State, steps: seq<Step>, t: State)
    decreases |steps|
  {
    if steps == [] then s == t
    else Enabled(s, steps[0]) && Disciplined(s, steps[0]) && Goes(Next(s, steps[0]), steps[1..], t)
  }

  lemma {:induction false} GoesAppend(s: State, a: seq<Step>, t: State, b: seq<Step>, u: State)
    requires Goes(s, a, t) && Goes(t, b, u)
    ensures Goes(s, a + b, u)
    decreases |a|
  {
    hide Enabled, Disciplined, Next;
    if a == [] {
      assert a + b == b;
    } else {
      GoesAppend(Next(s, a[0]), a[1..], t, b, u);
      assert (a + b)[1..] == a[1..] + b;
    }
  }

  lemma GoesOne(s: State, step: Step)
    requires Enabled(s, step) && Disciplined(s, step)
    ensures Goes(s, [step], Next(s, step))
  {
    hide Enabled, Disciplined, Next;
    assert [step][1..] == [];
    assert Goes(Next(s, step), [], Next(s, step));
  }

  lemma OneGone(s: State, step: Step, t: State)
    requires Goes(s, [step], t)
    ensures Enabled(s, step) && Disciplined(s, step) && t == Next(s, step)
  {
    hide Enabled, Disciplined, Next;
    assert [step][1..] == [];
  }

  lemma NoneGone(s: State)
    ensures Goes(s, [], s)
  {}

  /** Steps lead to one state. */
  lemma {:induction false} GoesTo(s: State, steps: seq<Step>, t: State, u: State)
    requires Goes(s, steps, t) && Goes(s, steps, u)
    ensures t == u
    decreases |steps|
  {
    hide Enabled, Disciplined, Next;
    if steps != [] {
      GoesTo(Next(s, steps[0]), steps[1..], t, u);
    }
  }

  /** A run goes on with any stretch that starts where it ends. */
  lemma {:induction false} GoesOn(run: seq<State>, steps: seq<Step>, more: seq<Step>, t: State)
    returns (run': seq<State>, steps': seq<Step>)
    requires IsRun(run, steps) && Goes(run[|run| - 1], more, t)
    ensures IsRun(run', steps') && run <= run' && run'[|run'| - 1] == t && steps' == steps + more
    decreases |more|
  {
    hide Enabled, Disciplined, Next, Init;
    if more == [] {
      run', steps' := run, steps;
    } else {
      var r, p := Extend(run, steps, more[0]);
      run', steps' := GoesOn(r, p, more[1..], t);
      assert [more[0]] + more[1..] == more;
    }
  }

  /** Stretches one after the other, from a fresh chain on, are a run. */
  lemma FromFresh(s: State, steps: seq<Step>, t: State) returns (run: seq<State>)
    requires Init(s) && Goes(s, steps, t)
    ensures IsRun(run, steps) && run[|run| - 1] == t
  {
    hide Init, Goes;
    var all;
    run, all := GoesOn([s], [], steps, t);
    assert [] + steps == steps;
  }
}
