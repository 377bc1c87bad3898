/**
 The main loop: the rotator that gives each kind its turn, and a turn, which writes the watermark and
 fetches the logs past it unless the event map still holds something.
 */
module Serve {
  import opened Bytes
  import opened Bridge
  import opened Lanes
  import opened Process
  import opened Relayer
  import opened Store
  import Runs

  // ---------------------------------------------------------------- the rotator

  /** The slot of the NFT arm; slot 1 is the ERC20 one. */
  const SLOT_NFT := 2

  function Rotated(size: nat, slot: nat): nat {
    if size < slot + 1 then 1 else slot + 1
  }

  /** The slot after `n` turns. */
  function Slot(size: nat, slot: nat, n: nat): nat {
    if n == 0 then slot else Rotated(size, Slot(size, slot, n - 1))
  }

  /** Every slot comes round, and none twice in one round. */
  lemma {:induction false} SlotsInTurn(size: nat, slot: nat, n: nat)
    requires 1 <= slot <= size && n <= size
    ensures Slot(size, slot, n) == if slot + n <= size then slot + n else slot + n - size
    decreases n
  {
    if n > 0 {
      SlotsInTurn(size, slot, n - 1);
    }
  }

  predicate IsNFT(slot: nat) {
    slot == SLOT_NFT
  }

  /** From slot 1 on, the first turn is the NFT arm's, and the arms take turns. */
  lemma {:induction false} TurnsAlternate(n: nat)
    ensures Slot(2, 1, n) == 1 + n % 2
    ensures n > 0 ==> (IsNFT(Slot(2, 1, n)) <==> n % 2 == 1)
  {
    if n > 0 {
      TurnsAlternate(n - 1);
    }
  }

  class Rotator {
    const size: nat
    var slot: nat

    constructor (size: nat)
      ensures this.size == size && slot == 1
    {
      this.size, slot := size, 1;
    }

    method Rotate() returns (r: nat)
      modifies this`slot
      ensures r == slot == Rotated(size, old(slot))
    {
      slot := slot + 1;
      if size < slot {
        slot := 1;
      }
      return slot;
    }
  }

  // ---------------------------------------------------------------- a turn

  function TurnSteps(nft: bool, end: nat, putOk: bool, hs: seq<Happening>): (steps: seq<Step>)
    ensures |steps| == |hs| + 3
  {
    [Step.Tick(nft, end, putOk)] + (StepsOf(nft, hs) + [Step.FilterStops(nft)]) + [Step.EndFetch(nft)]
  }

  lemma WholeTurn(s: State, a: Step, t: State, b: seq<Step>, u: State, c: Step, v: State)
    requires Runs.Goes(s, [a], t) && Runs.Goes(t, b, u) && Runs.Goes(u, [c], v)
    ensures Runs.Goes(s, [a] + b + [c], v)
  {
    hide Runs.Goes;
    Runs.GoesAppend(s, [a], t, b, u);
    Runs.GoesAppend(s, [a] + b, u, [c], v);
  }

  /** A turn that fails at happening `k` has taken the steps before it. */
  lemma BrokenTurn(s: State, t: State, u: State, nft: bool, end: nat, putOk: bool, hs: seq<Happening>, k: nat)
    requires k <= |hs| && Runs.Goes(s, [Step.Tick(nft, end, putOk)], t) && Runs.Goes(t, StepsOf(nft, hs)[..k], u)
    ensures Runs.Goes(s, TurnSteps(nft, end, putOk, hs)[..k + 1], u)
  {
    hide Runs.Goes, StepsOf;
    Runs.GoesAppend(s, [Step.Tick(nft, end, putOk)], t, StepsOf(nft, hs)[..k], u);
    assert TurnSteps(nft, end, putOk, hs)[..k + 1] == [Step.Tick(nft, end, putOk)] + StepsOf(nft, hs)[..k];
  }

  /** The watermark is written, and a fetch begins. */
  method Begin(b: Bridge, nft: bool, ghost end: nat, putOk: bool)
    requires b.Valid() && Idle(b.st) && !b.Busy(nft) && LaneOf(b.st, nft).confirmed <= end <= b.st.head
    requires TickSafe(LaneOf(b.st, nft), putOk)
    modifies b`st, b.db
    ensures b.Valid() && Fetching(b.st, nft, end) && Runs.Goes(old(b.st), [Step.Tick(nft, end, putOk)], b.st)
    ensures b.Objects() == old(b.Objects())
  {
    hide Holds, Runs.Goes, Fetching, TickSafe, Idle, LaneOf, Find, ModelsERC20, ModelsNFT;
    b.BusyKeys(nft);
    ghost var s, kv, m := b.st, b.db.kv, b.Mem();
    b.PutBlock(nft, putOk);
    ghost var t := TickTarget(s, kv, b.db.kv, m, nft, end, putOk);
    b.Become(t);
  }

  /** The fetch has ended, and its last block is the confirmed one. */
  method End(b: Bridge, nft: bool, end: uint64)
    requires b.Valid() && Fetched(b.st, nft, end)
    modifies b`st, b`confirmedBlockERC20, b`confirmedBlockNFT
    ensures b.Valid() && Idle(b.st) && Runs.Goes(old(b.st), [Step.EndFetch(nft)], b.st)
    ensures b.Objects() == old(b.Objects())
  {
    hide Holds, Runs.Goes, Fetched, Idle, LaneOf, ModelsERC20, ModelsNFT;
    ghost var t := EndTarget(b.st, b.db.kv, b.Mem(), nft, end);
    if nft {
      b.confirmedBlockNFT := end;
    } else {
      b.confirmedBlockERC20 := end;
    }
    b.Become(t);
  }

  /** What the loop needs of a turn: a safe tick, and a range and happenings that can be. */
  predicate Ready(s: State, kind: bool, latest: Option<uint64>, putOk: bool, hs: seq<Happening>) {
    && TickSafe(LaneOf(s, kind), putOk)
    && (latest.Some? ==>
          && Enabled(s, Step.Tick(kind, latest.value, putOk))
          && Plausible(Next(s, Step.Tick(kind, latest.value, putOk)), kind, hs))
  }

  /** Where the first log is that fails a turn, or the number of all that happens if there is none. */
  function Fails(s: State, kind: bool, end: nat, putOk: bool, hs: seq<Happening>): (k: nat)
    requires Enabled(s, Step.Tick(kind, end, putOk))
    requires Plausible(Next(s, Step.Tick(kind, end, putOk)), kind, hs)
    ensures k <= |hs|
  {
    FirstBlocked(Next(s, Step.Tick(kind, end, putOk)), kind, hs)
  }

  lemma ReadyNow(s: State, kind: bool, latest: Option<uint64>, putOk: bool, hs: seq<Happening>, t: State)
    requires Ready(s, kind, latest, putOk, hs) && latest.Some?
    requires Runs.Goes(s, [Step.Tick(kind, latest.value, putOk)], t)
    ensures Plausible(t, kind, hs) && FirstBlocked(t, kind, hs) == Fails(s, kind, latest.value, putOk, hs)
  {
    hide Next, Enabled, Disciplined, Plausible;
    Runs.OneGone(s, Step.Tick(kind, latest.value, putOk), t);
  }

  lemma ReadyRange(s: State, kind: bool, latest: Option<uint64>, putOk: bool, hs: seq<Happening>)
    requires Ready(s, kind, latest, putOk, hs)
    ensures TickSafe(LaneOf(s, kind), putOk)
    ensures latest.Some? ==> LaneOf(s, kind).confirmed <= latest.value <= s.head
  {
    hide TickSafe;
  }

  lemma InChain(s: State, kind: bool)
    requires Relayer.Inv(s)
    ensures LaneOf(s, kind).confirmed <= s.head
  {
    Runs.LaneCore(s, kind);
    hide Relayer.Inv, Core, Flight;
    Runs.CoreParts(LaneOf(s, kind), s.head);
  }

  /** The latest block could not be read: the watermark is written, and no more. */
  lemma NoRange(s: State, m: Memory, nft: bool)
    requires Remembers(s, m) && m.erc20.confirmed < TWO_64 && m.nft.confirmed < TWO_64
    ensures LaneOf(s, nft).confirmed < TWO_64 && LaneOf(s, nft).confirmed <= s.head
  {
    InChain(s, nft);
    hide Relayer.Inv;
  }

  /** An arm with its range known. */
  method Cover(b: Bridge, nft: bool, end: uint64, putOk: bool, hs: seq<Happening>)
    returns (ok: bool, ghost steps: seq<Step>)
    requires b.Valid() && Idle(b.st) && !b.Busy(nft) && Ready(b.st, nft, Some(end), putOk, hs)
    modifies b, b.db, b.Objects()
    ensures b.Persists() && Runs.Goes(old(b.st), steps, b.st)
    ensures forall o :: o in b.Objects() ==> o in old(b.Objects()) || fresh(o)
    ensures ok ==> b.Valid() && Idle(b.st) && steps == TurnSteps(nft, end, putOk, hs)
    ensures ok <==> Fails(old(b.st), nft, end, putOk, hs) == |hs|
    ensures !ok ==> steps == TurnSteps(nft, end, putOk, hs)[..Fails(old(b.st), nft, end, putOk, hs) + 1]
  {
    hide Holds, Runs.Goes, Fetching, Fetched, StepsOf, Idle, LaneOf, Ready, TickSafe, Plausible, TurnSteps;
    hide Bridge.Objects, Bridge.Persists, Bridge.Mem, Bridge.Valid;
    ghost var s := b.st;
    ReadyRange(s, nft, Some(end), putOk, hs);
    Begin(b, nft, end, putOk);
    ghost var t := b.st;
    ReadyNow(s, nft, Some(end), putOk, hs, t);
    ghost var objects := b.Objects();
    label L:
    ok := b.Fetch(nft, hs, end);
    ghost var u := b.st;
    forall o | o in b.Objects() && o !in old(b.Objects())
      ensures fresh(o)
    {
      assert o in b.Objects() - objects && fresh@L(o);
    }
    steps := TurnSteps(nft, end, putOk, hs);
    if !ok {
      ghost var k := FirstBlocked(t, nft, hs);
      BrokenTurn(s, t, u, nft, end, putOk, hs, k);
      steps := steps[..k + 1];
      return;
    }
    End(b, nft, end);
    forall o | o in b.Objects() && o !in old(b.Objects())
      ensures fresh(o)
    {
      assert o in b.Objects() - objects && fresh@L(o);
    }
    b.ValidPersists();
    WholeTurn(s, Step.Tick(nft, end, putOk), t, StepsOf(nft, hs) + [Step.FilterStops(nft)], u, Step.EndFetch(nft),
              b.st);
    TurnIs(nft, end, putOk, hs);
  }

  /** An arm whose latest block cannot be read. */
  method Miss(b: Bridge, nft: bool, putOk: bool) returns (ghost steps: seq<Step>)
    requires b.Valid() && Idle(b.st) && !b.Busy(nft) && TickSafe(LaneOf(b.st, nft), putOk)
    modifies b`st, b.db
    ensures b.Persists() && Runs.Goes(old(b.st), steps, b.st)
    ensures steps == [Step.Tick(nft, LaneOf(old(b.st), nft).confirmed, putOk)]
  {
    hide Runs.Goes, Fetching, Idle, TickSafe, Relayer.Inv, Tracks, Stores, ModelsERC20, ModelsNFT;
    NoRange(b.st, b.Mem(), nft);
    ghost var end := LaneOf(b.st, nft).confirmed;
    Begin(b, nft, end, putOk);
    b.ValidPersists();
    steps := [Step.Tick(nft, end, putOk)];
  }

  /**
   One arm of the loop: nothing while the map holds anything, else the watermark, the latest block and a
   fetch. An error, in reading that block or in sending, ends the process.
   */
  method Turn(b: Bridge, nft: bool, latest: Option<uint64>, putOk: bool, hs: seq<Happening>)
    returns (ok: bool, ghost steps: seq<Step>)
    requires b.Valid() && Idle(b.st) && (!b.Busy(nft) ==> Ready(b.st, nft, latest, putOk, hs))
    modifies b, b.db, b.Objects()
    ensures b.Persists() && Runs.Goes(old(b.st), steps, b.st)
    ensures forall o :: o in b.Objects() ==> o in old(b.Objects()) || fresh(o)
    ensures old(b.Busy(nft)) ==> ok && b.st == old(b.st) && steps == []
    ensures ok ==> b.Valid() && Idle(b.st)
    ensures !old(b.Busy(nft)) ==>
              if latest.None? then !ok && steps == [Step.Tick(nft, LaneOf(old(b.st), nft).confirmed, putOk)]
              else
                var all, k := TurnSteps(nft, latest.value, putOk, hs), Fails(old(b.st), nft, latest.value, putOk, hs);
                (ok <==> k == |hs|) && steps == if ok then all else all[..k + 1]
  {
    hide Holds, Runs.Goes, Idle, LaneOf, Ready, TickSafe, TurnSteps;
    hide Bridge.Persists, Bridge.Mem, Bridge.Valid;
    Runs.NoneGone(b.st);
    b.ValidPersists();
    if b.Busy(nft) {
      return true, [];
    }
    ReadyRange(b.st, nft, latest, putOk, hs);
    if latest.None? {
      ok := false;
      steps := Miss(b, nft, putOk);
    } else {
      ok, steps := Cover(b, nft, latest.value, putOk, hs);
    }
  }

  lemma TurnIs(nft: bool, end: nat, putOk: bool, hs: seq<Happening>)
    ensures TurnSteps(nft, end, putOk, hs)
         == [Step.Tick(nft, end, putOk)] + (StepsOf(nft, hs) + [Step.FilterStops(nft)]) + [Step.EndFetch(nft)]
  {}

  // ---------------------------------------------------------------- the loop

  /**
   What comes next: a tick of the timer, with the latest block and all that happens until its arm is done,
   half a callback or a block between two ticks, or the signal to shut down, with all that happens after it.
   */
  datatype Input =
    | Timer(latest: Option<uint64>, putOk: bool, hs: seq<Happening>)
    | Happens(happening: Happening)
    | Signal(rounds: seq<seq<Happening>>, put20: bool, putNFT: bool)

  const RETRY_LIMIT: nat := 3

  /**
   The assumptions on chain, filter, confirmer and scheduling, for all that is still to come. The timer's next turn
   is that of kind `nft`.
   */
  ghost predicate Admissible(s: State, nft: bool, ins: seq<Input>)
    decreases |ins|
  {
    ins == [] ||
    match ins[0]
    case Timer(latest, putOk, hs) =>
      if !MapEmpty(LaneOf(s, nft)) then Admissible(s, !nft, ins[1..])
      else
        && Ready(s, nft, latest, putOk, hs)
        && (latest.Some? ==>
              forall t :: Runs.Goes(s, TurnSteps(nft, latest.value, putOk, hs), t) ==> Admissible(t, !nft, ins[1..]))
    case Happens(a) =>
      && Plausible(s, false, [a])
      && forall t :: Runs.Goes(s, [StepOf(false, a)], t) ==> Admissible(t, nft, ins[1..])
    case Signal(rounds, _, _) => |rounds| > RETRY_LIMIT && Plausible(s, false, Flat(rounds))
  }

  // ---------------------------------------------------------------- what the process does

  /**
   The steps that an input brings about. A tick of the timer: none over a map that holds something, else the
   watermark, the fetch and its end, or as far as the latest block can be read and the logs sent, and then the
   process dies. Half a callback or a block: that. The signal: up to four rounds of waiting, and a close that
   writes both watermarks.
   */
  ghost predicate Answers(s: State, nft: bool, input: Input, steps: seq<Step>) {
    match input
    case Timer(latest, putOk, hs) =>
      if !MapEmpty(LaneOf(s, nft)) then steps == []
      else if latest.None? then steps == [Step.Tick(nft, LaneOf(s, nft).confirmed, putOk), Crash]
      else
        && Ready(s, nft, latest, putOk, hs)
        && var all, k := TurnSteps(nft, latest.value, putOk, hs), Fails(s, nft, latest.value, putOk, hs);
           steps == if k == |hs| then all else all[..k + 1] + [Crash]
    case Happens(a) => steps == [StepOf(false, a)]
    case Signal(rounds, put20, putNFT) =>
      exists k, mid :: Waited(s, rounds, 3, k, mid) && steps == RoundsOf(rounds, k) + [Step.Close(put20, putNFT)]
  }

  /** The input is the last one: the signal, or a turn that fails. */
  ghost predicate Ends(s: State, nft: bool, input: Input) {
    match input
    case Timer(latest, putOk, hs) =>
      && MapEmpty(LaneOf(s, nft))
      && (latest.None? || (Ready(s, nft, latest, putOk, hs) && Fails(s, nft, latest.value, putOk, hs) < |hs|))
    case Happens(_) => false
    case Signal(_, _, _) => true
  }

  function Timers(ins: seq<Input>): nat {
    if ins == [] then 0 else Timers(ins[..|ins| - 1]) + if ins[|ins| - 1].Timer? then 1 else 0
  }

  /** The first turn is the NFT arm's, and the arms take turns, whatever comes between. */
  predicate TurnIsNFT(ins: seq<Input>) {
    Timers(ins) % 2 == 0
  }

  ghost predicate Serves(s: State, nft: bool, input: Input, steps: seq<Step>, t: State) {
    Runs.Goes(s, steps, t) && Answers(s, nft, input, steps)
  }

  /** Input `i`, met in state `s`, is the last one. */
  ghost predicate EndsAt(ins: seq<Input>, i: nat, s: State)
    requires i < |ins|
  {
    Ends(s, TurnIsNFT(ins[..i]), ins[i])
  }

  /** The inputs so far, one by one, have led through `course`, by the steps in `parts`; only the last can be an end. */
  ghost predicate Served(ins: seq<Input>, course: seq<State>, parts: seq<seq<Step>>) {
    && |parts| <= |ins| && |course| == |parts| + 1
    && (forall i :: 0 <= i < |parts| ==> Serves(course[i], TurnIsNFT(ins[..i]), ins[i], parts[i], course[i + 1]))
    && (forall i :: 0 <= i < |parts| - 1 ==> !EndsAt(ins, i, course[i]))
  }

  /** The last input taken ended the process. */
  ghost predicate HasEnded(ins: seq<Input>, course: seq<State>, parts: seq<seq<Step>>)
    requires Served(ins, course, parts)
  {
    parts != [] && EndsAt(ins, |parts| - 1, course[|parts| - 1])
  }

  function Joined(parts: seq<seq<Step>>): seq<Step> {
    if parts == [] then [] else Joined(parts[..|parts| - 1]) + parts[|parts| - 1]
  }

  lemma ServedMore(ins: seq<Input>, course: seq<State>, parts: seq<seq<Step>>, steps: seq<Step>, t: State)
    requires Served(ins, course, parts) && |parts| < |ins| && !HasEnded(ins, course, parts)
    requires Serves(course[|parts|], TurnIsNFT(ins[..|parts|]), ins[|parts|], steps, t)
    ensures Served(ins, course + [t], parts + [steps])
    ensures HasEnded(ins, course + [t], parts + [steps]) <==> EndsAt(ins, |parts|, course[|parts|])
  {
    hide Serves, EndsAt, TurnIsNFT;
    var more, all := course + [t], parts + [steps];
    forall i | 0 <= i < |all|
      ensures Serves(more[i], TurnIsNFT(ins[..i]), ins[i], all[i], more[i + 1])
    {}
    forall i | 0 <= i < |all| - 1
      ensures !EndsAt(ins, i, more[i])
    {}
  }

  /** From `was`, a start and all these steps lead to the last state of `course`. */
  ghost predicate Leads(
    was: State, pairs: map<bytes, bytes>, ins: seq<Input>, course: seq<State>, parts: seq<seq<Step>>)
    requires Served(ins, course, parts)
  {
    && Runs.Goes(was, [Restart(pairs)], course[0])
    && Runs.Goes(was, [Restart(pairs)] + Joined(parts), course[|parts|])
  }

  lemma LeadsMore(was: State, pairs: map<bytes, bytes>, ins: seq<Input>, course: seq<State>, parts: seq<seq<Step>>,
                  steps: seq<Step>, t: State)
    requires Served(ins, course, parts) && |parts| < |ins| && !HasEnded(ins, course, parts)
    requires Leads(was, pairs, ins, course, parts)
    requires Serves(course[|parts|], TurnIsNFT(ins[..|parts|]), ins[|parts|], steps, t)
    ensures Served(ins, course + [t], parts + [steps]) && Leads(was, pairs, ins, course + [t], parts + [steps])
    ensures HasEnded(ins, course + [t], parts + [steps]) <==> EndsAt(ins, |parts|, course[|parts|])
  {
    hide Answers, EndsAt, TurnIsNFT, Joined, Runs.Goes, HasEnded;
    ServedMore(ins, course, parts, steps, t);
    JoinedMore(parts, steps, [Restart(pairs)]);
    Runs.GoesAppend(was, [Restart(pairs)] + Joined(parts), course[|parts|], steps, t);
  }

  lemma NextTurn(ins: seq<Input>, i: nat)
    requires i < |ins|
    ensures TurnIsNFT(ins[..i + 1]) <==> if ins[i].Timer? then !TurnIsNFT(ins[..i]) else TurnIsNFT(ins[..i])
  {
    assert ins[..i + 1][..i] == ins[..i];
  }

  lemma JoinedMore(parts: seq<seq<Step>>, steps: seq<Step>, first: seq<Step>)
    ensures first + Joined(parts + [steps]) == first + Joined(parts) + steps
  {
    assert (parts + [steps])[..|parts|] == parts;
  }

  // ---------------------------------------------------------------- the arms

  /** What the timer brings fits the kind whose turn it is. */
  lemma Due(s: State, nft: bool, ins: seq<Input>)
    requires ins != [] && ins[0].Timer? && Admissible(s, nft, ins)
    ensures if !MapEmpty(LaneOf(s, nft)) then Admissible(s, !nft, ins[1..])
            else Ready(s, nft, ins[0].latest, ins[0].putOk, ins[0].hs)
  {}

  lemma Turned(s: State, nft: bool, ins: seq<Input>, t: State)
    requires ins != [] && ins[0].Timer? && Admissible(s, nft, ins) && MapEmpty(LaneOf(s, nft))
    requires ins[0].latest.Some?
    requires Runs.Goes(s, TurnSteps(nft, ins[0].latest.value, ins[0].putOk, ins[0].hs), t)
    ensures Admissible(t, !nft, ins[1..])
  {
    hide Ready, Runs.Goes, TurnSteps;
  }

  /** The timer's arm of the loop; an error ends the process. */
  method OnTimer(b: Bridge, rotator: Rotator, latest: Option<uint64>, putOk: bool, hs: seq<Happening>,
                 ghost nft: bool, ghost ins: seq<Input>) returns (ok: bool, ghost steps: seq<Step>, ghost end: State)
    requires b.Valid() && Idle(b.st) && rotator.size == 2 && rotator.slot == (if nft then 1 else 2)
    requires ins != [] && ins[0] == Timer(latest, putOk, hs) && Admissible(b.st, nft, ins)
    modifies b, b.db, b.Objects(), rotator`slot
    ensures rotator.slot == if nft then 2 else 1
    ensures Serves(old(b.st), nft, ins[0], steps, end) && (ok <==> !Ends(old(b.st), nft, ins[0]))
    ensures Relayer.Inv(end) && Stores(b.db.kv, end) && (!ok ==> !end.up)
    ensures forall o :: o in b.Objects() ==> o in old(b.Objects()) || fresh(o)
    ensures ok ==> b.Valid() && Idle(b.st) && end == b.st && Admissible(b.st, !nft, ins[1..])
  {
    hide Holds, Runs.Goes, Idle, TurnSteps, Ready, Admissible, MapEmpty, LaneOf, Relayer.Inv, Stores, Fails;
    hide Bridge.Mem, Bridge.Busy;
    ghost var s := b.st;
    Due(s, nft, ins);
    var slot := rotator.Rotate();
    assert IsNFT(slot) == nft;
    b.EmptyHere(nft);
    ok, steps := Turn(b, IsNFT(slot), latest, putOk, hs);
    end := b.st;
    if ok {
      if MapEmpty(LaneOf(s, nft)) {
        Turned(s, nft, ins, b.st);
      }
    } else {
      end := CrashTarget(b.st, b.db.kv);
      Runs.GoesAppend(s, steps, b.st, [Crash], end);
      steps := steps + [Crash];
    }
  }

  lemma Next1(s: State, nft: bool, ins: seq<Input>)
    requires ins != [] && ins[0].Happens? && Admissible(s, nft, ins)
    ensures Enabled(s, StepOf(false, ins[0].happening)) && Truthful(s, false, ins[0].happening)
    ensures forall t :: Runs.Goes(s, [StepOf(false, ins[0].happening)], t) ==> Admissible(t, nft, ins[1..])
  {
    hide Runs.Goes, Enabled, Truthful;
    First(s, false, [ins[0].happening]);
  }

  /** Half a callback, or a block, between two turns. */
  method OnHappening(b: Bridge, a: Happening, ghost nft: bool, ghost ins: seq<Input>)
    requires b.Valid() && Idle(b.st) && ins != [] && ins[0] == Happens(a) && Admissible(b.st, nft, ins)
    modifies b, b.db, b.Objects()
    ensures b.Valid() && Idle(b.st) && Admissible(b.st, nft, ins[1..]) && b.Objects() <= old(b.Objects())
    ensures Runs.Goes(old(b.st), [StepOf(false, a)], b.st)
  {
    hide Holds, Runs.Goes, Idle, Admissible, Enabled, Truthful, StepOf;
    hide Bridge.Objects, Bridge.Persists, Bridge.Mem, Bridge.Valid;
    ghost var s := b.st;
    Next1(s, nft, ins);
    NoArrival(s, false, a);
    b.Happen(false, a);
    StaysIdle(s, false, a, b.st);
  }

  lemma AtSignal(s: State, nft: bool, ins: seq<Input>)
    requires ins != [] && ins[0].Signal? && Admissible(s, nft, ins)
    ensures |ins[0].rounds| > RETRY_LIMIT && Plausible(s, false, Flat(ins[0].rounds))
  {}

  /** The signal's arm: the process closes, after waiting for up to four rounds, and writes both watermarks. */
  method OnSignal(b: Bridge, rounds: seq<seq<Happening>>, put20: bool, putNFT: bool) returns (ghost steps: seq<Step>)
    requires b.Valid() && Idle(b.st) && |rounds| > RETRY_LIMIT && Plausible(b.st, false, Flat(rounds))
    modifies b, b.db, b.Objects()
    ensures Relayer.Inv(b.st) && !b.st.up && Stores(b.db.kv, b.st) && Runs.Goes(old(b.st), steps, b.st)
    ensures exists k, mid ::
              Waited(old(b.st), rounds, 3, k, mid) && steps == RoundsOf(rounds, k) + [Step.Close(put20, putNFT)]
  {
    hide Holds, Relayer.Inv, Stores, Runs.Goes, Idle, Plausible, Flat, StillBusy, BothEmpty;
    hide Bridge.Objects, Bridge.Persists, Bridge.Mem, Bridge.Valid;
    var _, k, mid := b.Close(rounds, RETRY_LIMIT, true, put20, putNFT);
    steps := RoundsOf(rounds, k) + [Step.Close(put20, putNFT)];
    Runs.GoesAppend(old(b.st), RoundsOf(rounds, k), mid, [Step.Close(put20, putNFT)], b.st);
  }

  /** One turn of the `select`. */
  method Select(b: Bridge, rotator: Rotator, ghost nft: bool, ins: seq<Input>)
    returns (more: bool, ghost steps: seq<Step>, ghost end: State)
    requires b.Valid() && Idle(b.st) && rotator.size == 2 && rotator.slot == (if nft then 1 else 2)
    requires ins != [] && Admissible(b.st, nft, ins)
    modifies b, b.db, b.Objects(), rotator`slot
    ensures Serves(old(b.st), nft, ins[0], steps, end) && (more <==> !Ends(old(b.st), nft, ins[0]))
    ensures Relayer.Inv(end) && Stores(b.db.kv, end) && (!more ==> !end.up)
    ensures more ==> end == b.st && b.Valid() && Idle(b.st)
    ensures var next := if ins[0].Timer? then !nft else nft;
            more ==> Admissible(b.st, next, ins[1..]) && rotator.slot == if next then 1 else 2
    ensures more ==> forall o :: o in b.Objects() ==> o in old(b.Objects()) || fresh(o)
  {
    hide Holds, Relayer.Inv, Stores, Runs.Goes, Idle, Admissible, Plausible, StepOf, Waited;
    hide Bridge.Mem, Bridge.Valid;
    match ins[0]
    case Timer(latest, putOk, hs) =>
      more, steps, end := OnTimer(b, rotator, latest, putOk, hs, nft, ins);
    case Happens(a) =>
      OnHappening(b, a, nft, ins);
      b.ValidPersists();
      more, steps, end := true, [StepOf(false, a)], b.st;
    case Signal(rounds, put20, putNFT) =>
      AtSignal(b.st, nft, ins);
      steps := OnSignal(b, rounds, put20, putNFT);
      more, end := false, b.st;
  }

  /**
   `start`, from a store that an earlier process left, until the inputs are used up or one of them ends it, by a
   signal or by an error: it answers each of them in its turn, and these steps are a stretch of a run. Once it has
   ended it leaves a store to start from again.
   */
  method Start(db: DB, ins: seq<Input>, ghost was: State, ghost pairs: map<bytes, bytes>)
    returns (ended: bool, ghost course: seq<State>, ghost parts: seq<seq<Step>>)
    requires Relayer.Inv(was) && !was.up && Stores(db.kv, was.(pairs := pairs))
    requires forall s :: Runs.Goes(was, [Restart(pairs)], s) ==> Admissible(s, true, ins)
    modifies db
    ensures Served(ins, course, parts) && Leads(was, pairs, ins, course, parts)
    ensures (ended <==> HasEnded(ins, course, parts)) && (!ended ==> |parts| == |ins|)
    ensures var end := course[|parts|]; Relayer.Inv(end) && Stores(db.kv, end) && (ended ==> !end.up)
  {
    hide Relayer.Inv, Stores, Holds, Runs.Goes, Idle, Admissible, Plausible, Bridge.Mem, Bridge.Valid;
    hide Answers, Serves, HasEnded, Joined, TurnIsNFT, Leads;
    var rotator := new Rotator(2);
    var b := new Bridge(db, was, pairs);
    b.ValidPersists();
    course, parts := [b.st], [];
    NothingServed(was, pairs, ins, b.st);
    assert ins[0..] == ins && ins[..0] == [];
    for i := 0 to |ins|
      invariant b.Valid() && b.db == db && fresh(b.Objects()) && fresh(b) && fresh(rotator) && Idle(b.st)
      invariant |parts| == i && Served(ins, course, parts) && course[i] == b.st && !HasEnded(ins, course, parts)
      invariant rotator.size == 2 && rotator.slot == if TurnIsNFT(ins[..i]) then 1 else 2
      invariant Admissible(b.st, TurnIsNFT(ins[..i]), ins[i..])
      invariant Leads(was, pairs, ins, course, parts)
    {
      var more, steps, next := Select(b, rotator, TurnIsNFT(ins[..i]), ins[i..]);
      LeadsMore(was, pairs, ins, course, parts, steps, next);
      NextTurn(ins, i);
      course, parts := course + [next], parts + [steps];
      if !more {
        ended := true;
        return;
      }
      assert ins[i..][1..] == ins[i + 1..];
    }
    b.ValidPersists();
    ended := false;
  }

  lemma NothingServed(was: State, pairs: map<bytes, bytes>, ins: seq<Input>, s: State)
    requires Runs.Goes(was, [Restart(pairs)], s)
    ensures Served(ins, [s], []) && !HasEnded(ins, [s], []) && Leads(was, pairs, ins, [s], []) && TurnIsNFT([])
  {
    hide Runs.Goes;
    assert [Restart(pairs)] + [] == [Restart(pairs)];
  }
}
