/**
 The Bank contract on the source chain: three id counters, the held native balance and the event log.
 A call may run other calls in the middle, wherever the contract hands control to a token or a
 recipient, and a call that reverts leaves no trace.
 */
module Bank {
  import opened Bytes

  /** Addresses are carried in their hex form, `0x` and 40 digits. */
  type Address = a: bytes | |a| <= 42

  datatype Kind = Coin | ERC20 | NFT

  datatype Log =
    | Deposited(kind: Kind, id: nat, token: Address, sender: Address, value: uint256)
    | Withdrawn(kind: Kind, source: Address, recipient: Address, value: uint256)  // of a token, or for a payee

  /**
   A call and what the environment does with it: `during` are the calls that the token or the recipient
   makes while it has control, `accepts` whether it lets the call go on, and `permitted` whether the
   caller has the bank role.
   */
  datatype Call =
    | Deposit(payee: Address, value: uint256)
    | Withdraw(payee: Address, recipient: Address, amount: uint256, permitted: bool, during: Calls, accepts: bool)
    | DepositToken(nft: bool, token: Address, sender: Address, amount: uint256, during: Calls, accepts: bool)
    | WithdrawToken(nft: bool, token: Address, recipient: Address, amount: uint256, permitted: bool, during: Calls,
                    accepts: bool)

  datatype Calls = None | First(call: Call, rest: Calls)

  datatype State = State(balance: nat, coins: nat, erc20s: nat, nfts: nat, entered: bool, log: seq<Log>)

  const FRESH := State(0, 0, 0, 0, false, [])

  function TokenKind(nft: bool): Kind {
    if nft then NFT else ERC20
  }

  function Index(s: State, k: Kind): nat {
    match k case Coin => s.coins case ERC20 => s.erc20s case NFT => s.nfts
  }

  function Bump(s: State, k: Kind): State {
    match k
    case Coin => s.(coins := s.coins + 1)
    case ERC20 => s.(erc20s := s.erc20s + 1)
    case NFT => s.(nfts := s.nfts + 1)
  }

  /** A deposit event with the next id of its kind. */
  function Emit(s: State, k: Kind, token: Address, sender: Address, value: uint256): State {
    Bump(s, k).(log := s.log + [Deposited(k, Index(s, k), token, sender, value)])
  }

  /** One call: whether it went through, and the state after it. */
  function Run(c: Call, s: State): (r: (bool, State))
    ensures !r.0 ==> r.1 == s
    decreases c
  {
    match c
    case Deposit(payee, value) => (true, Emit(s.(balance := s.balance + value), Coin, [], payee, value))
    case Withdraw(payee, recipient, amount, permitted, during, accepts) =>
      if s.entered || !permitted || s.balance < amount || !accepts then (false, s)
      else
        var t := RunAll(during, s.(balance := s.balance - amount, entered := true));
        (true, t.(entered := false, log := t.log + [Withdrawn(Coin, payee, recipient, amount)]))
    case DepositToken(nft, token, sender, amount, during, accepts) =>
      if !accepts then (false, s)
      else (true, Emit(RunAll(during, s), TokenKind(nft), token, sender, amount))
    case WithdrawToken(nft, token, recipient, amount, permitted, during, accepts) =>
      if !permitted || !accepts then (false, s)
      else
        var t := RunAll(during, s);
        (true, t.(log := t.log + [Withdrawn(TokenKind(nft), token, recipient, amount)]))
  }

  function RunAll(cs: Calls, s: State): State
    decreases cs
  {
    match cs
    case None => s
    case First(c, rest) => RunAll(rest, Run(c, s).1)
  }

  // ---------------------------------------------------------------- the log

  /** The deposits of one kind, in the order of the log. */
  function Deposits(log: seq<Log>, k: Kind): seq<Log> {
    if log == [] then []
    else
      var last := log[|log| - 1];
      Deposits(log[..|log| - 1], k) + if last.Deposited? && last.kind == k then [last] else []
  }

  /** The ids of one kind are 0, 1, 2, ... in the order they were emitted. */
  predicate Dense(log: seq<Log>, k: Kind) {
    forall i :: 0 <= i < |Deposits(log, k)| ==>
      Deposits(log, k)[i].Deposited? && Deposits(log, k)[i].kind == k && Deposits(log, k)[i].id == i
  }

  predicate Numbered(s: State) {
    forall k :: Dense(s.log, k) && |Deposits(s.log, k)| == Index(s, k)
  }

  function Paid(log: seq<Log>): nat {
    if log == [] then 0
    else
      var last := log[|log| - 1];
      Paid(log[..|log| - 1]) + if last.Deposited? && last.kind == Coin then last.value else 0
  }

  function PaidOut(log: seq<Log>): nat {
    if log == [] then 0
    else
      var last := log[|log| - 1];
      PaidOut(log[..|log| - 1]) + if last.Withdrawn? && last.kind == Coin then last.value else 0
  }

  /** What the balance holds over what the log accounts for. */
  function Surplus(s: State): int {
    s.balance + PaidOut(s.log) - Paid(s.log)
  }

  lemma OneMore(log: seq<Log>, e: Log, k: Kind)
    ensures Deposits(log + [e], k) == Deposits(log, k) + if e.Deposited? && e.kind == k then [e] else []
    ensures Paid(log + [e]) == Paid(log) + if e.Deposited? && e.kind == Coin then e.value else 0
    ensures PaidOut(log + [e]) == PaidOut(log) + if e.Withdrawn? && e.kind == Coin then e.value else 0
  {
    assert (log + [e])[..|log|] == log;
  }

  lemma EmitNumbered(s: State, k: Kind, token: Address, sender: Address, value: uint256)
    requires Numbered(s)
    ensures Numbered(Emit(s, k, token, sender, value))
  {
    var t := Emit(s, k, token, sender, value);
    forall l
      ensures Dense(t.log, l) && |Deposits(t.log, l)| == Index(t, l)
    {
      OneMore(s.log, t.log[|s.log|], l);
      assert Dense(s.log, l) && |Deposits(s.log, l)| == Index(s, l);
    }
  }

  lemma WithdrawnNumbered(s: State, e: Log)
    requires Numbered(s) && e.Withdrawn?
    ensures Numbered(s.(log := s.log + [e]))
  {
    forall l
      ensures Dense(s.log + [e], l) && |Deposits(s.log + [e], l)| == Index(s, l)
    {
      OneMore(s.log, e, l);
      assert Dense(s.log, l) && |Deposits(s.log, l)| == Index(s, l);
    }
  }

  /** A call keeps the numbering, whatever runs inside it and whatever reverts. */
  lemma {:induction false} RunNumbered(c: Call, s: State)
    requires Numbered(s)
    ensures Numbered(Run(c, s).1)
    decreases c
  {
    hide Dense, Deposits, Emit;
    if Run(c, s).0 {
      match c
      case Deposit(payee, value) =>
        var t := s.(balance := s.balance + value);
        assert Numbered(t) by { NumberedFrame(s, t); }
        EmitNumbered(t, Coin, [], payee, value);
      case Withdraw(payee, recipient, amount, _, during, _) =>
        var t := s.(balance := s.balance - amount, entered := true);
        NumberedFrame(s, t);
        RunAllNumbered(during, t);
        var u := RunAll(during, t);
        NumberedFrame(u, u.(entered := false));
        WithdrawnNumbered(u.(entered := false), Withdrawn(Coin, payee, recipient, amount));
      case DepositToken(nft, token, sender, amount, during, _) =>
        RunAllNumbered(during, s);
        EmitNumbered(RunAll(during, s), TokenKind(nft), token, sender, amount);
      case WithdrawToken(nft, token, recipient, amount, _, during, _) =>
        RunAllNumbered(during, s);
        WithdrawnNumbered(RunAll(during, s), Withdrawn(TokenKind(nft), token, recipient, amount));
    }
  }

  lemma NumberedFrame(s: State, t: State)
    requires Numbered(s) && t.log == s.log && t.coins == s.coins && t.erc20s == s.erc20s && t.nfts == s.nfts
    ensures Numbered(t)
  {
    forall k
      ensures Dense(t.log, k) && |Deposits(t.log, k)| == Index(t, k)
    {
      assert Dense(s.log, k) && |Deposits(s.log, k)| == Index(s, k);
    }
  }

  /** Over any calls, each counter's ids come out dense and in order. */
  lemma {:induction false} RunAllNumbered(cs: Calls, s: State)
    requires Numbered(s)
    ensures Numbered(RunAll(cs, s))
    decreases cs
  {
    hide Numbered;
    match cs
    case None =>
    case First(c, rest) =>
      RunNumbered(c, s);
      RunAllNumbered(rest, Run(c, s).1);
  }

  /** A complete call moves balance and log together, even one made from inside an open withdrawal. */
  lemma {:induction false} RunBalanced(c: Call, s: State)
    ensures Surplus(Run(c, s).1) == Surplus(s) && Run(c, s).1.entered == s.entered
    decreases c
  {
    hide Paid, PaidOut;
    if Run(c, s).0 {
      match c
      case Deposit(payee, value) =>
        OneMore(s.log, Deposited(Coin, s.coins, [], payee, value), Coin);
      case Withdraw(payee, recipient, amount, _, during, _) =>
        var t := RunAll(during, s.(balance := s.balance - amount, entered := true));
        RunAllBalanced(during, s.(balance := s.balance - amount, entered := true));
        OneMore(t.log, Withdrawn(Coin, payee, recipient, amount), Coin);
      case DepositToken(nft, token, sender, amount, during, _) =>
        var t := RunAll(during, s);
        RunAllBalanced(during, s);
        OneMore(t.log, Deposited(TokenKind(nft), Index(t, TokenKind(nft)), token, sender, amount), Coin);
      case WithdrawToken(nft, token, recipient, amount, _, during, _) =>
        var t := RunAll(during, s);
        RunAllBalanced(during, s);
        OneMore(t.log, Withdrawn(TokenKind(nft), token, recipient, amount), Coin);
    }
  }

  lemma {:induction false} RunAllBalanced(cs: Calls, s: State)
    ensures Surplus(RunAll(cs, s)) == Surplus(s) && RunAll(cs, s).entered == s.entered
    decreases cs
  {
    hide Surplus;
    match cs
    case None =>
    case First(c, rest) =>
      RunBalanced(c, s);
      RunAllBalanced(rest, Run(c, s).1);
  }

  lemma Fresh()
    ensures Numbered(FRESH) && Surplus(FRESH) == 0 && !FRESH.entered
  {
    forall k
      ensures Dense([], k) && |Deposits([], k)| == 0
    {}
  }

  lemma NoSurplus(s: State)
    requires Surplus(s) == 0
    ensures s.balance == Paid(s.log) - PaidOut(s.log)
  {}

  /** From deployment on, whenever no call is open the balance is what came in less what went out. */
  lemma FundsAccounted(cs: Calls)
    ensures RunAll(cs, FRESH).balance == Paid(RunAll(cs, FRESH).log) - PaidOut(RunAll(cs, FRESH).log)
    ensures !RunAll(cs, FRESH).entered && Numbered(RunAll(cs, FRESH))
  {
    hide *;
    Fresh();
    RunAllBalanced(cs, FRESH);
    NoSurplus(RunAll(cs, FRESH));
    RunAllNumbered(cs, FRESH);
  }

  /** The log only grows. */
  lemma {:induction false} RunGrows(c: Call, s: State)
    ensures s.log <= Run(c, s).1.log
    decreases c
  {
    if Run(c, s).0 {
      match c
      case Deposit(_, _) =>
      case Withdraw(_, _, amount, _, during, _) =>
        RunAllGrows(during, s.(balance := s.balance - amount, entered := true));
      case DepositToken(_, _, _, _, during, _) => RunAllGrows(during, s);
      case WithdrawToken(_, _, _, _, _, during, _) => RunAllGrows(during, s);
    }
  }

  lemma {:induction false} RunAllGrows(cs: Calls, s: State)
    ensures s.log <= RunAll(cs, s).log
    decreases cs
  {
    match cs
    case None =>
    case First(c, rest) =>
      RunGrows(c, s);
      RunAllGrows(rest, Run(c, s).1);
  }

  lemma {:induction false} DepositsGrow(a: seq<Log>, b: seq<Log>, k: Kind)
    requires a <= b
    ensures Deposits(a, k) <= Deposits(b, k)
    decreases |b|
  {
    if |a| < |b| {
      DepositsGrow(a, b[..|b| - 1], k);
    } else {
      assert a == b;
    }
  }

  // ---------------------------------------------------------------- what the log says of the calls

  /** Who may do what: a coin withdrawal, besides, not inside another, and not of more than there is. */
  lemma GoesThroughIff(c: Call, s: State)
    ensures Run(c, s).0 <==>
              && (c.Deposit? || c.accepts)
              && (c.Withdraw? || c.WithdrawToken? ==> c.permitted)
              && (c.Withdraw? ==> !s.entered && c.amount <= s.balance)
  {}

  /** The calls that go through, those made inside a call before the call itself. */
  function Done(c: Call, s: State): seq<Call>
    decreases c
  {
    if !Run(c, s).0 then []
    else
      match c
      case Deposit(_, _) => [c]
      case Withdraw(_, _, amount, _, during, _) =>
        DoneAll(during, s.(balance := s.balance - amount, entered := true)) + [c]
      case DepositToken(_, _, _, _, during, _) => DoneAll(during, s) + [c]
      case WithdrawToken(_, _, _, _, _, during, _) => DoneAll(during, s) + [c]
  }

  function DoneAll(cs: Calls, s: State): seq<Call>
    decreases cs
  {
    match cs
    case None => []
    case First(c, rest) => Done(c, s) + DoneAll(rest, Run(c, s).1)
  }

  /** The entry says what the call did, whatever its id is. */
  predicate Tells(e: Log, c: Call) {
    match c
    case Deposit(payee, value) => e.Deposited? && e == Deposited(Coin, e.id, [], payee, value)
    case Withdraw(payee, recipient, amount, _, _, _) => e == Withdrawn(Coin, payee, recipient, amount)
    case DepositToken(nft, token, sender, amount, _, _) =>
      e.Deposited? && e == Deposited(if nft then NFT else ERC20, e.id, token, sender, amount)
    case WithdrawToken(nft, token, recipient, amount, _, _, _) =>
      e == Withdrawn(if nft then NFT else ERC20, token, recipient, amount)
  }

  predicate TellsAll(log: seq<Log>, calls: seq<Call>) {
    |log| == |calls| && forall i :: 0 <= i < |log| ==> Tells(log[i], calls[i])
  }

  /** What was logged since. */
  predicate Logs(s: State, t: State, calls: seq<Call>) {
    s.log <= t.log && TellsAll(t.log[|s.log|..], calls)
  }

  lemma LogsOn(s: State, t: State, u: State, a: seq<Call>, b: seq<Call>)
    requires Logs(s, t, a) && Logs(t, u, b)
    ensures Logs(s, u, a + b)
  {
    assert u.log[|s.log|..] == t.log[|s.log|..] + u.log[|t.log|..];
  }

  lemma LogsOne(s: State, t: State, u: State, a: seq<Call>, e: Log, c: Call)
    requires Logs(s, t, a) && u.log == t.log + [e] && Tells(e, c)
    ensures Logs(s, u, a + [c])
  {
    assert u.log[|s.log|..] == t.log[|s.log|..] + [e];
  }

  /** A call that goes through adds the entries of the calls made inside it and then its own; any other adds none. */
  lemma {:induction false} RunLogs(c: Call, s: State)
    ensures Logs(s, Run(c, s).1, Done(c, s))
    decreases c
  {
    hide Logs;
    var u := Run(c, s).1;
    if Run(c, s).0 {
      match c
      case Deposit(payee, value) =>
        NothingLogged(s, s);
        LogsOne(s, s, u, [], u.log[|s.log|], c);
        assert [] + [c] == [c];
      case Withdraw(payee, recipient, amount, _, during, _) =>
        var t := s.(balance := s.balance - amount, entered := true);
        RunAllLogs(during, t);
        NothingLogged(s, t);
        LogsOn(s, t, RunAll(during, t), [], DoneAll(during, t));
        assert [] + DoneAll(during, t) == DoneAll(during, t);
        LogsOne(s, RunAll(during, t), u, DoneAll(during, t), Withdrawn(Coin, payee, recipient, amount), c);
      case DepositToken(nft, token, sender, amount, during, _) =>
        RunAllLogs(during, s);
        var k := TokenKind(nft);
        LogsOne(s, RunAll(during, s), u, DoneAll(during, s),
                Deposited(k, Index(RunAll(during, s), k), token, sender, amount), c);
      case WithdrawToken(nft, token, recipient, amount, _, during, _) =>
        RunAllLogs(during, s);
        LogsOne(s, RunAll(during, s), u, DoneAll(during, s), Withdrawn(TokenKind(nft), token, recipient, amount), c);
    } else {
      NothingLogged(s, s);
    }
  }

  lemma NothingLogged(s: State, t: State)
    requires t.log == s.log
    ensures Logs(s, t, [])
  {}

  /** Over any calls, the log grows by one entry for each that goes through, in the order in which they complete. */
  lemma {:induction false} RunAllLogs(cs: Calls, s: State)
    ensures Logs(s, RunAll(cs, s), DoneAll(cs, s))
    decreases cs
  {
    hide Logs;
    match cs
    case None => NothingLogged(s, s);
    case First(c, rest) =>
      RunLogs(c, s);
      RunAllLogs(rest, Run(c, s).1);
      LogsOn(s, Run(c, s).1, RunAll(cs, s), Done(c, s), DoneAll(rest, Run(c, s).1));
  }

  /** A deposit of this kind. */
  predicate Makes(c: Call, k: Kind) {
    (c.Deposit? && k == Coin) || (c.DepositToken? && k == if c.nft then NFT else ERC20)
  }

  /** The deposits of one kind among these calls. */
  function Made(calls: seq<Call>, k: Kind): seq<Call> {
    if calls == [] then []
    else
      var last := calls[|calls| - 1];
      Made(calls[..|calls| - 1], k) + if Makes(last, k) then [last] else []
  }

  lemma {:induction false} MadeTold(log: seq<Log>, calls: seq<Call>, k: Kind)
    requires TellsAll(log, calls)
    ensures TellsAll(Deposits(log, k), Made(calls, k))
    decreases |log|
  {
    if log != [] {
      var n := |log| - 1;
      MadeTold(log[..n], calls[..n], k);
      assert Tells(log[n], calls[n]);
    }
  }

  lemma {:induction false} DepositsSplit(a: seq<Log>, b: seq<Log>, k: Kind)
    ensures Deposits(a + b, k) == Deposits(a, k) + Deposits(b, k)
    decreases |b|
  {
    if b == [] {
      assert a + b == a;
    } else {
      var n := |b| - 1;
      DepositsSplit(a, b[..n], k);
      assert (a + b)[..|a| + n] == a + b[..n];
    }
  }

  /**
   Over any calls, the deposit events of a kind are the old ones and then one for each deposit of the kind that
   goes through, in the order in which they complete, with the token, the sender and the value of its call.
   */
  lemma DepositsAreCalls(cs: Calls, s: State, k: Kind)
    ensures var old', new' := Deposits(s.log, k), Deposits(RunAll(cs, s).log, k);
            old' <= new' && TellsAll(new'[|old'|..], Made(DoneAll(cs, s), k))
  {
    RunAllLogs(cs, s);
    hide Deposits, Made, Tells, RunAll, DoneAll;
    var t := RunAll(cs, s);
    var more := t.log[|s.log|..];
    assert t.log == s.log + more;
    DepositsSplit(s.log, more, k);
    MadeTold(more, DoneAll(cs, s), k);
    assert Deposits(t.log, k)[|Deposits(s.log, k)|..] == Deposits(more, k);
  }

  /** Inside an open withdrawal no other one goes through, so that the balance does not fall. */
  lemma {:induction false} NoneInside(cs: Calls, s: State)
    requires s.entered
    ensures forall i :: 0 <= i < |DoneAll(cs, s)| ==> !DoneAll(cs, s)[i].Withdraw?
    ensures s.balance <= RunAll(cs, s).balance
    decreases cs
  {
    match cs
    case None =>
    case First(c, rest) =>
      OneInside(c, s);
      RunBalanced(c, s);
      NoneInside(rest, Run(c, s).1);
  }

  lemma {:induction false} OneInside(c: Call, s: State)
    requires s.entered
    ensures forall i :: 0 <= i < |Done(c, s)| ==> !Done(c, s)[i].Withdraw?
    ensures s.balance <= Run(c, s).1.balance
    decreases c
  {
    match c
    case Deposit(_, _) =>
    case Withdraw(_, _, _, _, _, _) =>
    case DepositToken(_, _, _, _, during, _) => NoneInside(during, s);
    case WithdrawToken(_, _, _, _, _, during, _) => NoneInside(during, s);
  }

  // ---------------------------------------------------------------- the contract

  /** The contract's storage, changed call by call. */
  class Bank {
    var balance: nat
    var indexDeposited: nat
    var indexERC20Deposited: nat
    var indexNFTDeposited: nat
    var entered: bool
    var log: seq<Log>

    constructor ()
      ensures St() == FRESH
    {
      balance, indexDeposited, indexERC20Deposited, indexNFTDeposited := 0, 0, 0, 0;
      entered, log := false, [];
    }

    function St(): State
      reads this
    {
      State(balance, indexDeposited, indexERC20Deposited, indexNFTDeposited, entered, log)
    }

    /** Undo everything since `s`, as a revert does. */
    method Restore(s: State)
      modifies this
      ensures St() == s
    {
      balance, indexDeposited, indexERC20Deposited, indexNFTDeposited := s.balance, s.coins, s.erc20s, s.nfts;
      entered, log := s.entered, s.log;
    }

    /** The counter goes up by one; the id is what it was before. */
    method AssignIndex(kind: Kind) returns (id: nat)
      modifies this`indexDeposited, this`indexERC20Deposited, this`indexNFTDeposited
      ensures id == Index(old(St()), kind) && St() == Bump(old(St()), kind)
    {
      match kind
      case Coin =>
        indexDeposited := indexDeposited + 1;
        id := indexDeposited - 1;
      case ERC20 =>
        indexERC20Deposited := indexERC20Deposited + 1;
        id := indexERC20Deposited - 1;
      case NFT =>
        indexNFTDeposited := indexNFTDeposited + 1;
        id := indexNFTDeposited - 1;
    }

    method EmitDeposited(kind: Kind, token: Address, sender: Address, value: uint256)
      modifies this
      ensures St() == Emit(old(St()), kind, token, sender, value)
    {
      var id := AssignIndex(kind);
      log := log + [Deposited(kind, id, token, sender, value)];
    }

    /** Any call of the contract, with the calls made in the middle of it. */
    method Execute(c: Call) returns (ok: bool)
      modifies this
      ensures (ok, St()) == Run(c, old(St()))
      decreases c
    {
      var before := St();
      match c
      case Deposit(payee, value) =>
        balance := balance + value;
        EmitDeposited(Coin, [], payee, value);
        ok := true;
      case Withdraw(payee, recipient, amount, permitted, during, accepts) =>
        if entered {
          return false;
        }
        entered := true;
        if !permitted || balance < amount {
          Restore(before);
          return false;
        }
        balance := balance - amount;
        ExecuteAll(during);
        if !accepts {
          Restore(before);
          return false;
        }
        log := log + [Withdrawn(Coin, payee, recipient, amount)];
        entered := false;
        ok := true;
      case DepositToken(nft, token, sender, amount, during, accepts) =>
        ExecuteAll(during);
        if !accepts {
          Restore(before);
          return false;
        }
        EmitDeposited(TokenKind(nft), token, sender, amount);
        ok := true;
      case WithdrawToken(nft, token, recipient, amount, permitted, during, accepts) =>
        if !permitted {
          return false;
        }
        ExecuteAll(during);
        if !accepts {
          Restore(before);
          return false;
        }
        log := log + [Withdrawn(TokenKind(nft), token, recipient, amount)];
        ok := true;
    }

    method ExecuteAll(cs: Calls)
      modifies this
      ensures St() == RunAll(cs, old(St()))
      decreases cs
    {
      match cs
      case None =>
      case First(c, rest) =>
        var _ := Execute(c);
        ExecuteAll(rest);
    }
  }
}
