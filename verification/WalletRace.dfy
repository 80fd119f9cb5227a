/**
 Concurrent wallet operations on one user. `Credit` and `Refund` read the balance and write the sum in
 two separately locked steps (internal/wallet/service.go:32-37, 64-69); `Debit` is one conditional
 update. A run interleaves the steps of any number of callers.
 */
module WalletRace {
  import opened Common
  import W = Wallets

  /** `held` keeps, per caller between its two steps, the balance it read and the amount it adds. */
  datatype State = State(balance: int, held: map<nat, (int, int)>, applied: int)

  datatype Step = Read(caller: nat, amount: int) | Write(caller: nat) | Debit(amount: int)

  predicate Enabled(s: State, t: Step) {
    match t
    case Read(c, a) => c !in s.held && 0 < a <= MAX_INT64
    case Write(c) => c in s.held
    case Debit(a) => 0 < a <= MAX_INT64
  }

  /** `applied` adds up the operations that took effect; nothing reads it back. */
  function Next(s: State, t: Step): State
    requires Enabled(s, t)
  {
    match t
    case Read(c, a) => s.(held := s.held[c := (s.balance, a)])
    case Write(c) => State(Wrap64(s.held[c].0 + s.held[c].1), s.held - {c}, s.applied + s.held[c].1)
    case Debit(a) => if s.balance < a then s else s.(balance := s.balance - a, applied := s.applied - a)
  }

  predicate Possible(s: State, steps: seq<Step>)
    decreases |steps|
  {
    steps == [] || (Enabled(s, steps[0]) && Possible(Next(s, steps[0]), steps[1..]))
  }

  /** The balance accounts for every operation that took effect. */
  predicate Conserved(initial: int, s: State) {
    s.balance == Wrap64(initial + s.applied)
  }

  predicate ConservedThroughout(initial: int, s: State, steps: seq<Step>)
    requires Possible(s, steps)
    decreases |steps|
  {
    Conserved(initial, s) && (steps == [] || ConservedThroughout(initial, Next(s, steps[0]), steps[1..]))
  }

  /** The caller about to write finds the balance it read. */
  predicate UpToDate(s: State, t: Step) {
    t.Write? && t.caller in s.held ==> s.held[t.caller].0 == s.balance
  }

  predicate NoLostUpdate(s: State, steps: seq<Step>)
    requires Possible(s, steps)
    decreases |steps|
  {
    steps == [] || (UpToDate(s, steps[0]) && NoLostUpdate(Next(s, steps[0]), steps[1..]))
  }

  predicate Typed(s: State) {
    IsInt64(s.balance) && forall c :: c in s.held ==> IsInt64(s.held[c].0) && 0 < s.held[c].1 <= MAX_INT64
  }

  lemma WrapIsInjectiveUnderShift(x: int, y: int, d: int)
    requires IsInt64(x) && IsInt64(y)
    ensures Wrap64(x + d) == Wrap64(y + d) <==> x == y
  {
  }

  lemma {:induction false} StepConserves(initial: int, s: State, t: Step)
    requires Typed(s) && Enabled(s, t) && Conserved(initial, s)
    ensures Typed(Next(s, t))
    ensures Conserved(initial, Next(s, t)) <==> UpToDate(s, t)
  {
    match t
    case Read(c, a) =>
    case Write(c) =>
      WrapOnce(initial + s.applied, s.held[c].1);
      WrapIsInjectiveUnderShift(s.held[c].0, s.balance, s.held[c].1);
    case Debit(a) =>
      WrapOnce(initial + s.applied, -a);
  }

  /** The balance accounts for every operation, at every point of a run, iff no write is based on a stale read. */
  lemma {:induction false} ConservedIffNoLostUpdate(initial: int, s: State, steps: seq<Step>)
    requires Typed(s) && Possible(s, steps) && Conserved(initial, s)
    ensures ConservedThroughout(initial, s, steps) <==> NoLostUpdate(s, steps)
    decreases |steps|
  {
    if steps == [] {
    } else {
      StepConserves(initial, s, steps[0]);
      if UpToDate(s, steps[0]) {
        ConservedIffNoLostUpdate(initial, Next(s, steps[0]), steps[1..]);
      } else {
        assert !Conserved(initial, Next(s, steps[0]));
      }
    }
  }

  /** Two credits of 5 on an empty wallet can leave 5. */
  lemma TwoCreditsCanLoseOne()
    ensures exists steps :: Possible(State(0, map[], 0), steps) && !ConservedThroughout(0, State(0, map[], 0), steps)
  {
    var s0 := State(0, map[], 0);
    var tail3 := [Write(2)];
    var tail2 := [Write(1)] + tail3;
    var tail1 := [Read(2, 5)] + tail2;
    var steps := [Read(1, 5)] + tail1;
    var s1 := Next(s0, Read(1, 5));
    var s2 := Next(s1, Read(2, 5));
    var s3 := Next(s2, Write(1));
    var s4 := Next(s3, Write(2));
    assert steps[1..] == tail1 && tail1[1..] == tail2 && tail2[1..] == tail3 && tail3[1..] == [];
    assert Possible(s3, tail3) && Possible(s2, tail2) && Possible(s1, tail1) && Possible(s0, steps);
    assert s4.balance == 5 && s4.applied == 10;
    assert !ConservedThroughout(0, s4, []);
    assert !ConservedThroughout(0, s3, tail3);
    assert !ConservedThroughout(0, s2, tail2);
    assert !ConservedThroughout(0, s1, tail1);
    assert !ConservedThroughout(0, s0, steps);
  }

  function End(s: State, steps: seq<Step>): State
    requires Possible(s, steps)
    decreases |steps|
  {
    if steps == [] then s else End(Next(s, steps[0]), steps[1..])
  }

  /** The service calls that take effect in a run, in the order they do: a credit where it writes. */
  function Effects(user: string, s: State, steps: seq<Step>): seq<W.Call>
    requires Possible(s, steps)
    decreases |steps|
  {
    if steps == [] then []
    else (match steps[0]
          case Read(_, _) => []
          case Write(c) => [W.Credit(user, s.held[c].1)]
          case Debit(a) => [W.Debit(user, a)]) + Effects(user, Next(s, steps[0]), steps[1..])
  }

  function Applied(m: W.Balances, calls: seq<W.Call>): W.Balances
    decreases |calls|
  {
    if calls == [] then m else Applied(W.BalancesAfter(m, calls[0], W.Done), calls[1..])
  }

  lemma {:induction false} AppliedFirst(m: W.Balances, c: W.Call, rest: seq<W.Call>)
    ensures Applied(m, [c] + rest) == Applied(W.BalancesAfter(m, c, W.Done), rest)
  {
    assert ([c] + rest)[1..] == rest;
  }

  /** A read and the write that follows it at once are one atomic credit. */
  lemma ReadThenWriteIsACredit(s: State, caller: nat, amount: int, m: W.Balances, user: string)
    requires Enabled(s, Read(caller, amount)) && user != "" && BalanceOf(m, user) == s.balance
    ensures var u := Next(s, Read(caller, amount));
            Enabled(u, Write(caller))
                && Next(u, Write(caller)).balance == BalanceOf(W.Added(m, user, amount, W.Done), user)
  {
  }

  /**
   A run in which no write is based on a stale read ends with the balance that the same operations give
   when each is one atomic service call.
   */
  lemma {:induction false} WithoutStaleWritesOperationsAreAtomic(s: State, steps: seq<Step>, m: W.Balances,
                                                                 user: string)
    requires Typed(s) && Possible(s, steps) && NoLostUpdate(s, steps) && user != "" && BalanceOf(m, user) == s.balance
    ensures End(s, steps).balance == BalanceOf(Applied(m, Effects(user, s, steps)), user)
    decreases |steps|
  {
    if steps == [] {
    } else {
      var u, rest := Next(s, steps[0]), steps[1..];
      match steps[0]
      case Read(_, _) =>
        assert [] + Effects(user, u, rest) == Effects(user, u, rest);
        WithoutStaleWritesOperationsAreAtomic(u, rest, m, user);
      case Write(c) =>
        var call := W.Credit(user, s.held[c].1);
        AppliedFirst(m, call, Effects(user, u, rest));
        WithoutStaleWritesOperationsAreAtomic(u, rest, W.BalancesAfter(m, call, W.Done), user);
      case Debit(a) =>
        var call := W.Debit(user, a);
        AppliedFirst(m, call, Effects(user, u, rest));
        WithoutStaleWritesOperationsAreAtomic(u, rest, W.BalancesAfter(m, call, W.Done), user);
    }
  }
}
