/**
 What a restart shows of the wallets. Debits and refunds are published but never appended to the store,
 so a replay rebuilds the acknowledged credits and nothing else.
 */
module SagaRestart {
  import opened Common
  import opened Events
  import opened EventStore
  import opened Payments
  import opened ReadModels
  import opened EventSourcing
  import opened Broker
  import opened Saga
  import opened SagaQueues
  import opened SagaFlow
  import opened SagaReplay
  import opened SagaMoney

  /** The views a projector rebuilds from the store. */
  function Replayed(log: seq<Record>): Views {
    Project(NO_VIEWS, Decoding(log))
  }

  /** What the projector shows of every wallet are the credits. */
  ghost predicate CreditsShown(v: Views, credited: map<string, int>) {
    forall user :: WalletAt(v, user).balance == Wrap64(BalanceOf(credited, user))
  }

  ghost predicate ShowsCredits(log: seq<Record>, credited: map<string, int>) {
    CreditsShown(Replayed(log), credited)
  }

  lemma {:induction false} PaymentEventsKeepWallets(v: Views, es: seq<Event>)
    requires forall k :: 0 <= k < |es| ==> !TouchesWallet(es[k])
    ensures Project(v, es).wallets == v.wallets
    decreases |es|
  {
    if es == [] {
    } else {
      PaymentEventsKeepWallets(After(v, es[0]), es[1..]);
    }
  }

  /** A payment call appends no wallet event. */
  lemma {:induction false} CallsAppendNoWalletEvent(t: Table, call: Call, now: int, log: seq<Record>,
                                                    credited: map<string, int>)
    requires Decodes(log) && ShowsCredits(log, credited)
    ensures ShowsCredits(LogAfter(log, t, call, now), credited)
  {
    var es := EventsOf(t, call, now);
    EventsOfAreProjected(t, call, now);
    AppendThenReplay(log, Subject(call), es, now);
    PaymentEventsKeepWallets(Replayed(log), es);
    forall user ensures WalletAt(Replayed(LogAfter(log, t, call, now)), user).balance
        == Wrap64(BalanceOf(credited, user)) {
      assert WalletAt(Replayed(log), user).balance == Wrap64(BalanceOf(credited, user));
    }
  }

  lemma {:induction false} ACreditIsShown(v: Views, user: string, amount: int, now: int, credited: map<string, int>)
    requires CreditsShown(v, credited)
    ensures CreditsShown(After(v, WalletCredited(user, amount, now)),
                         credited[user := BalanceOf(credited, user) + amount])
  {
    var more := credited[user := BalanceOf(credited, user) + amount];
    WrapOnce(BalanceOf(credited, user), amount);
    forall x ensures WalletAt(After(v, WalletCredited(user, amount, now)), x).balance == Wrap64(BalanceOf(more, x)) {
      assert WalletAt(v, x).balance == Wrap64(BalanceOf(credited, x));
    }
  }

  lemma {:induction false} ACreditIsReplayed(log: seq<Record>, user: string, amount: int, now: int,
                                             credited: map<string, int>)
    requires Decodes(log) && ShowsCredits(log, credited)
    ensures ShowsCredits(log + [RecordOf(user, WalletCredited(user, amount, now), now)],
                         credited[user := BalanceOf(credited, user) + amount])
  {
    var e := WalletCredited(user, amount, now);
    assert [e][1..] == [] && RecordsOf(user, [e], now) == [RecordOf(user, e, now)];
    AppendThenReplay(log, user, [e], now);
    assert Project(Replayed(log), [e]) == After(Replayed(log), e);
    ACreditIsShown(Replayed(log), user, amount, now, credited);
  }

  lemma {:induction false} DeliveryShowsCredits(c: Config, s: State, i: nat, o: Oracle)
    requires Inv(c, s) && Decodes(s.world.log) && ShowsCredits(s.world.log, s.book.credited)
    requires i < |s.queues| && s.queues[i] != []
    ensures ShowsCredits(DeliverStep(c, s, i, o).world.log, s.book.credited)
  {
    var d := s.queues[i][0];
    assert Placed(c, s.world.payments, i, d);
    if IsWork(d.handler) {
      WorkDoes(d, s.world, o);
      if CallOf(d).Some? {
        CallsAppendNoWalletEvent(s.world.payments, CallOf(d).value, o.now, s.world.log, s.book.credited);
      }
    } else {
      SinkDelivered(c, s, i, o);
    }
  }

  lemma {:induction false} StepShowsCredits(c: Config, s: State, t: Step)
    requires Inv(c, s) && Decodes(s.world.log) && ShowsCredits(s.world.log, s.book.credited) && Enabled(c, s, t)
    ensures ShowsCredits(Next(c, s, t).world.log, Next(c, s, t).book.credited)
  {
    match t
    case Create(r, now) =>
      CallsAppendNoWalletEvent(s.world.payments, Payments.Create(r), now, s.world.log, s.book.credited);
    case Credit(u, a, w, now) => ACreditIsReplayed(s.world.log, u, a, now, s.book.credited);
    case Deliver(i, o) => DeliveryShowsCredits(c, s, i, o);
  }

  lemma {:induction false} RunShowsCredits(c: Config, s: State, steps: seq<Step>, t: State)
    requires Inv(c, s) && Faithful(c, s) && ShowsCredits(s.world.log, s.book.credited) && Run(c, s, steps, t)
    ensures ShowsCredits(t.world.log, t.book.credited)
    decreases |steps|
  {
    if steps == [] {
    } else {
      StepShowsCredits(c, s, steps[0]);
      StepKeepsInv(c, s, steps[0]);
      StepFaithful(c, s, steps[0]);
      RunShowsCredits(c, Next(c, s, steps[0]), steps[1..], t);
    }
  }

  /** In every run, whatever the writes do, the wallet balances a replay rebuilds are the acknowledged credits. */
  lemma {:induction false} RestartShowsTheCredits(c: Config, initial: map<string, int>, steps: seq<Step>, t: State)
    requires Run(c, Start(c, initial), steps, t)
    ensures ShowsCredits(t.world.log, t.book.credited)
  {
    StartInv(c, initial);
    StartFaithful(c, initial);
    RunShowsCredits(c, Start(c, initial), steps, t);
  }

  /**
   A replay therefore agrees with the wallet repository for a user exactly when what that user's payments
   hold equals the initial balance: with an initial balance of zero, when no succeeded payment keeps
   money and none is in flight.
   */
  lemma {:induction false} RestartAgreesIffNothingIsHeld(c: Config, initial: map<string, int>, steps: seq<Step>,
                                                         t: State, user: string)
    requires Run(c, Start(c, initial), steps, t) && NonNegative(initial) && Fits(initial, t)
    requires Untorn(c, Start(c, initial), steps, t)
    ensures WalletAt(Replayed(t.world.log), user).balance == BalanceOf(t.world.wallets, user)
            <==> HeldBy(t.book.created, t.world.payments, t.book, user) == BalanceOf(initial, user)
  {
    RestartShowsTheCredits(c, initial, steps, t);
    assert WalletAt(Replayed(t.world.log), user).balance == Wrap64(BalanceOf(t.book.credited, user));
    CreditsFit(c, initial, steps, t, user);
  }

  /** What was credited to a user is an int64 value, and accounts for the balance. */
  lemma {:induction false} CreditsFit(c: Config, initial: map<string, int>, steps: seq<Step>, t: State, user: string)
    requires Run(c, Start(c, initial), steps, t) && NonNegative(initial) && Fits(initial, t)
    requires Untorn(c, Start(c, initial), steps, t)
    ensures IsInt64(BalanceOf(t.book.credited, user))
    ensures BalanceOf(t.world.wallets, user) + HeldBy(t.book.created, t.world.payments, t.book, user)
            == BalanceOf(initial, user) + BalanceOf(t.book.credited, user)
  {
    StartInv(c, initial);
    ConservedFrom(c, initial, Start(c, initial), steps, t);
    BalanceIsCovered(c, initial, t, user);
    CreditsOnlyGrow(c, initial, Start(c, initial), steps, t);
    assert BalanceOf(initial, user) + BalanceOf(t.book.credited, user) <= MAX_INT64;
    assert BalanceOf(initial, user) + BalanceOf(Start(c, initial).book.credited, user) <= MAX_INT64;
  }

  /** The two can differ: with an initial balance and nothing done yet, a replay shows an empty wallet. */
  lemma {:induction false} RestartForgetsTheInitialBalance(c: Config, initial: map<string, int>, user: string)
    requires ValidConfig(c) && BalanceOf(initial, user) > 0
    ensures var s := Start(c, initial);
            Run(c, s, [], s) && WalletAt(Replayed(s.world.log), user).balance == 0 < BalanceOf(s.world.wallets, user)
  {
  }
}
