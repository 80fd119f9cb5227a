/**
 The saga's handlers as objects: cmd/consumers/handlers and the web handler `Credit`. Each does, over the
 service objects, what the transition system says it does.
 */
module Handlers {
  import opened Common
  import opened Events
  import opened EventStore
  import opened Payments
  import opened ReadModels
  import opened Broker
  import opened Saga
  import ChargeHandler
  import G = Gateway
  import W = Wallets

  /** What a handler can see of the services behind it. */
  function Seen(wallets: W.Balances, payments: Table, log: seq<Record>): World {
    World(wallets, payments, log, NO_VIEWS)
  }

  class WalletEvent {
    const bus: Publisher
    const wallet: W.Service

    constructor (bus: Publisher, wallet: W.Service)
      ensures this.bus == bus && this.wallet == wallet
    {
      this.bus, this.wallet := bus, wallet;
    }

    method HandlePaymentInitialized(e: Event, o: Oracle) returns (ok: bool)
      modifies bus
      ensures var reply := Handle(OnInitialized, e, Seen(map[], map[], []), o);
              ok == reply.done && bus.published == old(bus.published) + reply.published
    {
      if !e.PaymentInitialized? {
        return false;
      }
      bus.Publish(WalletDebitRequested(e.paymentId, e.userId, e.amount, 1, o.now));
      ok := true;
    }

    /** `ioOk` is how persisting the wallets goes; the repository decides what a failure leaves behind. */
    method HandleWalletDebitRequested(e: Event, ioOk: bool, now: int) returns (ok: bool)
      requires W.AllInt64(wallet.repo.Contents())
      modifies bus, wallet.repo.Objects()
      ensures var reply := Handle(OnDebit, e, Seen(old(wallet.repo.Contents()), map[], []),
                                  Oracle(wallet.repo.Ends(ioOk), [], true, now));
              && ok == reply.done && wallet.repo.Contents() == reply.world.wallets
              && bus.published == old(bus.published) + reply.published
    {
      if !e.WalletDebitRequested? {
        return false;
      }
      var err := wallet.Debit(e.userId, e.amount, ioOk);
      if !err.Ok? {
        if err.Internal? && e.attempt == 1 {
          bus.Publish(RecoveryRequested(e.paymentId, e.userId, DebitAction, W.ErrorText(err), "db_internal",
                                        e.attempt, now));
          return true;
        }
        bus.Publish(WalletDebitRejected(e.paymentId, e.userId, W.ErrorText(err), now));
        return true;
      }
      bus.Publish(WalletDebited(e.paymentId, e.userId, e.amount, now));
      ok := true;
    }

    method HandleWalletRefundRequested(e: Event, ioOk: bool, now: int) returns (ok: bool)
      modifies bus, wallet.repo.Objects()
      ensures var reply := Handle(OnRefund, e, Seen(old(wallet.repo.Contents()), map[], []),
                                  Oracle(wallet.repo.Ends(ioOk), [], true, now));
              && ok == reply.done && wallet.repo.Contents() == reply.world.wallets
              && bus.published == old(bus.published) + reply.published
    {
      if !e.WalletRefundRequested? {
        return false;
      }
      var err := wallet.Add(e.userId, e.amount, ioOk);
      if !err.Ok? {
        return false;
      }
      bus.Publish(WalletRefunded(e.paymentId, e.userId, e.amount, now));
      ok := true;
    }
  }

  /** Whatever the charge handler heard in a run, the transition system has that run as a step. */
  lemma ChargeRunIsAStep(e: Event, heard: seq<G.Answer>, w: World, o: Oracle)
    requires e.PaymentChargeRequested? && ChargeHandler.Complete(e.attempt, heard) && o.answers == heard
    ensures Handle(OnCharge, e, w, o) == Reply(w, [ChargeHandler.ReplyTo(e, heard, o.now)], true)
  {
    assert heard == heard[0..|heard|];
    ChargeHandler.RunsAreDeterministic(e.attempt, heard, heard, 0);
  }

  /** The payment service and the bus it shares with its handlers. */
  ghost predicate Wired(payment: Service, bus: Publisher)
    reads payment.store, payment.repository
  {
    payment.Valid() && payment.bus == bus
  }

  class PaymentFlowEvent {
    const bus: Publisher
    const payment: Service

    constructor (bus: Publisher, payment: Service)
      ensures this.bus == bus && this.payment == payment
    {
      this.bus, this.payment := bus, payment;
    }

    method HandleWalletDebited(e: Event, o: Oracle) returns (ok: bool)
      requires Wired(payment, bus)
      modifies bus, payment.repository, payment.store
      ensures Wired(payment, bus)
      ensures var reply := Handle(OnDebited, e,
                                  Seen(map[], old(payment.repository.Contents()), old(payment.store.log)), o);
              && ok == reply.done && bus.published == old(bus.published) + reply.published
              && payment.repository.Contents() == reply.world.payments && payment.store.log == reply.world.log
    {
      if !e.WalletDebited? {
        return false;
      }
      ok := payment.Mark(MarkPending(e.paymentId), o.now);
      if ok {
        var p := payment.Get(e.paymentId);
        bus.Publish(PaymentChargeRequested(p.value.id, p.value.userId, p.value.amount, p.value.service, 1, o.now));
      }
    }

    method HandleWalletDebitRejected(e: Event, o: Oracle) returns (ok: bool)
      requires Wired(payment, bus)
      modifies bus, payment.repository, payment.store
      ensures Wired(payment, bus)
      ensures var reply := Handle(OnDebitRejected, e,
                                  Seen(map[], old(payment.repository.Contents()), old(payment.store.log)), o);
              && ok == reply.done && bus.published == old(bus.published) + reply.published
              && payment.repository.Contents() == reply.world.payments && payment.store.log == reply.world.log
    {
      if !e.WalletDebitRejected? {
        return false;
      }
      ok := payment.Mark(MarkRejected(e.paymentId, e.reason), o.now);
    }
  }

  class PaymentResultEvent {
    const bus: Publisher
    const payment: Service

    constructor (bus: Publisher, payment: Service)
      ensures this.bus == bus && this.payment == payment
    {
      this.bus, this.payment := bus, payment;
    }

    method HandleChargeSucceeded(e: Event, o: Oracle) returns (ok: bool)
      requires Wired(payment, bus)
      modifies bus, payment.repository, payment.store
      ensures Wired(payment, bus)
      ensures var reply := Handle(OnChargeSucceeded, e,
                                  Seen(map[], old(payment.repository.Contents()), old(payment.store.log)), o);
              && ok == reply.done && bus.published == old(bus.published) + reply.published
              && payment.repository.Contents() == reply.world.payments && payment.store.log == reply.world.log
    {
      if !e.PaymentChargeSucceeded? {
        return false;
      }
      ok := payment.Mark(MarkSucceeded(e.paymentId, e.gatewayId), o.now);
    }

    method HandleChargeFailed(e: Event, o: Oracle) returns (ok: bool)
      requires Wired(payment, bus)
      modifies bus, payment.repository, payment.store
      ensures Wired(payment, bus)
      ensures var reply := Handle(OnChargeFailed, e,
                                  Seen(map[], old(payment.repository.Contents()), old(payment.store.log)), o);
              && ok == reply.done && bus.published == old(bus.published) + reply.published
              && payment.repository.Contents() == reply.world.payments && payment.store.log == reply.world.log
    {
      if !e.PaymentChargeFailed? {
        return false;
      }
      ok := payment.Mark(MarkFailed(e.paymentId, e.reason), o.now);
      if ok {
        var p := payment.Get(e.paymentId);
        bus.Publish(WalletRefundRequested(p.value.id, p.value.userId, p.value.amount, o.now));
      }
    }
  }

  class RecoveryEvent {
    const bus: Publisher
    const payment: Service

    constructor (bus: Publisher, payment: Service)
      ensures this.bus == bus && this.payment == payment
    {
      this.bus, this.payment := bus, payment;
    }

    method HandleRecoveryRequested(e: Event, o: Oracle) returns (ok: bool)
      requires Wired(payment, bus)
      modifies bus
      ensures Wired(payment, bus)
      ensures var reply := Handle(OnRecovery, e, Seen(map[], payment.repository.Contents(), payment.store.log), o);
              ok == reply.done && bus.published == old(bus.published) + reply.published
    {
      if !e.RecoveryRequested? || !o.sleepOk {
        return false;
      }
      var found := payment.Get(e.paymentId);
      if found.None? {
        return false;
      }
      var p := found.value;
      match e.action {
        case ChargeAction =>
          bus.Publish(PaymentChargeRequested(p.id, p.userId, p.amount, p.service, e.attempts + 1, o.now));
          ok := true;
        case DebitAction =>
          bus.Publish(WalletDebitRequested(p.id, p.userId, p.amount, e.attempts + 1, o.now));
          ok := true;
        case OtherAction(_) =>
          ok := false;
      }
    }
  }

  /** The web handler `Credit`, after decoding: change the balance, then append and publish. */
  method CreditHandler(wallet: W.Service, store: Store, bus: Publisher, user: string, amount: int, ioOk: bool, now: int)
    returns (err: W.Outcome)
    requires store.Valid()
    modifies wallet.repo.Objects(), store, bus
    ensures store.Valid()
    ensures err == W.AddOutcome(user, amount, wallet.repo.Ends(ioOk))
    ensures wallet.repo.Contents() == W.Added(old(wallet.repo.Contents()), user, amount, wallet.repo.Ends(ioOk))
    ensures store.log
            == old(store.log) + if err.Ok? then [RecordOf(user, WalletCredited(user, amount, now), now)] else []
    ensures bus.published == old(bus.published) + if err.Ok? then [WalletCredited(user, amount, now)] else []
  {
    err := wallet.Add(user, amount, ioOk);
    if err.Ok? {
      var credited := WalletCredited(user, amount, now);
      store.Append(user, credited, now, true);
      bus.Publish(credited);
    }
  }
}
