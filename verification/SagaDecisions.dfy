/**
 What each step decides, told by the fields of the request or event, the balances, the stored rows and the
 outcome of the write: which requests are accepted, which debits are paid, recovered or refused, and what
 is published.
 */
module SagaDecisions {
  import opened Common
  import opened Events
  import opened EventStore
  import opened Payments
  import opened Broker
  import opened Saga
  import opened SagaQueues
  import opened SagaFlow
  import W = Wallets

  /**
   A create is accepted if and only if id, user and service are given and the amount is positive. It then
   stores a row with the request's own terms, appends and publishes the two entry events, and adds one
   workflow delivery; otherwise nothing changes.
   */
  lemma {:induction false} CreateIsAcceptedIff(c: Config, s: State, r: CreateRequest, now: int)
    requires ValidConfig(c) && |s.queues| == c.shards
    ensures var id, t := r.paymentId, CreateStep(c, s, r, now);
            var created := PaymentCreated(id, r.userId, r.amount, r.service, now);
            var initialized := PaymentInitialized(id, r.userId, r.amount, r.service, now);
            var terms := Json(id, r.userId, r.amount, r.service, "", "", now);
            if id != "" && r.userId != "" && r.service != "" && r.amount > 0 then
              && t.world.payments
                 == s.world.payments[id := Payment(id, r.userId, r.amount, r.service, Initialized, "", "")]
              && t.world.log
                 == s.world.log + [Record(id, NamePaymentCreated, terms, now),
                                   Record(id, NamePaymentInitialized, terms, now)]
              && t.world.wallets == s.world.wallets && t.world.views == s.world.views
              && t.queues == PublishAll(c, s.queues, [created, initialized])
              && Mine(c, WorkOf(id), t.queues) == Mine(c, WorkOf(id), s.queues) + [Delivery(initialized, OnInitialized)]
              && t.book.created == s.book.created + [id] && t.book.requests == s.book.requests[id := r]
            else t == s
  {
    var id := r.paymentId;
    if ValidRequest(r) {
      var es := CreateEvents(r, now);
      assert es[1..] == [es[1]];
      assert RecordsOf(id, [es[1]], now) == [RecordOf(id, es[1], now)];
      MineAfterPublishing(c, WorkOf(id), s.queues, es);
      Few(WorkOf(id), NO_HISTORY, es);
    }
  }

  /**
   A credit moves the balance if and only if a user is given, the amount is positive and the write does not
   fail first; it is acknowledged, appended and published if and only if the write is also done.
   */
  lemma {:induction false} CreditIsAcknowledgedIff(c: Config, s: State, user: string, amount: int, write: W.Write,
                                                   now: int)
    requires ValidConfig(c) && |s.queues| == c.shards
    ensures var t, valid := CreditStep(c, s, user, amount, write, now), user != "" && amount > 0;
            && t.world.payments == s.world.payments && t.world.views == s.world.views
            && t.world.wallets
               == (if valid && !write.FailedBefore?
                   then s.world.wallets[user := Wrap64(BalanceOf(s.world.wallets, user) + amount)] else s.world.wallets)
            && if valid && write.Done? then
                 && t.world.log
                    == s.world.log + [Record(user, NameWalletCredited, Json("", user, amount, "", "", "", now), now)]
                 && t.queues == PublishAll(c, s.queues, [WalletCredited(user, amount, now)])
                 && t.book.credits == s.book.credits + [user]
                 && BalanceOf(t.book.credited, user) == BalanceOf(s.book.credited, user) + amount
               else t.world.log == s.world.log && t.queues == s.queues && t.book == s.book
  {
    PublishOne(c, s.queues, WalletCredited(user, amount, now));
  }

  /** The debit can be paid. */
  predicate Payable(e: Event, w: World)
    requires e.WalletDebitRequested?
  {
    e.userId != "" && e.amount > 0 && BalanceOf(w.wallets, e.userId) >= e.amount
  }

  /**
   A debit publishes exactly one event about its payment and user: paid, if it is payable and the write is
   done; recovery, if it is payable, the write failed and this was the first attempt; rejection otherwise,
   saying why. The balance moves if it is payable and the write did not fail first.
   */
  lemma {:induction false} DebitDecides(e: Event, w: World, o: Oracle)
    requires e.WalletDebitRequested?
    ensures var reply := Handle(OnDebit, e, w, o);
            && reply.done && |reply.published| == 1
            && var told := reply.published[0];
            && !told.WalletCredited? && told.paymentId == e.paymentId && told.userId == e.userId && told.at == o.now
            && (told.WalletDebited? <==> Payable(e, w) && o.write.Done?)
            && (told.WalletDebited? ==> told.amount == e.amount)
            && (told.RecoveryRequested? <==> Payable(e, w) && !o.write.Done? && e.attempt == 1)
            && (told.RecoveryRequested? ==>
                  told.action == DebitAction && told.attempts == 1 && told.errorCode == "db_internal"
                  && told.reason == "db: internal")
            && (told.WalletDebitRejected? <==> !told.WalletDebited? && !told.RecoveryRequested?)
            && (told.WalletDebitRejected? ==>
                  told.reason == if e.userId == "" || e.amount <= 0 then "db: invalid\ninvalid request"
                                 else if BalanceOf(w.wallets, e.userId) < e.amount then "insufficient funds"
                                 else "db: internal")
    ensures Handle(OnDebit, e, w, o).world
            == w.(wallets := if Payable(e, w) && !o.write.FailedBefore?
                             then w.wallets[e.userId := BalanceOf(w.wallets, e.userId) - e.amount] else w.wallets)
  {
  }

  /** A refund is told if and only if user and amount are valid and the write is done; else it is an error. */
  lemma {:induction false} RefundDecides(e: Event, w: World, o: Oracle)
    requires e.WalletRefundRequested?
    ensures var reply, valid := Handle(OnRefund, e, w, o), e.userId != "" && e.amount > 0;
            && (reply.done <==> valid && o.write.Done?)
            && reply.published
               == (if reply.done then [WalletRefunded(e.paymentId, e.userId, e.amount, o.now)] else [])
            && reply.world
               == w.(wallets := if valid && !o.write.FailedBefore?
                                then w.wallets[e.userId := Wrap64(BalanceOf(w.wallets, e.userId) + e.amount)]
                                else w.wallets)
  {
  }

  /** A handler given an event of another type fails and does nothing. */
  lemma {:induction false} WrongTypesFail(h: Handler, e: Event, w: World, o: Oracle)
    requires !Gets(h, e) && h !in {ProjectorSink, AuditSink, MetricsSink}
    ensures Handle(h, e, w, o) == Reply(w, [], false)
  {
  }

  /** So does a recovery that is interrupted, of an unknown payment, or of an action nobody knows. */
  lemma {:induction false} HopelessRecoveriesFail(e: Event, w: World, o: Oracle)
    requires e.RecoveryRequested?
    ensures Handle(OnRecovery, e, w, o).done <==> o.sleepOk && e.paymentId in w.payments && !e.action.OtherAction?
    ensures !Handle(OnRecovery, e, w, o).done ==> Handle(OnRecovery, e, w, o) == Reply(w, [], false)
  {
  }

  /** Whatever a handler publishes carries the reading of its clock. */
  lemma {:induction false} EventsCarryTheClock(h: Handler, e: Event, w: World, o: Oracle)
    ensures var es := Handle(h, e, w, o).published;
            forall k :: 0 <= k < |es| ==> es[k].at == o.now
  {
  }

  /** The delivery at the head is the first debit attempt of payment `id`, payable, and its write fails. */
  predicate FirstDebitFails(s: State, t: Step, id: string) {
    && t.Deliver? && t.shard < |s.queues| && s.queues[t.shard] != []
    && var d := s.queues[t.shard][0];
       && d.handler == OnDebit && d.event.WalletDebitRequested? && d.event.paymentId == id
       && d.event.attempt == 1 && Payable(d.event, s.world) && !t.oracle.write.Done?
  }

  ghost function FailedFirstDebits(c: Config, s: State, steps: seq<Step>, t: State, id: string): nat
    requires Run(c, s, steps, t)
    decreases |steps|
  {
    if steps == [] then 0
    else (if FirstDebitFails(s, steps[0], id) then 1 else 0)
         + FailedFirstDebits(c, Next(c, s, steps[0]), steps[1..], t, id)
  }

  /** Handlers other than the debit's never ask for a debit to be recovered. */
  lemma {:induction false} OthersAskForNoDebit(h: Handler, e: Event, w: World, o: Oracle)
    requires h != OnDebit || !e.WalletDebitRequested?
    ensures var es := Handle(h, e, w, o).published;
            forall k :: 0 <= k < |es| ==> !(es[k].RecoveryRequested? && es[k].action == DebitAction)
  {
  }

  lemma {:induction false} NoDebitRecoveryNoted(h: History, es: seq<Event>)
    requires forall k :: 0 <= k < |es| ==> !(es[k].RecoveryRequested? && es[k].action == DebitAction)
    ensures NoteAll(h, es).debitRecoveries == h.debitRecoveries
    decreases |es|
  {
    if es == [] {
    } else {
      NoDebitRecoveryNoted(Note(h, es[0]), es[1..]);
    }
  }

  /** One delivery adds a debit recovery to its payment exactly when it is a failing first debit. */
  lemma {:induction false} RecordedRecovery(d: Delivery, w: World, o: Oracle, h: History)
    ensures Recorded(h, d, o, Handle(d.handler, d.event, w, o).published).debitRecoveries
            == h.debitRecoveries
               + if d.handler == OnDebit && d.event.WalletDebitRequested? && Payable(d.event, w) && !o.write.Done?
                    && d.event.attempt == 1 then 1 else 0
  {
    var es := Handle(d.handler, d.event, w, o).published;
    if d.handler == OnDebit && d.event.WalletDebitRequested? {
      DebitDecides(d.event, w, o);
      var g := h.(debitCalls := h.debitCalls + 1);
      assert es == [es[0]];
      Few(WorkOf(""), g, es);
    } else {
      OthersAskForNoDebit(d.handler, d.event, w, o);
      NoDebitRecoveryNoted(Recorded(h, d, o, []), es);
    }
  }

  lemma {:induction false} StepCountsRecoveries(c: Config, s: State, t: Step, id: string)
    requires Inv(c, s) && Enabled(c, s, t) && FreshStep(s, t)
    ensures HistoryOf(Next(c, s, t).book, id).debitRecoveries
            == HistoryOf(s.book, id).debitRecoveries + if FirstDebitFails(s, t, id) then 1 else 0
  {
    match t
    case Create(r, now) =>
      NoDebitRecoveryNoted(HistoryOf(s.book, r.paymentId), EventsOf(s.world.payments, Payments.Create(r), now));
    case Credit(u, a, w, now) =>
    case Deliver(i, o) =>
      var d := s.queues[i][0];
      if !d.event.WalletCredited? {
        RecordedRecovery(d, s.world, o, HistoryOf(s.book, d.event.paymentId));
      }
  }

  lemma {:induction false} RecoveriesCounted(c: Config, s: State, steps: seq<Step>, t: State, id: string)
    requires Inv(c, s) && Run(c, s, steps, t)
    ensures HistoryOf(t.book, id).debitRecoveries
            == HistoryOf(s.book, id).debitRecoveries + FailedFirstDebits(c, s, steps, t, id)
    decreases |steps|
  {
    if steps == [] {
    } else {
      StepCountsRecoveries(c, s, steps[0], id);
      StepKeepsInv(c, s, steps[0]);
      RecoveriesCounted(c, Next(c, s, steps[0]), steps[1..], t, id);
    }
  }

  /**
   In every run a payment's debit is sent to recovery as often as its first attempt was payable and the
   write failed, which is at most once: never for lack of funds.
   */
  lemma {:induction false} DebitsAreRecoveredForFailedWritesOnly(c: Config, wallets: map<string, int>, steps: seq<Step>,
                                                                 t: State, id: string)
    requires Run(c, Start(c, wallets), steps, t)
    ensures HistoryOf(t.book, id).debitRecoveries == FailedFirstDebits(c, Start(c, wallets), steps, t, id) <= 1
  {
    StartInv(c, wallets);
    RecoveriesCounted(c, Start(c, wallets), steps, t, id);
    RunKeepsInv(c, Start(c, wallets), steps, t);
    if id in t.world.payments {
      CoherentLimits(t.world.payments[id], Mine(c, WorkOf(id), t.queues), HistoryOf(t.book, id));
    } else {
      assert id !in t.book.histories;
    }
  }
}
