/** What a stored payment says: the terms of its request, and the verdict on it. */
module SagaRows {
  import opened Events
  import opened Payments
  import opened Broker
  import opened Saga
  import opened SagaQueues
  import opened SagaFlow

  /** The row has the terms of the request. */
  predicate Terms(p: Payment, r: CreateRequest) {
    p.id == r.paymentId && p.userId == r.userId && p.amount == r.amount && p.service == r.service
  }

  ghost predicate AllTerms(s: State) {
    forall id :: id in s.world.payments ==> id in s.book.requests && Terms(s.world.payments[id], s.book.requests[id])
  }

  /** The same payments, with the same terms. */
  ghost predicate KeepsTerms(t: Table, u: Table) {
    && (forall id :: id in u <==> id in t)
    && (forall id :: id in u ==>
          u[id].(status := t[id].status, reason := t[id].reason, gatewayId := t[id].gatewayId) == t[id])
  }

  lemma {:induction false} MarksKeepTerms(w: World, call: Call, now: int)
    requires !call.Create?
    ensures KeepsTerms(w.payments, Perform(w, call, now).world.payments)
  {
  }

  /** No handler changes the terms of a payment, or adds or removes one. */
  lemma {:induction false} HandlersKeepTerms(h: Handler, e: Event, w: World, o: Oracle)
    ensures KeepsTerms(w.payments, Handle(h, e, w, o).world.payments)
  {
    if h == OnChargeSucceeded && e.PaymentChargeSucceeded? {
      MarksKeepTerms(w, MarkSucceeded(e.paymentId, e.gatewayId), o.now);
    } else if h == OnChargeFailed && e.PaymentChargeFailed? {
      MarksKeepTerms(w, MarkFailed(e.paymentId, e.reason), o.now);
    } else if h == OnDebitRejected && e.WalletDebitRejected? {
      MarksKeepTerms(w, MarkRejected(e.paymentId, e.reason), o.now);
    } else if h == OnDebited && e.WalletDebited? {
      MarksKeepTerms(w, MarkPending(e.paymentId), o.now);
    } else {
      assert Handle(h, e, w, o).world.payments == w.payments;
    }
  }

  lemma {:induction false} StepKeepsTerms(c: Config, s: State, t: Step)
    requires AllTerms(s) && ValidConfig(c) && |s.queues| == c.shards && Enabled(c, s, t)
    ensures AllTerms(Next(c, s, t))
  {
    match t
    case Create(r, now) =>
    case Credit(u, a, w, now) =>
    case Deliver(i, o) =>
      HandlersKeepTerms(s.queues[i][0].handler, s.queues[i][0].event, s.world, o);
  }

  lemma {:induction false} RunKeepsTerms(c: Config, s: State, steps: seq<Step>, t: State)
    requires AllTerms(s) && Run(c, s, steps, t)
    ensures AllTerms(t)
    decreases |steps|
  {
    if steps == [] {
    } else {
      StepKeepsTerms(c, s, steps[0]);
      RunKeepsTerms(c, Next(c, s, steps[0]), steps[1..], t);
    }
  }

  /**
   In every reachable state each stored payment has the user, amount and service of the request that created
   it. Its reason and gateway id are empty until there is a verdict; then a succeeded payment has the
   gateway's id and no reason, a rejected or failed one the reason given and no gateway id.
   */
  lemma {:induction false} RowsTellTheRequestAndTheVerdict(c: Config, wallets: map<string, int>, steps: seq<Step>,
                                                           t: State, id: string)
    requires Run(c, Start(c, wallets), steps, t) && id in t.world.payments
    ensures id in t.book.requests
    ensures var p, r, h := t.world.payments[id], t.book.requests[id], HistoryOf(t.book, id);
            && p.id == id == r.paymentId && p.userId == r.userId && p.amount == r.amount && p.service == r.service
            && (p.status in {Initialized, Pending} ==> p.reason == "" && p.gatewayId == "")
            && (p.status == Succeeded ==> p.reason == "" && p.gatewayId == h.verdict)
            && (p.status in {Rejected, Failed} ==> p.reason == h.verdict && p.gatewayId == "")
            && p.status != NoStatus
  {
    StartInv(c, wallets);
    RunKeepsInv(c, Start(c, wallets), steps, t);
    RunKeepsTerms(c, Start(c, wallets), steps, t);
    assert Coherent(t.world.payments[id], Mine(c, WorkOf(id), t.queues), HistoryOf(t.book, id));
    CoherentRows(t.world.payments[id], Mine(c, WorkOf(id), t.queues), HistoryOf(t.book, id));
  }

  lemma {:induction false} CoherentRows(p: Payment, work: seq<Delivery>, h: History)
    requires Coherent(p, work, h)
    ensures Judged(p, h) && p.status != NoStatus
  {
  }
}
