/**
 The worst case is reached: a payment whose first debit fails, whose five first charges time out and whose
 last one does too makes 2 debit attempts, 6 charge calls and both recoveries, and causes 31 deliveries.
 */
module SagaWorst {
  import opened Common
  import opened Events
  import opened Payments
  import opened Broker
  import opened Saga
  import opened SagaQueues
  import opened SagaFlow
  import opened SagaRank
  import opened SagaLiveness
  import ChargeHandler
  import SagaRows
  import G = Gateway
  import W = Wallets

  const TIMED_OUT := G.Refused(G.Error({G.Timeout}, "gateway timeout"))
  const TIMEOUTS := [TIMED_OUT, TIMED_OUT, TIMED_OUT, TIMED_OUT, TIMED_OUT]

  /** Every first debit fails before the balance changes, and every charge times out. */
  function Worst(d: Delivery): Oracle {
    var first := d.handler == OnDebit && d.event.WalletDebitRequested? && d.event.attempt == 1;
    Oracle(if first then W.FailedBefore else W.Done, TIMEOUTS, true, 0)
  }

  const WORST: Environment := (n, d) => Worst(d)

  /** Both debit attempts are behind, the first of them recovered. */
  predicate DebitedLate(h: History) {
    h.debitRecoveries == 1 && h.debitCalls == 2
  }

  /** All six charge calls are behind. */
  predicate ChargedOut(h: History) {
    DebitedLate(h) && h.chargeRecoveries == 1 && h.chargeCalls == 6
  }

  /** The payment takes the worst course. */
  predicate OnCourse(p: Payment, work: seq<Delivery>, h: History, wallets: map<string, int>) {
    if work == [] then p.status == Failed && ChargedOut(h)
    else
      var d := work[0];
      match d.handler
      case OnInitialized => BalanceOf(wallets, p.userId) >= p.amount
      case OnDebit => BalanceOf(wallets, p.userId) >= p.amount
      case OnDebited => DebitedLate(h)
      case OnCharge => DebitedLate(h) && (h.chargeRecoveries == 1 ==> h.chargeCalls == 5)
      case OnChargeFailed => ChargedOut(h)
      case OnRefund => ChargedOut(h)
      case OnRecovery =>
        if d.event.RecoveryRequested? && d.event.action.DebitAction? then BalanceOf(wallets, p.userId) >= p.amount
        else DebitedLate(h) && h.chargeCalls == 5
      case _ => false
  }

  /** What handling the outstanding delivery leaves is on course too. */
  ghost predicate StaysOnCourse(d: Delivery, h: History, w: World, id: string) {
    var reply := Handle(d.handler, d.event, w, Worst(d));
    && reply.done && id in reply.world.payments
    && OnCourse(reply.world.payments[id], AllFrom(WorkOf(id), reply.published),
                Recorded(h, d, Worst(d), reply.published), reply.world.wallets)
  }

  ghost predicate Coming(p: Payment, d: Delivery, h: History, w: World, id: string) {
    Ready(p, d, h, w, id) && OnCourse(p, [d], h, w.wallets)
  }

  /** A charge that always times out: five calls and recovery, or at attempt 6 one call and failure. */
  lemma {:induction false} TimeoutsHeard(e: Event)
    requires e.PaymentChargeRequested? && e.attempt in {1, 6}
    ensures var heard := ChargeHandler.Heard(e.attempt, TIMEOUTS, 0);
            |heard| == (if e.attempt == 1 then 5 else 1) && heard[|heard| - 1] == TIMED_OUT
  {
    var heard := ChargeHandler.Heard(e.attempt, TIMEOUTS, 0);
    ChargeHandler.HeardIsComplete(e.attempt, TIMEOUTS, 0);
    ChargeHandler.RunOutcome(e, heard, 0, ChargeHandler.Slept(e.attempt, |heard| - 1));
    ChargeHandler.SentinelsDecideRetries(e.attempt, heard);
    assert heard[|heard| - 1] == G.Scripted(TIMEOUTS, |heard| - 1);
    assert G.Timeout in {G.Timeout} * {G.Timeout, G.Server, G.DeadlineExceeded, G.CircuitOpen};
  }

  lemma {:induction false} ChargeOnCourse(p: Payment, d: Delivery, h: History, w: World, id: string)
    requires d.handler == OnCharge && Coming(p, d, h, w, id)
    ensures StaysOnCourse(d, h, w, id)
  {
    var heard := ChargeHandler.Heard(d.event.attempt, TIMEOUTS, 0);
    var r := ChargeHandler.ReplyTo(d.event, heard, 0);
    TimeoutsHeard(d.event);
    Few(WorkOf(id), h.(chargeCalls := h.chargeCalls + |heard|), [r]);
  }

  lemma {:induction false} DebitOnCourse(p: Payment, d: Delivery, h: History, w: World, id: string)
    requires d.handler == OnDebit && Coming(p, d, h, w, id)
    ensures StaysOnCourse(d, h, w, id)
  {
    var reply := HandleDebit(d.event, w, Worst(d));
    assert reply.published == [reply.published[0]];
    Few(WorkOf(id), h.(debitCalls := h.debitCalls + 1), reply.published);
  }

  lemma {:induction false} RequestOnCourse(p: Payment, d: Delivery, h: History, w: World, id: string)
    requires d.handler in {OnInitialized, OnRecovery, OnRefund} && Coming(p, d, h, w, id)
    ensures StaysOnCourse(d, h, w, id)
  {
    Few(WorkOf(id), h, Handle(d.handler, d.event, w, Worst(d)).published);
  }

  lemma {:induction false} DebitedOnCourse(p: Payment, d: Delivery, h: History, w: World, id: string)
    requires d.handler == OnDebited && Coming(p, d, h, w, id)
    ensures StaysOnCourse(d, h, w, id)
  {
    var es := Handle(d.handler, d.event, w, Worst(d)).published;
    assert es == [PaymentPending(id, p.userId, 0), PaymentChargeRequested(id, p.userId, p.amount, p.service, 1, 0)];
    Few(WorkOf(id), h, es);
  }

  lemma {:induction false} FailureOnCourse(p: Payment, d: Delivery, h: History, w: World, id: string)
    requires d.handler == OnChargeFailed && Coming(p, d, h, w, id)
    ensures StaysOnCourse(d, h, w, id)
  {
    var es := Handle(d.handler, d.event, w, Worst(d)).published;
    assert es == [PaymentFailed(id, p.userId, d.event.reason, 0), WalletRefundRequested(id, p.userId, p.amount, 0)];
    Few(WorkOf(id), h, es);
  }

  lemma {:induction false} WorkStaysOnCourse(p: Payment, d: Delivery, h: History, w: World, id: string)
    requires Coming(p, d, h, w, id)
    ensures StaysOnCourse(d, h, w, id)
  {
    match d.handler
    case OnCharge => ChargeOnCourse(p, d, h, w, id);
    case OnDebit => DebitOnCourse(p, d, h, w, id);
    case OnDebited => DebitedOnCourse(p, d, h, w, id);
    case OnChargeFailed => FailureOnCourse(p, d, h, w, id);
    case _ => RequestOnCourse(p, d, h, w, id);
  }

  /** The only payment is `id`, and it is on course. */
  ghost predicate Heading(c: Config, s: State, id: string) {
    && Inv(c, s) && s.world.payments.Keys == {id}
    && OnCourse(s.world.payments[id], Mine(c, WorkOf(id), s.queues), HistoryOf(s.book, id), s.world.wallets)
  }

  /** What is outstanding once the one outstanding delivery is handled. */
  lemma {:induction false} Outstanding(c: Config, s: State, i: nat, o: Oracle, id: string)
    requires ValidConfig(c) && |s.queues| == c.shards && i < |s.queues| && s.queues[i] != [] && id != ""
    requires Mine(c, WorkOf(id), Taken(s.queues, i)) == [] && Completes(s, i, o)
    ensures var es := Handle(s.queues[i][0].handler, s.queues[i][0].event, s.world, o).published;
            Mine(c, WorkOf(id), DeliverStep(c, s, i, o).queues) == AllFrom(WorkOf(id), es)
  {
    var es := Handle(s.queues[i][0].handler, s.queues[i][0].event, s.world, o).published;
    MineAfterPublishing(c, WorkOf(id), Taken(s.queues, i), es);
    assert [] + AllFrom(WorkOf(id), es) == AllFrom(WorkOf(id), es);
  }

  lemma {:induction false} WorkHeads(c: Config, s: State, i: nat, id: string)
    requires Heading(c, s, id) && i < |s.queues| && s.queues[i] != [] && IsWork(s.queues[i][0].handler)
    ensures Heading(c, DeliverStep(c, s, i, Worst(s.queues[i][0])), id)
  {
    var d := s.queues[i][0];
    HeadIsTheWork(c, s, i);
    MineAfterTaking(c, WorkOf(id), s.queues, i);
    assert Mine(c, WorkOf(id), s.queues) == [d];
    WorkStaysOnCourse(s.world.payments[id], d, HistoryOf(s.book, id), s.world, id);
    Outstanding(c, s, i, Worst(d), id);
    SagaRows.HandlersKeepTerms(d.handler, d.event, s.world, Worst(d));
    StepKeepsInv(c, s, Deliver(i, Worst(d)));
  }

  lemma {:induction false} SinkHeads(c: Config, s: State, i: nat, id: string)
    requires Heading(c, s, id) && i < |s.queues| && s.queues[i] != [] && !IsWork(s.queues[i][0].handler)
    ensures Heading(c, DeliverStep(c, s, i, Worst(s.queues[i][0])), id)
  {
    var o := Worst(s.queues[i][0]);
    assert Placed(c, s.world.payments, i, s.queues[i][0]);
    SinkDelivered(c, s, i, o);
    MineAfterTaking(c, WorkOf(id), s.queues, i);
    StepKeepsInv(c, s, Deliver(i, o));
  }

  lemma {:induction false} ServingHeads(c: Config, s: State, steps: seq<Step>, t: State, k: nat, id: string)
    requires Heading(c, s, id) && Run(c, s, steps, t) && Serves(c, s, steps, t, WORST, k)
    ensures Heading(c, t, id)
    decreases |steps|
  {
    if steps == [] {
    } else {
      var i := steps[0].shard;
      if IsWork(s.queues[i][0].handler) { WorkHeads(c, s, i, id); } else { SinkHeads(c, s, i, id); }
      ServingHeads(c, Next(c, s, steps[0]), steps[1..], t, k + 1, id);
    }
  }

  const ONE: map<string, int> := map["u" := 1]
  const REQUEST := CreateRequest("p", "u", 1, "s")

  lemma {:induction false} CreatedHeads(c: Config)
    requires ValidConfig(c)
    ensures Heading(c, CreateStep(c, Start(c, ONE), REQUEST, 0), "p")
  {
    var s, es := Start(c, ONE), CreateEvents(REQUEST, 0);
    StartInv(c, ONE);
    CreateKeepsInv(c, s, REQUEST, 0);
    MineAfterPublishing(c, WorkOf("p"), s.queues, es);
    Few(WorkOf("p"), NO_HISTORY, es);
    assert Mine(c, WorkOf("p"), CreateStep(c, s, REQUEST, 0).queues) == [Delivery(es[1], OnInitialized)];
  }

  lemma {:induction false} CreateThen(c: Config, rest: seq<Step>, t: State)
    requires ValidConfig(c) && Run(c, CreateStep(c, Start(c, ONE), REQUEST, 0), rest, t)
    ensures Run(c, Start(c, ONE), [Step.Create(REQUEST, 0)] + rest, t)
  {
    assert ([Step.Create(REQUEST, 0)] + rest)[1..] == rest;
  }

  /** On course and at rest, every limit is reached. */
  lemma {:induction false} AtTheEnd(c: Config, steps: seq<Step>, t: State)
    requires Run(c, Start(c, ONE), steps, t) && Quiescent(t) && Heading(c, t, "p")
    ensures t.world.payments["p"].status == Failed
    ensures var h := HistoryOf(t.book, "p");
            && h.deliveries == 31 && h.debitCalls == 2 && h.chargeCalls == 6
            && h.debitRecoveries == 1 && h.chargeRecoveries == 1
  {
    AllOrNothingAtRest(c, ONE, steps, t, "p");
    assert t.queues[Shard(c, "p")] == [];
    assert Mine(c, WorkOf("p"), t.queues) == [];
  }

  /** With any shards and any hash, some run of one payment reaches every limit. */
  lemma {:induction false} EveryLimitIsReached(c: Config) returns (steps: seq<Step>, t: State)
    requires ValidConfig(c)
    ensures Run(c, Start(c, ONE), steps, t) && Quiescent(t) && t.world.payments.Keys == {"p"}
    ensures t.world.payments["p"].status == Failed
    ensures var h := HistoryOf(t.book, "p");
            && h.deliveries == 31 && h.debitCalls == 2 && h.chargeCalls == 6
            && h.debitRecoveries == 1 && h.chargeRecoveries == 1
  {
    var u := CreateStep(c, Start(c, ONE), REQUEST, 0);
    CreatedHeads(c);
    var rest;
    rest, t := Settles(c, u, WORST, 0);
    ServingHeads(c, u, rest, t, 0, "p");
    CreateThen(c, rest, t);
    steps := [Step.Create(REQUEST, 0)] + rest;
    AtTheEnd(c, steps, t);
  }
}
