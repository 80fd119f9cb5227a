/**
 The workflow of one payment. No `Mark` checks the old status, and no handler checks what came before:
 the order of statuses rests on there being exactly one workflow delivery outstanding per payment.
 */
module SagaFlow {
  import opened Common
  import opened Events
  import opened Payments
  import opened Broker
  import opened Saga
  import opened SagaQueues
  import W = Wallets
  import G = Gateway
  import ChargeHandler

  /** The stored statuses of a payment, oldest first. */
  function Path(status: Status): seq<Status> {
    match status
    case NoStatus => []
    case Initialized => [Initialized]
    case Rejected => [Initialized, Rejected]
    case Pending => [Initialized, Pending]
    case Succeeded => [Initialized, Pending, Succeeded]
    case Failed => [Initialized, Pending, Failed]
  }

  /** No money moved and nothing was charged. */
  predicate Untouched(h: History) {
    h.debits == 0 && h.refunds == 0 && h.chargeCalls == 0 && h.chargeRecoveries == 0
  }

  /** Debited once, not refunded. */
  predicate Held(h: History) {
    h.debits == 1 && h.refunds == 0
  }

  predicate Within(h: History) {
    h.debitCalls <= 2 && h.chargeCalls <= 6 && h.debitRecoveries <= 1 && h.chargeRecoveries <= 1
  }

  predicate Carries(e: Event, p: Payment)
    requires e.PaymentInitialized? || e.WalletDebitRequested? || e.WalletDebited? || e.PaymentChargeRequested?
             || e.WalletRefundRequested?
  {
    e.userId == p.userId && e.amount == p.amount
  }

  /** The event names the payment's service too. */
  predicate ForService(e: Event, p: Payment)
    requires e.PaymentInitialized? || e.PaymentChargeRequested?
  {
    e.service == p.service
  }

  /** The one outstanding workflow delivery `d` fits the payment and its history. */
  predicate Stage(p: Payment, d: Delivery, h: History) {
    match d.handler
    case OnInitialized =>
      d.event.PaymentInitialized? && Carries(d.event, p) && ForService(d.event, p)
      && p.status == Initialized && Untouched(h)
          && h.debitCalls == 0 && h.debitRecoveries == 0
    case OnDebit =>
      && d.event.WalletDebitRequested? && Carries(d.event, p) && p.status == Initialized && Untouched(h)
      && 1 <= d.event.attempt <= 2 && h.debitCalls == h.debitRecoveries == d.event.attempt - 1
    case OnDebitRejected =>
      d.event.WalletDebitRejected? && p.status == Initialized && Untouched(h) && d.event.reason == h.verdict
    case OnDebited =>
      d.event.WalletDebited? && Carries(d.event, p) && p.status == Initialized && Held(h) && h.chargeCalls == 0
          && h.chargeRecoveries == 0
    case OnCharge =>
      && d.event.PaymentChargeRequested? && Carries(d.event, p) && ForService(d.event, p)
      && p.status == Pending && Held(h)
      && if h.chargeRecoveries == 0 then d.event.attempt == 1 && h.chargeCalls == 0
         else d.event.attempt == 6 && h.chargeCalls <= 5
    case OnRecovery =>
      && d.event.RecoveryRequested?
      && if d.event.action.DebitAction? then
           p.status == Initialized && Untouched(h) && d.event.attempts == 1 && h.debitCalls == 1
               && h.debitRecoveries == 1
         else
           d.event.action.ChargeAction? && p.status == Pending && Held(h) && d.event.attempts == 5
               && h.chargeCalls <= 5 && h.chargeRecoveries == 1
    case OnChargeSucceeded =>
      d.event.PaymentChargeSucceeded? && p.status == Pending && Held(h) && d.event.gatewayId == h.verdict
    case OnChargeFailed =>
      d.event.PaymentChargeFailed? && p.status == Pending && Held(h) && d.event.reason == h.verdict
    case OnRefund => d.event.WalletRefundRequested? && Carries(d.event, p) && p.status == Failed && Held(h)
    case _ => false
  }

  /** Rejected with nothing debited, succeeded with the amount debited, or failed with it refunded. */
  predicate Finished(p: Payment, h: History) {
    match p.status
    case Rejected => h.debits == 0 && h.refunds == 0
    case Succeeded => h.debits == 1 && h.refunds == 0
    case Failed => h.debits == 1 && h.refunds == 1
    case _ => false
  }

  /** The reason and the gateway id stored are those of the verdict, once there is one. */
  predicate Judged(p: Payment, h: History) {
    match p.status
    case Succeeded => p.gatewayId == h.verdict && p.reason == ""
    case Rejected => p.gatewayId == "" && p.reason == h.verdict
    case Failed => p.gatewayId == "" && p.reason == h.verdict
    case _ => p.gatewayId == "" && p.reason == ""
  }

  /** The deliveries that publishing has caused by the time the payment waits for `d`, but for recoveries. */
  function Caused(d: Delivery): nat {
    match d.handler
    case OnInitialized => 6
    case OnDebit => 7
    case OnDebitRejected => 8
    case OnDebited => 12
    case OnCharge => 15
    case OnChargeSucceeded => 16
    case OnChargeFailed => 16
    case OnRefund => 21
    case OnRecovery => if d.event.RecoveryRequested? && d.event.action == ChargeAction then 14 else 6
    case _ => 0
  }

  /** And by the time it is finished. */
  function CausedInAll(status: Status): nat {
    match status
    case Rejected => 10
    case Succeeded => 20
    case Failed => 25
    case _ => 0
  }

  /** Each recovery adds three. */
  function Recoveries(h: History): nat {
    3 * (h.debitRecoveries + h.chargeRecoveries)
  }

  /** The payment waits for `d` to be handled. */
  predicate Waiting(p: Payment, d: Delivery, h: History) {
    && Stage(p, d, h) && Of(d.event, p.id) && h.deliveries == Caused(d) + Recoveries(h)
    && Within(h) && h.statuses == Path(p.status) && Judged(p, h)
  }

  predicate AtRest(p: Payment, h: History) {
    && Finished(p, h) && h.deliveries == CausedInAll(p.status) + Recoveries(h)
    && Within(h) && h.statuses == Path(p.status) && Judged(p, h)
  }

  /** Exactly one workflow delivery is outstanding, or the payment is finished. */
  predicate Coherent(p: Payment, work: seq<Delivery>, h: History) {
    if work == [] then AtRest(p, h) else |work| == 1 && Waiting(p, work[0], h)
  }

  predicate Sound(p: Payment, id: string) {
    p.id == id && id != "" && p.userId != "" && 0 < p.amount <= MAX_INT64
  }

  /** A queued delivery went to a subscriber of its event, on the shard of a known payment. */
  predicate Placed(c: Config, payments: Table, j: nat, d: Delivery)
    requires ValidConfig(c)
  {
    && d.handler in Subscribers(NameOf(d.event))
    && (!d.event.WalletCredited? ==> d.event.paymentId in payments && Shard(c, d.event.paymentId) == j)
  }

  ghost predicate AllPlaced(c: Config, payments: Table, queues: seq<seq<Delivery>>)
    requires ValidConfig(c)
  {
    forall j, k :: 0 <= j < |queues| && 0 <= k < |queues[j]| ==> Placed(c, payments, j, queues[j][k])
  }

  /** Every known payment is sound and has one outstanding workflow delivery or is finished. */
  ghost predicate AllCoherent(c: Config, s: State)
    requires ValidConfig(c) && |s.queues| == c.shards
  {
    forall id :: id in s.world.payments ==>
      Sound(s.world.payments[id], id)
          && Coherent(s.world.payments[id], Mine(c, WorkOf(id), s.queues), HistoryOf(s.book, id))
  }

  ghost predicate Inv(c: Config, s: State) {
    && ValidConfig(c) && |s.queues| == c.shards
    && AllCoherent(c, s)
    && AllPlaced(c, s.world.payments, s.queues)
    && (forall id :: id in s.book.histories ==> id in s.world.payments)
  }

  /** The published lists of the saga have at most two events. */
  lemma {:induction false} Few(k: Pick, h: History, es: seq<Event>)
    requires |es| <= 2
    ensures |es| == 0 ==> AllFrom(k, es) == [] && NoteAll(h, es) == h
    ensures |es| == 1 ==> AllFrom(k, es) == From(k, es[0]) && NoteAll(h, es) == Note(h, es[0])
    ensures |es| == 2 ==>
              AllFrom(k, es) == From(k, es[0]) + From(k, es[1]) && NoteAll(h, es) == Note(Note(h, es[0]), es[1])
  {
    if |es| == 2 {
      var last := [es[1]];
      assert es[1..] == last;
      assert AllFrom(k, last) == From(k, last[0]);
      assert NoteAll(Note(h, es[0]), last) == Note(Note(h, es[0]), last[0]);
    }
  }

  ghost predicate Ready(p: Payment, d: Delivery, h: History, w: World, id: string) {
    id in w.payments && w.payments[id] == p && Sound(p, id) && Waiting(p, d, h)
  }

  /** What handling the one workflow delivery of payment `id` comes to. */
  ghost predicate Handled(d: Delivery, h: History, w: World, o: Oracle, id: string) {
    var reply := Handle(d.handler, d.event, w, o);
    var u := reply.world.payments;
    && id in u && Sound(u[id], id) && u == w.payments[id := u[id]] && AllIn(reply.published, id)
    && (!reply.done ==> u == w.payments && reply.published == [])
    && (reply.done ==> Coherent(u[id], AllFrom(WorkOf(id), reply.published), Recorded(h, d, o, reply.published)))
  }

  /** The reply of a charge at attempt 1, or at attempt 6 after recovery. */
  lemma {:induction false} ChargeReply(e: Event, heard: seq<G.Answer>, now: int)
    requires e.PaymentChargeRequested? && e.attempt in {1, 6} && ChargeHandler.Complete(e.attempt, heard)
    ensures |heard| <= if e.attempt == 1 then 5 else 1
    ensures var r := ChargeHandler.ReplyTo(e, heard, now);
            && Of(r, e.paymentId)
            && (r.PaymentChargeSucceeded? || r.PaymentChargeFailed?
                || (r.RecoveryRequested? && r.action == ChargeAction && r.attempts == 5 && e.attempt == 1))
  {
  }

  lemma {:induction false} ChargeSettles(p: Payment, d: Delivery, h: History, calls: nat, r: Event)
    requires d.handler == OnCharge && Waiting(p, d, h) && Of(r, p.id)
    requires calls <= if d.event.attempt == 1 then 5 else 1
    requires r.PaymentChargeSucceeded? || r.PaymentChargeFailed?
             || (r.RecoveryRequested? && r.action == ChargeAction && r.attempts == 5 && d.event.attempt == 1)
    ensures Coherent(p, From(WorkOf(p.id), r), Note(h.(chargeCalls := h.chargeCalls + calls), r))
  {
  }

  lemma {:induction false} ChargeStage(p: Payment, d: Delivery, h: History, w: World, o: Oracle, id: string)
    requires d.handler == OnCharge && Ready(p, d, h, w, id)
    ensures Handled(d, h, w, o, id)
  {
    var heard := ChargeHandler.Heard(d.event.attempt, o.answers, 0);
    var r := ChargeHandler.ReplyTo(d.event, heard, o.now);
    ChargeHandler.HeardIsComplete(d.event.attempt, o.answers, 0);
    ChargeReply(d.event, heard, o.now);
    ChargeSettles(p, d, h, |heard|, r);
    Few(WorkOf(id), h.(chargeCalls := h.chargeCalls + |heard|), [r]);
    assert w.payments == w.payments[id := p];
  }

  lemma {:induction false} DebitSettles(p: Payment, d: Delivery, h: History, r: Event)
    requires d.handler == OnDebit && Waiting(p, d, h) && Of(r, p.id)
    requires (r.WalletDebited? && Carries(r, p)) || r.WalletDebitRejected?
             || (r.RecoveryRequested? && r.action == DebitAction && r.attempts == 1 && d.event.attempt == 1)
    ensures Coherent(p, From(WorkOf(p.id), r), Note(h.(debitCalls := h.debitCalls + 1), r))
  {
  }

  lemma {:induction false} DebitStage(p: Payment, d: Delivery, h: History, w: World, o: Oracle, id: string)
    requires d.handler == OnDebit && Ready(p, d, h, w, id)
    ensures Handled(d, h, w, o, id)
  {
    var reply := HandleDebit(d.event, w, o);
    var r := reply.published[0];
    DebitSettles(p, d, h, r);
    Few(WorkOf(id), h.(debitCalls := h.debitCalls + 1), [r]);
    assert reply.published == [r];
    assert w.payments == w.payments[id := p];
  }

  lemma {:induction false} RejectedStage(p: Payment, d: Delivery, h: History, w: World, o: Oracle, id: string)
    requires d.handler == OnDebitRejected && Ready(p, d, h, w, id)
    ensures Handled(d, h, w, o, id)
  {
    Few(WorkOf(id), h, Handle(d.handler, d.event, w, o).published);
  }

  lemma {:induction false} SucceededStage(p: Payment, d: Delivery, h: History, w: World, o: Oracle, id: string)
    requires d.handler == OnChargeSucceeded && Ready(p, d, h, w, id)
    ensures Handled(d, h, w, o, id)
  {
    Few(WorkOf(id), h, Handle(d.handler, d.event, w, o).published);
  }

  lemma {:induction false} DebitedStage(p: Payment, d: Delivery, h: History, w: World, o: Oracle, id: string)
    requires d.handler == OnDebited && Ready(p, d, h, w, id)
    ensures Handled(d, h, w, o, id)
  {
    var reply := Handle(d.handler, d.event, w, o);
    Few(WorkOf(id), h, reply.published);
    assert reply.published
           == [PaymentPending(id, p.userId, o.now),
               PaymentChargeRequested(id, p.userId, p.amount, p.service, 1, o.now)];
  }

  lemma {:induction false} ChargeFailedStage(p: Payment, d: Delivery, h: History, w: World, o: Oracle, id: string)
    requires d.handler == OnChargeFailed && Ready(p, d, h, w, id)
    ensures Handled(d, h, w, o, id)
  {
    var reply := Handle(d.handler, d.event, w, o);
    Few(WorkOf(id), h, reply.published);
    assert reply.published
           == [PaymentFailed(id, p.userId, d.event.reason, o.now),
               WalletRefundRequested(id, p.userId, p.amount, o.now)];
  }

  lemma {:induction false} InitializedStage(p: Payment, d: Delivery, h: History, w: World, o: Oracle, id: string)
    requires d.handler == OnInitialized && Ready(p, d, h, w, id)
    ensures Handled(d, h, w, o, id)
  {
    Few(WorkOf(id), h, Handle(d.handler, d.event, w, o).published);
  }

  lemma {:induction false} RecoveryStage(p: Payment, d: Delivery, h: History, w: World, o: Oracle, id: string)
    requires d.handler == OnRecovery && Ready(p, d, h, w, id)
    ensures Handled(d, h, w, o, id)
  {
    Few(WorkOf(id), h, Handle(d.handler, d.event, w, o).published);
  }

  lemma {:induction false} RefundStage(p: Payment, d: Delivery, h: History, w: World, o: Oracle, id: string)
    requires d.handler == OnRefund && Ready(p, d, h, w, id)
    ensures Handled(d, h, w, o, id)
  {
    Few(WorkOf(id), h, Handle(d.handler, d.event, w, o).published);
  }

  lemma {:induction false} StageStep(p: Payment, d: Delivery, h: History, w: World, o: Oracle, id: string)
    requires Ready(p, d, h, w, id)
    ensures Handled(d, h, w, o, id)
  {
    match d.handler
    case OnCharge => ChargeStage(p, d, h, w, o, id);
    case OnDebit => DebitStage(p, d, h, w, o, id);
    case OnDebitRejected => RejectedStage(p, d, h, w, o, id);
    case OnChargeSucceeded => SucceededStage(p, d, h, w, o, id);
    case OnDebited => DebitedStage(p, d, h, w, o, id);
    case OnChargeFailed => ChargeFailedStage(p, d, h, w, o, id);
    case OnInitialized => InitializedStage(p, d, h, w, o, id);
    case OnRecovery => RecoveryStage(p, d, h, w, o, id);
    case OnRefund => RefundStage(p, d, h, w, o, id);
  }

  lemma {:induction false} StartInv(c: Config, wallets: map<string, int>)
    requires ValidConfig(c)
    ensures Inv(c, Start(c, wallets))
  {
  }

  lemma {:induction false} PublishKeepsPlaced(c: Config, payments: Table, queues: seq<seq<Delivery>>, e: Event)
    requires ValidConfig(c) && |queues| == c.shards && AllPlaced(c, payments, queues)
    requires e.WalletCredited? || (e.paymentId in payments && e.paymentId != "")
    ensures AllPlaced(c, payments, Publish(c, queues, e))
  {
    ToAt(e, Subscribers(NameOf(e)));
    var r := Publish(c, queues, e);
    forall j, k | 0 <= j < |r| && 0 <= k < |r[j]| ensures Placed(c, payments, j, r[j][k]) {
      if k < |queues[j]| {
        assert r[j][k] == queues[j][k];
      } else {
        assert j == Shard(c, BusKey(e));
        assert r[j][k] == Deliveries(e)[k - |queues[j]|];
      }
    }
  }

  lemma {:induction false} PublishAllKeepsPlaced(c: Config, payments: Table, queues: seq<seq<Delivery>>,
                                                 es: seq<Event>, id: string)
    requires ValidConfig(c) && |queues| == c.shards && AllPlaced(c, payments, queues)
    requires AllIn(es, id) && id in payments && id != ""
    ensures AllPlaced(c, payments, PublishAll(c, queues, es))
    decreases |es|
  {
    if es == [] {
    } else {
      assert Of(es[0], id);
      PublishKeepsPlaced(c, payments, queues, es[0]);
      assert forall k :: 0 <= k < |es[1..]| ==> es[1..][k] == es[k + 1];
      PublishAllKeepsPlaced(c, payments, Publish(c, queues, es[0]), es[1..], id);
    }
  }

  /** Nothing is queued for a payment nobody created. */
  lemma {:induction false} NothingPicked(k: Pick, q: seq<Delivery>)
    requires forall i :: 0 <= i < |q| ==> !Picks(k, q[i])
    ensures Picked(k, q) == []
  {
    if q == [] {
    } else {
      NothingPicked(k, q[1..]);
    }
  }

  lemma {:induction false} NothingQueued(c: Config, payments: Table, queues: seq<seq<Delivery>>, k: Pick)
    requires ValidConfig(c) && |queues| == c.shards && AllPlaced(c, payments, queues)
    requires k.id !in payments && !k.ByKey?
    ensures Mine(c, k, queues) == []
  {
    var j := Shard(c, k.id);
    forall i | 0 <= i < |queues[j]| ensures !Picks(k, queues[j][i]) {
      assert Placed(c, payments, j, queues[j][i]);
    }
    NothingPicked(k, queues[j]);
  }

  /** Publishing the events of one payment leaves the picked queues of every other alone. */
  lemma {:induction false} OthersKeepTheirQueue(c: Config, queues: seq<seq<Delivery>>, es: seq<Event>, k: Pick)
    requires ValidConfig(c) && |queues| == c.shards && k.id != ""
    requires forall i :: 0 <= i < |es| ==> !About(k, es[i])
    ensures Mine(c, k, PublishAll(c, queues, es)) == Mine(c, k, queues)
  {
    MineAfterPublishing(c, k, queues, es);
    AllFromOthers(k, es);
  }

  /** The sinks publish nothing and leave balances, payments and log alone. */
  lemma {:induction false} SinkStep(d: Delivery, w: World, o: Oracle, h: History)
    requires d.handler in Subscribers(NameOf(d.event)) && !IsWork(d.handler)
    ensures var reply := Handle(d.handler, d.event, w, o);
            && reply.done && reply.published == []
            && reply.world == w.(views := reply.world.views)
            && reply.world.views == (if d.handler == ProjectorSink then ReadModels.After(w.views, d.event) else w.views)
            && Recorded(h, d, o, []) == h
  {
  }

  /** A credit reaches only the projector. */
  lemma {:induction false} WorkHasAPayment(d: Delivery)
    requires d.handler in Subscribers(NameOf(d.event)) && IsWork(d.handler)
    ensures !d.event.WalletCredited?
  {
  }

  function Taken(queues: seq<seq<Delivery>>, i: nat): seq<seq<Delivery>>
    requires i < |queues| && queues[i] != []
  {
    queues[i := queues[i][1..]]
  }

  lemma {:induction false} TakenKeepsPlaced(c: Config, payments: Table, queues: seq<seq<Delivery>>, i: nat)
    requires ValidConfig(c) && AllPlaced(c, payments, queues) && i < |queues| && queues[i] != []
    ensures AllPlaced(c, payments, Taken(queues, i))
  {
  }

  lemma {:induction false} MorePaymentsKeepPlaced(c: Config, payments: Table, more: Table, queues: seq<seq<Delivery>>)
    requires ValidConfig(c) && AllPlaced(c, payments, queues) && forall id :: id in payments ==> id in more
    ensures AllPlaced(c, more, queues)
  {
  }

  /** A sink takes its delivery off the queue and leaves everything but the views alone. */
  ghost predicate Sunk(s: State, i: nat, t: State)
    requires i < |s.queues| && s.queues[i] != []
  {
    && t.queues == Taken(s.queues, i) && t.world == s.world.(views := t.world.views)
    && t.world.views == (if s.queues[i][0].handler == ProjectorSink
                         then ReadModels.After(s.world.views, s.queues[i][0].event) else s.world.views)
    && t.book.created == s.book.created && t.book.credits == s.book.credits && t.book.credited == s.book.credited
    && (forall id :: HistoryOf(t.book, id) == HistoryOf(s.book, id))
    && (forall id :: id in t.book.histories ==> id in s.book.histories || id in s.world.payments)
  }

  lemma {:induction false} SinkDelivered(c: Config, s: State, i: nat, o: Oracle)
    requires ValidConfig(c) && |s.queues| == c.shards && i < |s.queues| && s.queues[i] != []
             && !IsWork(s.queues[i][0].handler)
    requires Placed(c, s.world.payments, i, s.queues[i][0])
    ensures Sunk(s, i, DeliverStep(c, s, i, o))
  {
    var d := s.queues[i][0];
    var id := if d.event.WalletCredited? then "" else d.event.paymentId;
    SinkStep(d, s.world, o, HistoryOf(s.book, id));
    var t := DeliverStep(c, s, i, o);
    assert t.queues == Taken(s.queues, i);
  }

  lemma {:induction false} SunkKeepsInv(c: Config, s: State, i: nat, t: State)
    requires Inv(c, s) && i < |s.queues| && s.queues[i] != [] && !IsWork(s.queues[i][0].handler) && Sunk(s, i, t)
    ensures Inv(c, t)
  {
    TakenKeepsPlaced(c, s.world.payments, s.queues, i);
    forall x | x in t.world.payments ensures Sound(t.world.payments[x], x)
             && Coherent(t.world.payments[x], Mine(c, WorkOf(x), t.queues), HistoryOf(t.book, x)) {
      MineAfterTaking(c, WorkOf(x), s.queues, i);
    }
  }

  lemma {:induction false} SinkDeliveryKeepsInv(c: Config, s: State, i: nat, o: Oracle)
    requires Inv(c, s) && i < |s.queues| && s.queues[i] != [] && !IsWork(s.queues[i][0].handler)
    ensures Inv(c, DeliverStep(c, s, i, o))
  {
    assert Placed(c, s.world.payments, i, s.queues[i][0]);
    SinkDelivered(c, s, i, o);
    SunkKeepsInv(c, s, i, DeliverStep(c, s, i, o));
  }

  /** The head of a shard, when it is workflow, is the one outstanding delivery of its payment. */
  lemma {:induction false} HeadIsTheWork(c: Config, s: State, i: nat)
    requires Inv(c, s) && i < |s.queues| && s.queues[i] != [] && IsWork(s.queues[i][0].handler)
    ensures var d := s.queues[i][0];
            && !d.event.WalletCredited? && d.event.paymentId in s.world.payments && Shard(c, d.event.paymentId) == i
            && Ready(s.world.payments[d.event.paymentId], d, HistoryOf(s.book, d.event.paymentId), s.world,
                     d.event.paymentId)
            && Mine(c, WorkOf(d.event.paymentId), Taken(s.queues, i)) == []
  {
    var d := s.queues[i][0];
    assert Placed(c, s.world.payments, i, d);
    WorkHasAPayment(d);
    var id := d.event.paymentId;
    MineAfterTaking(c, WorkOf(id), s.queues, i);
    var work := Mine(c, WorkOf(id), s.queues);
    assert work == [d] + Mine(c, WorkOf(id), Taken(s.queues, i));
    assert Coherent(s.world.payments[id], work, HistoryOf(s.book, id));
    assert work[0] == d;
  }

  /** The payments other than `id` are coherent over the given queues. */
  ghost predicate OthersCoherent(c: Config, s: State, queues: seq<seq<Delivery>>, id: string)
    requires ValidConfig(c) && |queues| == c.shards
  {
    forall x :: x in s.world.payments && x != id ==>
      Sound(s.world.payments[x], x) && Coherent(s.world.payments[x], Mine(c, WorkOf(x), queues), HistoryOf(s.book, x))
  }

  /** A step that changes one payment and publishes only its events. */
  lemma {:induction false} OnePaymentStep(c: Config, s: State, base: seq<seq<Delivery>>, es: seq<Event>, id: string,
                                          t: State)
    requires ValidConfig(c) && |base| == c.shards && AllPlaced(c, s.world.payments, base)
             && OthersCoherent(c, s, base, id)
    requires forall x :: x in s.book.histories ==> x in s.world.payments
    requires AllIn(es, id) && t.queues == PublishAll(c, base, es)
    requires id in t.world.payments && t.world.payments == s.world.payments[id := t.world.payments[id]]
    requires id in t.book.histories && t.book.histories == s.book.histories[id := t.book.histories[id]]
    requires Sound(t.world.payments[id], id)
    requires Coherent(t.world.payments[id], Mine(c, WorkOf(id), base) + AllFrom(WorkOf(id), es), t.book.histories[id])
    ensures Inv(c, t)
  {
    MorePaymentsKeepPlaced(c, s.world.payments, t.world.payments, base);
    PublishAllKeepsPlaced(c, t.world.payments, base, es, id);
    MineAfterPublishing(c, WorkOf(id), base, es);
    forall x | x in t.world.payments ensures Sound(t.world.payments[x], x)
             && Coherent(t.world.payments[x], Mine(c, WorkOf(x), t.queues), HistoryOf(t.book, x)) {
      if x != id {
        assert forall k :: 0 <= k < |es| ==> Of(es[k], id);
        OthersKeepTheirQueue(c, base, es, WorkOf(x));
      }
    }
  }

  lemma {:induction false} TakingKeepsOthers(c: Config, s: State, i: nat, id: string)
    requires Inv(c, s) && i < |s.queues| && s.queues[i] != [] && Of(s.queues[i][0].event, id)
    ensures OthersCoherent(c, s, Taken(s.queues, i), id)
  {
    forall x | x in s.world.payments && x != id
      ensures Mine(c, WorkOf(x), Taken(s.queues, i)) == Mine(c, WorkOf(x), s.queues) {
      MineAfterTaking(c, WorkOf(x), s.queues, i);
    }
  }

  lemma {:induction false} DoneKeepsInv(c: Config, s: State, i: nat, o: Oracle, id: string)
    requires Inv(c, s) && i < |s.queues| && s.queues[i] != [] && Of(s.queues[i][0].event, id)
    requires Mine(c, WorkOf(id), Taken(s.queues, i)) == []
    requires Handled(s.queues[i][0], HistoryOf(s.book, id), s.world, o, id)
    requires Handle(s.queues[i][0].handler, s.queues[i][0].event, s.world, o).done
    ensures Inv(c, DeliverStep(c, s, i, o))
  {
    var es := Handle(s.queues[i][0].handler, s.queues[i][0].event, s.world, o).published;
    TakingKeepsOthers(c, s, i, id);
    TakenKeepsPlaced(c, s.world.payments, s.queues, i);
    assert [] + AllFrom(WorkOf(id), es) == AllFrom(WorkOf(id), es);
    OnePaymentStep(c, s, Taken(s.queues, i), es, id, DeliverStep(c, s, i, o));
  }

  lemma {:induction false} WorkDeliveryKeepsInv(c: Config, s: State, i: nat, o: Oracle)
    requires Inv(c, s) && i < |s.queues| && s.queues[i] != [] && IsWork(s.queues[i][0].handler)
    ensures Inv(c, DeliverStep(c, s, i, o))
  {
    var d := s.queues[i][0];
    HeadIsTheWork(c, s, i);
    var id := d.event.paymentId;
    var h := HistoryOf(s.book, id);
    StageStep(s.world.payments[id], d, h, s.world, o, id);
    if Handle(d.handler, d.event, s.world, o).done {
      DoneKeepsInv(c, s, i, o, id);
    } else {
      UndoneKeepsHistory(d, s.world, o, h);
      assert Mine(c, WorkOf(id), s.queues) + AllFrom(WorkOf(id), []) == Mine(c, WorkOf(id), s.queues);
      OnePaymentStep(c, s, s.queues, [], id, DeliverStep(c, s, i, o));
    }
  }

  /** A handler that returns an error has made no counted call. */
  lemma {:induction false} UndoneKeepsHistory(d: Delivery, w: World, o: Oracle, h: History)
    requires !Handle(d.handler, d.event, w, o).done
    requires d.handler == OnDebit ==> d.event.WalletDebitRequested?
    ensures Recorded(h, d, o, []) == h
  {
  }

  lemma {:induction false} CreateKeepsInv(c: Config, s: State, r: CreateRequest, now: int)
    requires Inv(c, s) && ValidRequest(r) && IsInt64(r.amount) && r.paymentId !in s.world.payments
    ensures Inv(c, CreateStep(c, s, r, now))
  {
    var id := r.paymentId;
    var es := CreateEvents(r, now);
    NothingQueued(c, s.world.payments, s.queues, WorkOf(id));
    Few(WorkOf(id), NO_HISTORY, es);
    assert [] + AllFrom(WorkOf(id), es) == [Delivery(es[1], OnInitialized)];
    assert HistoryOf(s.book, id) == NO_HISTORY;
    OnePaymentStep(c, s, s.queues, es, id, CreateStep(c, s, r, now));
  }

  lemma {:induction false} CreditKeepsInv(c: Config, s: State, user: string, amount: int, write: W.Write, now: int)
    requires Inv(c, s)
    ensures Inv(c, CreditStep(c, s, user, amount, write, now))
  {
    var t := CreditStep(c, s, user, amount, write, now);
    var e := WalletCredited(user, amount, now);
    if W.AddOutcome(user, amount, write).Ok? {
      PublishKeepsPlaced(c, s.world.payments, s.queues, e);
      assert PublishAll(c, s.queues, [e]) == t.queues;
      forall x | x in t.world.payments ensures Sound(t.world.payments[x], x)
               && Coherent(t.world.payments[x], Mine(c, WorkOf(x), t.queues), HistoryOf(t.book, x)) {
        OthersKeepTheirQueue(c, s.queues, [e], WorkOf(x));
      }
    }
  }

  lemma {:induction false} StepKeepsInv(c: Config, s: State, t: Step)
    requires Inv(c, s) && Enabled(c, s, t) && FreshStep(s, t)
    ensures Inv(c, Next(c, s, t))
  {
    match t
    case Create(r, now) =>
      if ValidRequest(r) { CreateKeepsInv(c, s, r, now); }
    case Credit(u, a, w, now) => CreditKeepsInv(c, s, u, a, w, now);
    case Deliver(i, o) =>
      if IsWork(s.queues[i][0].handler) { WorkDeliveryKeepsInv(c, s, i, o); } else { SinkDeliveryKeepsInv(c, s, i, o); }
  }

  lemma {:induction false} RunKeepsInv(c: Config, s: State, steps: seq<Step>, t: State)
    requires Inv(c, s) && Run(c, s, steps, t)
    ensures Inv(c, t)
    decreases |steps|
  {
    if steps == [] {
    } else {
      StepKeepsInv(c, s, steps[0]);
      RunKeepsInv(c, Next(c, s, steps[0]), steps[1..], t);
    }
  }

  ghost predicate Quiescent(s: State) {
    forall j :: 0 <= j < |s.queues| ==> s.queues[j] == []
  }

  /** What coherence says of the limits and of the stored statuses. */
  lemma {:induction false} CoherentLimits(p: Payment, work: seq<Delivery>, h: History)
    requires Coherent(p, work, h)
    ensures |work| <= 1 && (work == [] <==> p.status in {Rejected, Succeeded, Failed} && Finished(p, h))
    ensures h.statuses != [] && h.statuses[|h.statuses| - 1] == p.status
    ensures h.statuses <= [Initialized, Rejected] || h.statuses <= [Initialized, Pending, Succeeded]
            || h.statuses <= [Initialized, Pending, Failed]
    ensures Within(h) && h.deliveries <= 31
  {
  }

  lemma {:induction false} RunKeepsShards(c: Config, s: State, steps: seq<Step>, t: State)
    requires Run(c, s, steps, t)
    ensures ValidConfig(c) && |t.queues| == c.shards
    decreases |steps|
  {
    if steps == [] {
    } else {
      RunKeepsShards(c, Next(c, s, steps[0]), steps[1..], t);
    }
  }

  /** A payment's workflow deliveries are all on its own shard. */
  lemma {:induction false} NoneElsewhere(c: Config, s: State, id: string, j: nat)
    requires Inv(c, s) && j < c.shards && j != Shard(c, id)
    ensures Picked(WorkOf(id), s.queues[j]) == []
  {
    forall i | 0 <= i < |s.queues[j]| ensures !Picks(WorkOf(id), s.queues[j][i]) {
      assert Placed(c, s.world.payments, j, s.queues[j][i]);
    }
    NothingPicked(WorkOf(id), s.queues[j]);
  }

  /**
   In every reachable state each payment has exactly one outstanding workflow delivery, or is finished and
   has none, counting every shard;
   its stored statuses so far are a prefix of initialized-rejected, initialized-pending-succeeded or
   initialized-pending-failed, and it has made at most 2 debit attempts, 6 charge calls, one recovery
   per action and 31 deliveries. The outstanding event fits the stored payment: where it carries a user
   and an amount, they are the payment's (`Stage`).
   */
  lemma {:induction false} OneWorkflowPerPayment(c: Config, wallets: map<string, int>, steps: seq<Step>, t: State,
                                                 id: string)
    requires Run(c, Start(c, wallets), steps, t) && id in t.world.payments
    ensures ValidConfig(c) && |t.queues| == c.shards
    ensures |Mine(c, WorkOf(id), t.queues)| <= 1
    ensures forall j :: 0 <= j < c.shards && j != Shard(c, id) ==> Picked(WorkOf(id), t.queues[j]) == []
    ensures Mine(c, WorkOf(id), t.queues) == [] <==>
              t.world.payments[id].status in {Rejected, Succeeded, Failed}
                  && Finished(t.world.payments[id], HistoryOf(t.book, id))
    ensures var work := Mine(c, WorkOf(id), t.queues);
            work != [] ==> Of(work[0].event, id) && Stage(t.world.payments[id], work[0], HistoryOf(t.book, id))
    ensures var path := HistoryOf(t.book, id).statuses;
            && path != [] && path[|path| - 1] == t.world.payments[id].status
            && (path <= [Initialized, Rejected] || path <= [Initialized, Pending, Succeeded]
                || path <= [Initialized, Pending, Failed])
    ensures var h := HistoryOf(t.book, id);
            h.debitCalls <= 2 && h.chargeCalls <= 6 && h.debitRecoveries <= 1 && h.chargeRecoveries <= 1
                && h.deliveries <= 31
  {
    StartInv(c, wallets);
    RunKeepsInv(c, Start(c, wallets), steps, t);
    CoherentLimits(t.world.payments[id], Mine(c, WorkOf(id), t.queues), HistoryOf(t.book, id));
    forall j | 0 <= j < c.shards && j != Shard(c, id) ensures Picked(WorkOf(id), t.queues[j]) == [] {
      NoneElsewhere(c, t, id, j);
    }
  }

  /**
   With nothing left to deliver, every payment is rejected with no debit acknowledged, succeeded with one,
   or failed with one debit and one refund acknowledged. This counts `WalletDebited` and `WalletRefunded`
   events; what it means for balances is `SagaMoney.AtRestOnlySucceededPaymentsCost`. The deliveries a
   payment has caused are then exactly 10, 20 or 25, and three more for each recovery.
   */
  lemma {:induction false} AllOrNothingAtRest(c: Config, wallets: map<string, int>, steps: seq<Step>, t: State,
                                              id: string)
    requires Run(c, Start(c, wallets), steps, t) && Quiescent(t) && id in t.world.payments
    ensures var p, h := t.world.payments[id], HistoryOf(t.book, id);
            || (p.status == Rejected && h.debits == 0 && h.refunds == 0)
            || (p.status == Succeeded && h.debits == 1 && h.refunds == 0)
            || (p.status == Failed && h.debits == 1 && h.refunds == 1)
    ensures var p, h := t.world.payments[id], HistoryOf(t.book, id);
            h.deliveries == (if p.status == Rejected then 10 else if p.status == Succeeded then 20 else 25)
                            + 3 * (h.debitRecoveries + h.chargeRecoveries)
  {
    StartInv(c, wallets);
    RunKeepsInv(c, Start(c, wallets), steps, t);
    assert Coherent(t.world.payments[id], Mine(c, WorkOf(id), t.queues), HistoryOf(t.book, id));
    assert t.queues[Shard(c, id)] == [];
  }

  lemma {:induction false} StartedTwiceIsIncoherent(p: Payment, work: seq<Delivery>, q: Payment, more: seq<Delivery>,
                                                    h: History, es: seq<Event>)
    requires Coherent(p, work, h) && q.status == Initialized
    requires |es| == 2 && es[0].PaymentCreated? && es[1].PaymentInitialized?
    ensures !Coherent(q, more, NoteAll(h, es))
  {
    Few(WorkOf(""), h, es);
    assert |NoteAll(h, es).statuses| == |h.statuses| + 1 >= 2;
  }

  /**
   Creating a payment adds one workflow delivery for its id, so it leaves exactly one if and only if there
   was none: the id is new, or its payment is finished. Over a payment still on its way, two workflows
   run at once.
   */
  lemma {:induction false} CreateLeavesOneWorkflowIff(c: Config, s: State, r: CreateRequest, now: int)
    requires Inv(c, s) && ValidRequest(r) && IsInt64(r.amount)
    ensures var id, t := r.paymentId, CreateStep(c, s, r, now);
            && |t.queues| == c.shards
            && |Mine(c, WorkOf(id), t.queues)| == |Mine(c, WorkOf(id), s.queues)| + 1
            && (|Mine(c, WorkOf(id), t.queues)| == 1 <==>
                  id !in s.world.payments || Finished(s.world.payments[id], HistoryOf(s.book, id)))
  {
    var id, es := r.paymentId, CreateEvents(r, now);
    MineAfterPublishing(c, WorkOf(id), s.queues, es);
    Few(WorkOf(id), NO_HISTORY, es);
    if id !in s.world.payments {
      NothingQueued(c, s.world.payments, s.queues, WorkOf(id));
    } else {
      UnfinishedIsWaiting(s.world.payments[id], Mine(c, WorkOf(id), s.queues), HistoryOf(s.book, id));
    }
  }

  lemma {:induction false} UnfinishedIsWaiting(p: Payment, work: seq<Delivery>, h: History)
    requires Coherent(p, work, h)
    ensures work == [] <==> Finished(p, h)
  {
  }

  /**
   The status history needs fresh ids: creating a payment keeps every history legal, and so the invariant,
   exactly when its id is new. A second `Initialized` after any status is not a legal history.
   */
  lemma {:induction false} CreateIsSafeIffTheIdIsFresh(c: Config, s: State, r: CreateRequest, now: int)
    requires Inv(c, s) && ValidRequest(r) && IsInt64(r.amount)
    ensures Inv(c, CreateStep(c, s, r, now)) <==> r.paymentId !in s.world.payments
  {
    var id := r.paymentId;
    if id !in s.world.payments {
      CreateKeepsInv(c, s, r, now);
    } else {
      var t := CreateStep(c, s, r, now);
      var more := Mine(c, WorkOf(id), t.queues);
      StartedTwiceIsIncoherent(s.world.payments[id], Mine(c, WorkOf(id), s.queues), t.world.payments[id], more,
                               HistoryOf(s.book, id), CreateEvents(r, now));
      assert !Coherent(t.world.payments[id], more, HistoryOf(t.book, id));
    }
  }
}
