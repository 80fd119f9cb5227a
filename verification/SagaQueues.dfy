/** Looking at the queues payment by payment. */
module SagaQueues {
  import opened Common
  import opened Events
  import opened ReadModels
  import opened Broker
  import opened Saga

  /**
   Workflow deliveries of a payment, deliveries of its events to the projector, or deliveries of the events
   of a key to one handler.
   */
  datatype Pick = WorkOf(id: string) | ViewOf(id: string) | ByKey(id: string, handler: Handler)

  predicate IsWork(h: Handler) {
    h in {OnCharge, OnChargeSucceeded, OnChargeFailed, OnRecovery, OnInitialized, OnDebit, OnDebitRejected, OnDebited,
          OnRefund}
  }

  predicate Picks(k: Pick, d: Delivery) {
    match k
    case WorkOf(id) => IsWork(d.handler) && Of(d.event, id)
    case ViewOf(id) => d.handler.ProjectorSink? && TouchesPayment(d.event) && d.event.paymentId == id
    case ByKey(key, handler) => d.handler == handler && BusKey(d.event) == key
  }

  /** The event is one the pick is about. */
  predicate About(k: Pick, e: Event) {
    if k.ByKey? then BusKey(e) == k.id else Of(e, k.id)
  }

  function Picked(k: Pick, q: seq<Delivery>): seq<Delivery> {
    if q == [] then [] else if Picks(k, q[0]) then [q[0]] + Picked(k, q[1..]) else Picked(k, q[1..])
  }

  lemma {:induction false} PickedConcat(k: Pick, a: seq<Delivery>, b: seq<Delivery>)
    ensures Picked(k, a + b) == Picked(k, a) + Picked(k, b)
  {
    if a == [] {
      assert a + b == b;
    } else {
      assert (a + b)[0] == a[0] && (a + b)[1..] == a[1..] + b;
      PickedConcat(k, a[1..], b);
    }
  }

  /** What publishing `e` adds to shard `j`. */
  function Share(c: Config, e: Event, j: nat): seq<Delivery>
    requires ValidConfig(c)
  {
    if Shard(c, BusKey(e)) == j then Deliveries(e) else []
  }

  lemma {:induction false} PublishAt(c: Config, queues: seq<seq<Delivery>>, e: Event, j: nat)
    requires ValidConfig(c) && |queues| == c.shards && j < c.shards
    ensures Publish(c, queues, e)[j] == queues[j] + Share(c, e, j)
  {
  }

  lemma {:induction false} PublishOne(c: Config, queues: seq<seq<Delivery>>, e: Event)
    requires ValidConfig(c) && |queues| == c.shards
    ensures PublishAll(c, queues, [e]) == Publish(c, queues, e)
  {
  }

  function Routed(c: Config, es: seq<Event>, j: nat): seq<Delivery>
    requires ValidConfig(c)
  {
    if es == [] then [] else Share(c, es[0], j) + Routed(c, es[1..], j)
  }

  lemma Reassociate<T>(a: seq<T>, b: seq<T>, c: seq<T>)
    ensures (a + b) + c == a + (b + c)
  {
  }

  lemma {:induction false} PublishAllAt(c: Config, queues: seq<seq<Delivery>>, es: seq<Event>, j: nat)
    requires ValidConfig(c) && |queues| == c.shards && j < c.shards
    ensures PublishAll(c, queues, es)[j] == queues[j] + Routed(c, es, j)
    decreases |es|
  {
    if es == [] {
    } else {
      PublishAt(c, queues, es[0], j);
      PublishAllAt(c, Publish(c, queues, es[0]), es[1..], j);
      Reassociate(queues[j], Share(c, es[0], j), Routed(c, es[1..], j));
    }
  }

  /** The workflow handler that will receive the event, if any. */
  function WorkHandler(e: Event): Option<Handler> {
    match e
    case PaymentChargeRequested(_, _, _, _, _, _) => Some(OnCharge)
    case PaymentChargeSucceeded(_, _, _, _) => Some(OnChargeSucceeded)
    case PaymentChargeFailed(_, _, _, _, _, _) => Some(OnChargeFailed)
    case RecoveryRequested(_, _, _, _, _, _, _) => Some(OnRecovery)
    case PaymentInitialized(_, _, _, _, _) => Some(OnInitialized)
    case WalletDebitRequested(_, _, _, _, _) => Some(OnDebit)
    case WalletDebitRejected(_, _, _, _) => Some(OnDebitRejected)
    case WalletDebited(_, _, _, _) => Some(OnDebited)
    case WalletRefundRequested(_, _, _, _) => Some(OnRefund)
    case _ => None
  }

  /** The workflow deliveries of one `Publish`: at most one. */
  function WorkFrom(e: Event): seq<Delivery> {
    if WorkHandler(e).Some? then [Delivery(e, WorkHandler(e).value)] else []
  }

  function ViewFrom(e: Event): seq<Delivery> {
    if TouchesPayment(e) then [Delivery(e, ProjectorSink)] else []
  }

  /**
   Which handler gets an event: the projector what it can apply; audit every change of a payment and every
   debit, refund and recovery; metrics what it counts; the others their one event.
   */
  predicate Gets(h: Handler, e: Event) {
    match h
    case ProjectorSink => TouchesPayment(e) || TouchesWallet(e)
    case AuditSink => TouchesPayment(e) || e.WalletDebited? || e.WalletRefunded? || e.RecoveryRequested?
    case MetricsSink =>
      e.PaymentCreated? || e.PaymentSucceeded? || e.PaymentFailed? || e.WalletDebited? || e.WalletRefunded?
    case NotifyCompletedSink => e.PaymentSucceeded?
    case NotifyFailedSink => e.PaymentFailed?
    case LogDebitedSink => e.WalletDebited?
    case LogRefundedSink => e.WalletRefunded?
    case _ => WorkHandler(e) == Some(h)
  }

  function From(k: Pick, e: Event): seq<Delivery> {
    if !About(k, e) then []
    else match k
      case WorkOf(_) => WorkFrom(e)
      case ViewOf(_) => ViewFrom(e)
      case ByKey(_, h) => if Gets(h, e) then [Delivery(e, h)] else []
  }

  function AllFrom(k: Pick, es: seq<Event>): seq<Delivery> {
    if es == [] then [] else From(k, es[0]) + AllFrom(k, es[1..])
  }

  function Kept(k: Pick, e: Event, hs: seq<Handler>): seq<Handler> {
    if hs == [] then [] else if Picks(k, Delivery(e, hs[0])) then [hs[0]] + Kept(k, e, hs[1..]) else Kept(k, e, hs[1..])
  }

  lemma {:induction false} PickedTo(k: Pick, e: Event, hs: seq<Handler>)
    ensures Picked(k, To(e, hs)) == To(e, Kept(k, e, hs))
  {
    if hs == [] {
    } else {
      PickedTo(k, e, hs[1..]);
    }
  }

  lemma {:induction false} KeptNone(k: Pick, e: Event, hs: seq<Handler>)
    requires forall i :: 0 <= i < |hs| ==> !Picks(k, Delivery(e, hs[i]))
    ensures Kept(k, e, hs) == []
  {
    if hs == [] {
    } else {
      KeptNone(k, e, hs[1..]);
    }
  }

  lemma {:induction false} KeptOne(k: Pick, e: Event, hs: seq<Handler>, p: nat)
    requires p < |hs| && forall i :: 0 <= i < |hs| ==> (Picks(k, Delivery(e, hs[i])) <==> i == p)
    ensures Kept(k, e, hs) == [hs[p]]
  {
    if p == 0 {
      KeptNone(k, e, hs[1..]);
    } else {
      KeptOne(k, e, hs[1..], p - 1);
    }
  }

  /** Where the projector stands among the subscribers of a payment event. */
  lemma {:induction false} ProjectorPlace(e: Event) returns (p: nat)
    requires TouchesPayment(e)
    ensures p < |Subscribers(NameOf(e))| && Subscribers(NameOf(e))[p] == ProjectorSink
    ensures forall i :: 0 <= i < |Subscribers(NameOf(e))| && i != p ==> Subscribers(NameOf(e))[i] != ProjectorSink
  {
    p := if e.PaymentInitialized? then 2 else 1;
  }

  /** The workflow handler, if any, is the first subscriber. */
  lemma {:induction false} WorkflowComesFirst(e: Event)
    ensures forall i :: 0 < i < |Subscribers(NameOf(e))| ==> !IsWork(Subscribers(NameOf(e))[i])
    ensures var hs := Subscribers(NameOf(e));
            WorkHandler(e) == if hs != [] && IsWork(hs[0]) then Some(hs[0]) else None
  {
  }

  /** Each handler subscribes to exactly the events it gets, once. */
  lemma {:induction false} SubscribedOnce(h: Handler, e: Event)
    ensures h in Subscribers(NameOf(e)) <==> Gets(h, e)
    ensures var hs := Subscribers(NameOf(e));
            forall i, j :: 0 <= i < j < |hs| ==> hs[i] != hs[j]
  {
  }

  lemma {:induction false} KeptByKey(k: Pick, e: Event)
    requires k.ByKey?
    ensures To(e, Kept(k, e, Subscribers(NameOf(e)))) == From(k, e)
  {
    var hs := Subscribers(NameOf(e));
    SubscribedOnce(k.handler, e);
    if About(k, e) && Gets(k.handler, e) {
      var p :| 0 <= p < |hs| && hs[p] == k.handler;
      KeptOne(k, e, hs, p);
    } else {
      KeptNone(k, e, hs);
    }
  }

  /** One `Publish` seen through a pick. */
  lemma {:induction false} PickedDeliveries(k: Pick, e: Event)
    ensures Picked(k, Deliveries(e)) == From(k, e)
  {
    var hs := Subscribers(NameOf(e));
    PickedTo(k, e, hs);
    WorkflowComesFirst(e);
    if k.ByKey? {
      KeptByKey(k, e);
    } else if !Of(e, k.id) || (k.WorkOf? && WorkHandler(e).None?) || (k.ViewOf? && !TouchesPayment(e)) {
      KeptNone(k, e, hs);
    } else if k.WorkOf? {
      KeptOne(k, e, hs, 0);
    } else {
      var p := ProjectorPlace(e);
      KeptOne(k, e, hs, p);
    }
  }

  /** The events of a payment all land on its shard, so the picked part of that queue grows by what they carry. */
  lemma {:induction false} PickedRouted(c: Config, k: Pick, es: seq<Event>)
    requires ValidConfig(c) && k.id != ""
    ensures Picked(k, Routed(c, es, Shard(c, k.id))) == AllFrom(k, es)
    decreases |es|
  {
    if es == [] {
    } else {
      var j := Shard(c, k.id);
      PickedRouted(c, k, es[1..]);
      PickedDeliveries(k, es[0]);
      PickedConcat(k, Share(c, es[0], j), Routed(c, es[1..], j));
    }
  }

  /** The picked part of the payment's own queue. */
  function Mine(c: Config, k: Pick, queues: seq<seq<Delivery>>): seq<Delivery>
    requires ValidConfig(c) && |queues| == c.shards
  {
    Picked(k, queues[Shard(c, k.id)])
  }

  lemma {:induction false} MineAfterPublishing(c: Config, k: Pick, queues: seq<seq<Delivery>>, es: seq<Event>)
    requires ValidConfig(c) && |queues| == c.shards && k.id != ""
    ensures Mine(c, k, PublishAll(c, queues, es)) == Mine(c, k, queues) + AllFrom(k, es)
  {
    var j := Shard(c, k.id);
    PublishAllAt(c, queues, es, j);
    PickedConcat(k, queues[j], Routed(c, es, j));
    PickedRouted(c, k, es);
  }

  /** Taking the head off shard `i` takes it out of the picked part if it is picked there, and nothing else. */
  lemma {:induction false} MineAfterTaking(c: Config, k: Pick, queues: seq<seq<Delivery>>, i: nat)
    requires ValidConfig(c) && |queues| == c.shards && i < |queues| && queues[i] != []
    ensures Mine(c, k, queues) == (if i == Shard(c, k.id) && Picks(k, queues[i][0]) then [queues[i][0]] else [])
                                  + Mine(c, k, queues[i := queues[i][1..]])
  {
  }

  /** Every delivery satisfies what its publisher promised. */
  predicate AllIn(es: seq<Event>, id: string) {
    forall k :: 0 <= k < |es| ==> Of(es[k], id)
  }

  lemma {:induction false} AllFromOthers(k: Pick, es: seq<Event>)
    requires forall i :: 0 <= i < |es| ==> !About(k, es[i])
    ensures AllFrom(k, es) == []
    decreases |es|
  {
    if es == [] {
    } else {
      AllFromOthers(k, es[1..]);
    }
  }
}
