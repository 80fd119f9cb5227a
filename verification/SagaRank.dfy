/**
 Termination of the saga and room in its queues: every delivery carries the deliveries it can still
 cause, and handling it spends at least one.
 */
module SagaRank {
  import opened Events
  import opened Payments
  import opened Broker
  import opened Saga
  import opened SagaQueues
  import opened SagaFlow
  import ChargeHandler

  /** At most this many deliveries can still be published once `d` is handled. */
  function Budget(d: Delivery): nat {
    match d.handler
    case OnInitialized => 25
    case OnDebit => if d.event.WalletDebitRequested? && d.event.attempt == 1 then 24 else 21
    case OnDebitRejected => 2
    case OnDebited => 16
    case OnCharge => if d.event.PaymentChargeRequested? && d.event.attempt <= 5 then 13 else 10
    case OnChargeSucceeded => 4
    case OnChargeFailed => 9
    case OnRefund => 4
    case OnRecovery =>
      if d.event.RecoveryRequested? && d.event.action.ChargeAction? then if d.event.attempts + 1 <= 5 then 14 else 11
      else if d.event.RecoveryRequested? && d.event.attempts + 1 == 1 then 25 else 22
    case _ => 0
  }

  /** A delivery and everything it can still cause. */
  function Weight(d: Delivery): nat {
    if IsWork(d.handler) then 1 + Budget(d) else 1
  }

  function Load(q: seq<Delivery>): nat {
    if q == [] then 0 else Weight(q[0]) + Load(q[1..])
  }

  /** The rank of a state: the load of all its queues. */
  function Rank(queues: seq<seq<Delivery>>): nat {
    if queues == [] then 0 else Load(queues[0]) + Rank(queues[1..])
  }

  /** What one `Publish` adds. */
  function Cost(e: Event): nat {
    |Subscribers(NameOf(e))| + if WorkHandler(e).Some? then Budget(Delivery(e, WorkHandler(e).value)) else 0
  }

  function Costs(es: seq<Event>): nat {
    if es == [] then 0 else Cost(es[0]) + Costs(es[1..])
  }

  lemma {:induction false} LoadConcat(a: seq<Delivery>, b: seq<Delivery>)
    ensures Load(a + b) == Load(a) + Load(b)
  {
    if a == [] {
      assert a + b == b;
    } else {
      assert (a + b)[0] == a[0] && (a + b)[1..] == a[1..] + b;
      LoadConcat(a[1..], b);
    }
  }

  lemma {:induction false} LoadIsAtLeastLength(q: seq<Delivery>)
    ensures |q| <= Load(q)
  {
    if q == [] {
    } else {
      LoadIsAtLeastLength(q[1..]);
    }
  }

  lemma {:induction false} LoadOfSinks(e: Event, hs: seq<Handler>)
    requires forall i :: 0 <= i < |hs| ==> !IsWork(hs[i])
    ensures Load(To(e, hs)) == |hs|
  {
    if hs == [] {
    } else {
      LoadOfSinks(e, hs[1..]);
    }
  }

  lemma {:induction false} LoadOfDeliveries(e: Event)
    ensures Load(Deliveries(e)) == Cost(e)
  {
    var hs := Subscribers(NameOf(e));
    WorkflowComesFirst(e);
    if hs != [] {
      LoadOfSinks(e, hs[1..]);
    }
  }

  lemma {:induction false} RankUpdate(queues: seq<seq<Delivery>>, i: nat, q: seq<Delivery>)
    requires i < |queues|
    ensures Rank(queues[i := q]) == Rank(queues) - Load(queues[i]) + Load(q)
  {
    var updated := queues[i := q];
    if i == 0 {
      assert updated[1..] == queues[1..];
    } else {
      assert updated[1..] == queues[1..][i - 1 := q];
      RankUpdate(queues[1..], i - 1, q);
    }
  }

  lemma {:induction false} PublishAllRanks(c: Config, queues: seq<seq<Delivery>>, es: seq<Event>)
    requires ValidConfig(c) && |queues| == c.shards
    ensures Rank(PublishAll(c, queues, es)) == Rank(queues) + Costs(es)
    decreases |es|
  {
    if es == [] {
    } else {
      var i := Shard(c, BusKey(es[0]));
      LoadOfDeliveries(es[0]);
      LoadConcat(queues[i], Deliveries(es[0]));
      RankUpdate(queues, i, queues[i] + Deliveries(es[0]));
      PublishAllRanks(c, Publish(c, queues, es[0]), es[1..]);
    }
  }

  lemma {:induction false} CostsOfFew(es: seq<Event>)
    requires |es| <= 2
    ensures |es| == 1 ==> Costs(es) == Cost(es[0])
    ensures |es| == 2 ==> Costs(es) == Cost(es[0]) + Cost(es[1])
  {
    if |es| == 2 {
      var last := [es[1]];
      assert es[1..] == last;
      assert Costs(last) == Cost(last[0]);
    }
  }

  /** A charge asks for recovery only when it started at attempt 5 or before. */
  lemma {:induction false} ChargeSpends(d: Delivery, w: World, o: Oracle)
    requires d.handler == OnCharge && d.event.PaymentChargeRequested?
    ensures Costs(Handle(d.handler, d.event, w, o).published) <= Budget(d)
  {
  }

  lemma {:induction false} RequestSpends(d: Delivery, w: World, o: Oracle)
    requires d.handler in {OnDebit, OnRecovery, OnRefund, OnInitialized}
    ensures var reply := Handle(d.handler, d.event, w, o);
            if reply.done then Costs(reply.published) <= Budget(d) else reply.published == []
  {
    CostsOfFew(Handle(d.handler, d.event, w, o).published);
  }

  lemma {:induction false} MarkSpends(d: Delivery, w: World, o: Oracle)
    requires d.handler in {OnChargeSucceeded, OnChargeFailed, OnDebitRejected, OnDebited}
    ensures var reply := Handle(d.handler, d.event, w, o);
            if reply.done then Costs(reply.published) <= Budget(d) else reply.published == []
  {
    CostsOfFew(Handle(d.handler, d.event, w, o).published);
  }

  /** Handling a delivery publishes less than it weighs; a handler that fails publishes nothing. */
  lemma {:induction false} HandlingSpends(d: Delivery, w: World, o: Oracle)
    ensures var reply := Handle(d.handler, d.event, w, o);
            if reply.done then Costs(reply.published) + 1 <= Weight(d) else reply.published == []
  {
    if d.handler in {OnDebit, OnRecovery, OnRefund, OnInitialized} { RequestSpends(d, w, o); }
    else if d.handler in {OnChargeSucceeded, OnChargeFailed, OnDebitRejected, OnDebited} { MarkSpends(d, w, o); }
    else if d.handler == OnCharge && d.event.PaymentChargeRequested? { ChargeSpends(d, w, o); }
  }

  /** The delivery at the head of shard `i` is handled to the end. */
  predicate Completes(s: State, i: nat, o: Oracle)
    requires i < |s.queues| && s.queues[i] != []
  {
    Handle(s.queues[i][0].handler, s.queues[i][0].event, s.world, o).done
  }

  /** Every completed delivery spends rank, in any state whatever; the others leave it alone. */
  lemma {:induction false} DeliverySpends(c: Config, s: State, i: nat, o: Oracle)
    requires ValidConfig(c) && |s.queues| == c.shards && i < |s.queues| && s.queues[i] != []
    ensures var t := DeliverStep(c, s, i, o);
            if Completes(s, i, o) then Rank(t.queues) < Rank(s.queues) else t.queues == s.queues
  {
    var d := s.queues[i][0];
    var reply := Handle(d.handler, d.event, s.world, o);
    HandlingSpends(d, s.world, o);
    RankUpdate(s.queues, i, s.queues[i][1..]);
    PublishAllRanks(c, if reply.done then s.queues[i := s.queues[i][1..]] else s.queues, reply.published);
  }

  /** Completed deliveries of a run. */
  ghost function Completed(c: Config, s: State, steps: seq<Step>, t: State): nat
    requires Run(c, s, steps, t)
    decreases |steps|
  {
    if steps == [] then 0
    else (if steps[0].Deliver? && Completes(s, steps[0].shard, steps[0].oracle) then 1 else 0)
         + Completed(c, Next(c, s, steps[0]), steps[1..], t)
  }

  lemma {:induction false} StepSpends(c: Config, s: State, t: Step)
    requires ValidConfig(c) && |s.queues| == c.shards && Enabled(c, s, t)
    ensures var u := Next(c, s, t);
            Rank(u.queues) + (if t.Deliver? && Completes(s, t.shard, t.oracle) then 1 else 0)
            <= Rank(s.queues) + 31 * (|u.book.created| - |s.book.created|) + (|u.book.credits| - |s.book.credits|)
  {
    match t
    case Create(r, now) =>
      var es := EventsOf(s.world.payments, Payments.Create(r), now);
      CostsOfFew(es);
      PublishAllRanks(c, s.queues, es);
    case Credit(u, a, w, now) =>
      var e := WalletCredited(u, a, now);
      CostsOfFew([e]);
      PublishOne(c, s.queues, e);
      PublishAllRanks(c, s.queues, [e]);
    case Deliver(i, o) => DeliverySpends(c, s, i, o);
  }

  /**
   Termination: whatever the gateway answers and however writes and sleeps end, the completed deliveries
   and the rank left never exceed the rank at the start plus 31 per created payment and one per credit.
   */
  lemma {:induction false} RunSpends(c: Config, s: State, steps: seq<Step>, t: State)
    requires Run(c, s, steps, t)
    ensures Rank(t.queues) + Completed(c, s, steps, t)
            <= Rank(s.queues) + 31 * (|t.book.created| - |s.book.created|) + (|t.book.credits| - |s.book.credits|)
    decreases |steps|
  {
    if steps == [] {
    } else {
      StepSpends(c, s, steps[0]);
      RunSpends(c, Next(c, s, steps[0]), steps[1..], t);
    }
  }

  lemma {:induction false} EmptyRank(queues: seq<seq<Delivery>>)
    requires forall j :: 0 <= j < |queues| ==> queues[j] == []
    ensures Rank(queues) == 0
  {
    if queues == [] {
    } else {
      EmptyRank(queues[1..]);
    }
  }

  /** From an empty system, at most 31 deliveries per payment and one per credit are ever completed. */
  lemma {:induction false} SagaTerminates(c: Config, wallets: map<string, int>, steps: seq<Step>, t: State)
    requires Run(c, Start(c, wallets), steps, t)
    ensures Rank(t.queues) + Completed(c, Start(c, wallets), steps, t) <= 31 * |t.book.created| + |t.book.credits|
  {
    EmptyRank(Start(c, wallets).queues);
    RunSpends(c, Start(c, wallets), steps, t);
  }

  /** Only its own worker takes from a queue: every other step at most adds to its tail. */
  lemma {:induction false} QueuesGrow(c: Config, s: State, t: Step, i: nat)
    requires ValidConfig(c) && |s.queues| == c.shards && Enabled(c, s, t) && i < c.shards
    requires t.Deliver? && t.shard == i ==> !Completes(s, i, t.oracle)
    ensures s.queues[i] <= Next(c, s, t).queues[i]
  {
    match t
    case Create(r, now) => PublishAllAt(c, s.queues, EventsOf(s.world.payments, Payments.Create(r), now), i);
    case Credit(u, a, w, now) =>
    case Deliver(j, o) =>
      var reply := Handle(s.queues[j][0].handler, s.queues[j][0].event, s.world, o);
      HandlingSpends(s.queues[j][0], s.world, o);
      PublishAllAt(c, if reply.done then Taken(s.queues, j) else s.queues, reply.published, i);
  }
}
