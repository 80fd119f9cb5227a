/**
 The payment views while the system runs: what the projector shows, once it has taken what is still
 queued for it, is the repository; and a replay of the store rebuilds the repository at every point.
 */
module SagaReplay {
  import opened Common
  import opened Events
  import opened EventStore
  import opened Payments
  import opened ReadModels
  import opened EventSourcing
  import opened Broker
  import opened Saga
  import opened SagaQueues
  import opened SagaFlow
  import W = Wallets

  function Seen(ds: seq<Delivery>): seq<Event> {
    if ds == [] then [] else [ds[0].event] + Seen(ds[1..])
  }

  lemma {:induction false} SeenConcat(a: seq<Delivery>, b: seq<Delivery>)
    ensures Seen(a + b) == Seen(a) + Seen(b)
  {
    if a == [] {
      assert a + b == b;
    } else {
      assert (a + b)[0] == a[0] && (a + b)[1..] == a[1..] + b;
      SeenConcat(a[1..], b);
    }
  }

  /** The projector receives exactly the events that concern a payment, in order. */
  lemma {:induction false} SeenFrom(es: seq<Event>, id: string)
    ensures Seen(AllFrom(ViewOf(id), es)) == Concerning(es, id)
  {
    if es == [] {
    } else {
      SeenFrom(es[1..], id);
      SeenConcat(From(ViewOf(id), es[0]), AllFrom(ViewOf(id), es[1..]));
      if Of(es[0], id) && TouchesPayment(es[0]) {
        assert Seen([Delivery(es[0], ProjectorSink)]) == [es[0]];
      }
    }
  }

  lemma {:induction false} FoldConcat(v: PaymentView, a: seq<Event>, b: seq<Event>)
    ensures Fold(v, a + b) == Fold(Fold(v, a), b)
    decreases |a|
  {
    if a == [] {
      assert a + b == b;
    } else {
      assert (a + b)[0] == a[0] && (a + b)[1..] == a[1..] + b;
      FoldConcat(if TouchesPayment(a[0]) then PaymentAfter(v, a[0]) else v, a[1..], b);
    }
  }

  /** The events of payment `id` still queued for the projector. */
  function Awaited(c: Config, queues: seq<seq<Delivery>>, id: string): seq<Event>
    requires ValidConfig(c) && |queues| == c.shards
  {
    Seen(Mine(c, ViewOf(id), queues))
  }

  /** The view of `id` once everything queued for it has been taken. */
  function Eventual(c: Config, v: Views, queues: seq<seq<Delivery>>, id: string): PaymentView
    requires ValidConfig(c) && |queues| == c.shards
  {
    Fold(PaymentAt(v, id), Awaited(c, queues, id))
  }

  ghost predicate CatchesUpFor(c: Config, w: World, queues: seq<seq<Delivery>>, id: string)
    requires ValidConfig(c) && |queues| == c.shards
  {
    if id in w.payments then Shows(Eventual(c, w.views, queues, id), w.payments[id]) else id !in w.views.payments
  }

  ghost predicate CatchesUp(c: Config, w: World, queues: seq<seq<Delivery>>)
    requires ValidConfig(c) && |queues| == c.shards
  {
    forall id :: CatchesUpFor(c, w, queues, id)
  }

  /** The store rebuilds the repository. */
  ghost predicate Rebuilds(w: World) {
    Keyed(w.payments) && Decodes(w.log) && Agrees(w.payments, w.log)
  }

  lemma {:induction false} EventualAfterPublishing(c: Config, v: Views, queues: seq<seq<Delivery>>, es: seq<Event>,
                                                   id: string)
    requires ValidConfig(c) && |queues| == c.shards && id != ""
    ensures Eventual(c, v, PublishAll(c, queues, es), id) == Fold(Eventual(c, v, queues, id), Concerning(es, id))
  {
    var mine := Mine(c, ViewOf(id), queues);
    MineAfterPublishing(c, ViewOf(id), queues, es);
    SeenConcat(mine, AllFrom(ViewOf(id), es));
    SeenFrom(es, id);
    FoldConcat(PaymentAt(v, id), Seen(mine), Concerning(es, id));
  }

  /** What a call publishes brings the view of each payment from the old row to the new one. */
  lemma {:induction false} CallShows(v: PaymentView, t: Table, call: Call, now: int, id: string)
    requires StartsBlank(t, call) && Keyed(t)
    requires if id in t then Shows(v, t[id]) else v == ZERO_PAYMENT
    ensures var u, w := TableAfter(t, call), Fold(v, Concerning(EventsOf(t, call, now), id));
            if id in u then Shows(w, u[id]) else w == ZERO_PAYMENT
  {
    if Accepted(t, call) {
      if call.Create? {
        var es := CreateEvents(call.request, now);
        assert es[1..] == [es[1]];
        assert Concerning([es[1]], id) == if call.request.paymentId == id then [es[1]] else [];
        if call.request.paymentId == id {
          var first := PaymentAfter(v, es[0]);
          assert Concerning(es, id) == [es[0], es[1]] && [es[0], es[1]][1..] == [es[1]];
          assert Fold(v, es) == Fold(first, [es[1]]) == PaymentAfter(first, es[1]);
        }
      } else {
        var e := MarkEvent(t[call.id], call, now);
        assert Concerning([e], id) == if call.id == id then [e] else [];
        assert Fold(v, [e]) == PaymentAfter(v, e);
      }
    }
  }

  /** The payment call a workflow delivery makes, if any. */
  function CallOf(d: Delivery): Option<Call> {
    match d.handler
    case OnChargeSucceeded =>
      if d.event.PaymentChargeSucceeded? then Some(MarkSucceeded(d.event.paymentId, d.event.gatewayId)) else None
    case OnChargeFailed =>
      if d.event.PaymentChargeFailed? then Some(MarkFailed(d.event.paymentId, d.event.reason)) else None
    case OnDebitRejected =>
      if d.event.WalletDebitRejected? then Some(MarkRejected(d.event.paymentId, d.event.reason)) else None
    case OnDebited => if d.event.WalletDebited? then Some(MarkPending(d.event.paymentId)) else None
    case _ => None
  }

  /** From `w` to `u`, publishing `es`, the payments, the log and the projected events change as by the call. */
  ghost predicate Does(w: World, u: World, es: seq<Event>, call: Option<Call>, now: int) {
    && u.views == w.views
    && match call
       case None => u.payments == w.payments && u.log == w.log && forall id :: Concerning(es, id) == []
       case Some(c) =>
         && u.payments == TableAfter(w.payments, c) && u.log == LogAfter(w.log, w.payments, c, now)
         && forall id :: Concerning(es, id) == Concerning(EventsOf(w.payments, c, now), id)
  }

  lemma {:induction false} NothingConcerns(es: seq<Event>, id: string)
    requires forall k :: 0 <= k < |es| ==> !TouchesPayment(es[k])
    ensures Concerning(es, id) == []
  {
    if es == [] {
    } else {
      NothingConcerns(es[1..], id);
    }
  }

  lemma {:induction false} OneMoreRequest(es: seq<Event>, e: Event, id: string)
    requires !TouchesPayment(e)
    ensures Concerning(es + [e], id) == Concerning(es, id)
    decreases |es|
  {
    if es == [] {
      assert es + [e] == [e];
      assert [e][1..] == [];
    } else {
      assert (es + [e])[0] == es[0] && (es + [e])[1..] == es[1..] + [e];
      OneMoreRequest(es[1..], e, id);
    }
  }

  lemma {:induction false} MarkingDoes(d: Delivery, w: World, o: Oracle)
    requires CallOf(d).Some?
    ensures var reply := Handle(d.handler, d.event, w, o);
            Does(w, reply.world, reply.published, CallOf(d), o.now)
  {
    var reply, c := Handle(d.handler, d.event, w, o), CallOf(d).value;
    var es := EventsOf(w.payments, c, o.now);
    if reply.published != es {
      var e := reply.published[|reply.published| - 1];
      assert reply.published == es + [e] && !TouchesPayment(e);
      forall id ensures Concerning(reply.published, id) == Concerning(es, id) {
        OneMoreRequest(es, e, id);
      }
    }
  }

  lemma {:induction false} QuietWorkDoes(d: Delivery, w: World, o: Oracle)
    requires IsWork(d.handler) && CallOf(d).None?
    ensures var reply := Handle(d.handler, d.event, w, o);
            Does(w, reply.world, reply.published, None, o.now)
  {
  }

  lemma {:induction false} WorkDoes(d: Delivery, w: World, o: Oracle)
    requires IsWork(d.handler)
    ensures var reply := Handle(d.handler, d.event, w, o);
            Does(w, reply.world, reply.published, CallOf(d), o.now)
  {
    if CallOf(d).Some? { MarkingDoes(d, w, o); } else { QuietWorkDoes(d, w, o); }
  }

  /** Publishing what was done keeps every view on its way to the repository. */
  lemma {:induction false} DoingCatchesUp(c: Config, w: World, queues: seq<seq<Delivery>>, u: World, es: seq<Event>,
                                          call: Option<Call>, now: int)
    requires ValidConfig(c) && |queues| == c.shards && Keyed(w.payments) && Does(w, u, es, call, now)
    requires call.Some? ==> StartsBlank(w.payments, call.value)
    requires CatchesUp(c, w, queues)
    requires forall id :: id !in w.payments ==> Awaited(c, queues, id) == []
    requires "" !in u.payments
    ensures CatchesUp(c, u, PublishAll(c, queues, es))
  {
    forall id ensures CatchesUpFor(c, u, PublishAll(c, queues, es), id) {
      assert CatchesUpFor(c, w, queues, id);
      if id in u.payments {
        EventualAfterPublishing(c, w.views, queues, es, id);
        if call.Some? { CallShows(Eventual(c, w.views, queues, id), w.payments, call.value, now, id); }
      }
    }
  }

  lemma {:induction false} DoingRebuilds(w: World, u: World, es: seq<Event>, call: Option<Call>, now: int)
    requires Rebuilds(w) && Does(w, u, es, call, now) && (call.Some? ==> StartsBlank(w.payments, call.value))
    ensures Rebuilds(u)
  {
    if call.Some? {
      var c := call.value;
      EventsOfAreProjected(w.payments, c, now);
      AppendThenReplay(w.log, Subject(c), EventsOf(w.payments, c, now), now);
      CallMirrors(Project(NO_VIEWS, Decoding(w.log)), w.payments, c, now);
    }
  }

  /** Handing the head of a queue to its handler leaves every view on its way. */
  lemma {:induction false} TakingCatchesUp(c: Config, s: State, i: nat, u: Views, id: string)
    requires ValidConfig(c) && |s.queues| == c.shards && i < |s.queues| && s.queues[i] != []
    requires Placed(c, s.world.payments, i, s.queues[i][0])
    requires u == if s.queues[i][0].handler == ProjectorSink
                  then After(s.world.views, s.queues[i][0].event) else s.world.views
    requires CatchesUpFor(c, s.world, s.queues, id)
    ensures CatchesUpFor(c, s.world.(views := u), Taken(s.queues, i), id)
  {
  }

  lemma {:induction false} NothingAwaited(c: Config, payments: Table, queues: seq<seq<Delivery>>)
    requires ValidConfig(c) && |queues| == c.shards && AllPlaced(c, payments, queues)
    ensures forall id :: id !in payments ==> Awaited(c, queues, id) == []
  {
    forall id | id !in payments ensures Awaited(c, queues, id) == [] {
      NothingQueued(c, payments, queues, ViewOf(id));
    }
  }

  lemma {:induction false} NoEmptyId(c: Config, s: State)
    requires Inv(c, s)
    ensures "" !in s.world.payments
  {
  }

  ghost predicate Faithful(c: Config, s: State)
    requires ValidConfig(c) && |s.queues| == c.shards
  {
    CatchesUp(c, s.world, s.queues) && Rebuilds(s.world)
  }

  /** `t` is reached from `s` by publishing `es` over the queues `base`, doing `call`. */
  ghost predicate Reached(c: Config, s: State, base: seq<seq<Delivery>>, es: seq<Event>, call: Option<Call>, now: int,
                          t: State)
    requires ValidConfig(c)
  {
    && |base| == c.shards && |t.queues| == c.shards && AllPlaced(c, s.world.payments, base)
    && t.queues == PublishAll(c, base, es) && Does(s.world, t.world, es, call, now) && "" !in t.world.payments
  }

  /** A workflow delivery publishes over what is left of the queues, and does its payment call. */
  lemma {:induction false} WorkDelivered(c: Config, s: State, i: nat, o: Oracle)
    returns (base: seq<seq<Delivery>>, es: seq<Event>)
    requires Inv(c, s) && i < |s.queues| && s.queues[i] != [] && IsWork(s.queues[i][0].handler)
    ensures base == s.queues || base == Taken(s.queues, i)
    ensures Reached(c, s, base, es, CallOf(s.queues[i][0]), o.now, DeliverStep(c, s, i, o))
  {
    var d := s.queues[i][0];
    var reply := Handle(d.handler, d.event, s.world, o);
    base, es := if reply.done then Taken(s.queues, i) else s.queues, reply.published;
    WorkDoes(d, s.world, o);
    TakenKeepsPlaced(c, s.world.payments, s.queues, i);
    StepKeepsInv(c, s, Deliver(i, o));
    NoEmptyId(c, DeliverStep(c, s, i, o));
  }

  lemma {:induction false} BaseCatchesUp(c: Config, s: State, i: nat, base: seq<seq<Delivery>>)
    requires Inv(c, s) && CatchesUp(c, s.world, s.queues) && i < |s.queues| && s.queues[i] != []
             && IsWork(s.queues[i][0].handler)
    requires base == s.queues || base == Taken(s.queues, i)
    ensures |base| == c.shards && CatchesUp(c, s.world, base)
  {
    assert Placed(c, s.world.payments, i, s.queues[i][0]);
    forall id ensures CatchesUpFor(c, s.world, base, id) {
      assert CatchesUpFor(c, s.world, s.queues, id);
      TakingCatchesUp(c, s, i, s.world.views, id);
    }
  }

  lemma {:induction false} DoingFaithful(c: Config, s: State, base: seq<seq<Delivery>>, es: seq<Event>,
                                         call: Option<Call>, now: int, t: State)
    requires ValidConfig(c) && Rebuilds(s.world) && Reached(c, s, base, es, call, now, t)
    requires CatchesUp(c, s.world, base)
    requires call.Some? ==> StartsBlank(s.world.payments, call.value)
    ensures Faithful(c, t)
  {
    NothingAwaited(c, s.world.payments, base);
    DoingRebuilds(s.world, t.world, es, call, now);
    DoingCatchesUp(c, s.world, base, t.world, es, call, now);
  }

  lemma {:induction false} SinkFaithful(c: Config, s: State, i: nat, t: State)
    requires Inv(c, s) && Faithful(c, s) && i < |s.queues| && s.queues[i] != [] && Sunk(s, i, t)
    ensures |t.queues| == c.shards && Faithful(c, t)
  {
    assert Placed(c, s.world.payments, i, s.queues[i][0]);
    forall id ensures CatchesUpFor(c, t.world, t.queues, id) {
      assert CatchesUpFor(c, s.world, s.queues, id);
      TakingCatchesUp(c, s, i, t.world.views, id);
    }
  }

  lemma {:induction false} CreateFaithful(c: Config, s: State, r: CreateRequest, now: int)
    requires Inv(c, s) && Faithful(c, s) && (ValidRequest(r) ==> r.paymentId !in s.world.payments)
    ensures Faithful(c, CreateStep(c, s, r, now))
  {
    var t, call := CreateStep(c, s, r, now), Payments.Create(r);
    if ValidRequest(r) {
      var es := EventsOf(s.world.payments, call, now);
      assert Does(s.world, t.world, es, Some(call), now);
      NothingAwaited(c, s.world.payments, s.queues);
      NoEmptyId(c, s);
      DoingCatchesUp(c, s.world, s.queues, t.world, es, Some(call), now);
      DoingRebuilds(s.world, t.world, es, Some(call), now);
    }
  }

  /** An event that concerns no payment changes nothing here. */
  lemma {:induction false} CreditCatchesUp(c: Config, s: State, e: Event, u: World)
    requires Inv(c, s) && CatchesUp(c, s.world, s.queues) && !TouchesPayment(e) && u.payments == s.world.payments
             && u.views == s.world.views
    ensures CatchesUp(c, u, PublishAll(c, s.queues, [e]))
  {
    NoEmptyId(c, s);
    forall id ensures CatchesUpFor(c, u, PublishAll(c, s.queues, [e]), id) {
      assert CatchesUpFor(c, s.world, s.queues, id);
      if id in s.world.payments {
        EventualAfterPublishing(c, s.world.views, s.queues, [e], id);
        NothingConcerns([e], id);
      }
    }
  }

  lemma {:induction false} CreditRebuilds(w: World, e: Event, now: int, u: World)
    requires Rebuilds(w) && e.WalletCredited? && u.payments == w.payments
             && u.log == w.log + [RecordOf(e.userId, e, now)]
    ensures Rebuilds(u)
  {
    assert [RecordOf(e.userId, e, now)][1..] == [];
    assert RecordsOf(e.userId, [e], now) == [RecordOf(e.userId, e, now)];
    AppendThenReplay(w.log, e.userId, [e], now);
    var v := Project(NO_VIEWS, Decoding(w.log));
    assert Project(v, [e]) == After(v, e);
  }

  lemma {:induction false} CreditFaithful(c: Config, s: State, user: string, amount: int, write: W.Write, now: int)
    requires Inv(c, s) && Faithful(c, s)
    ensures Faithful(c, CreditStep(c, s, user, amount, write, now))
  {
    var t, e := CreditStep(c, s, user, amount, write, now), WalletCredited(user, amount, now);
    if W.AddOutcome(user, amount, write).Ok? {
      CreditCatchesUp(c, s, e, t.world);
      CreditRebuilds(s.world, e, now, t.world);
      PublishOne(c, s.queues, e);
    } else {
      assert t.queues == s.queues;
      forall id ensures CatchesUpFor(c, t.world, t.queues, id) {
        assert CatchesUpFor(c, s.world, s.queues, id);
      }
    }
  }

  lemma {:induction false} MarksStartBlank(t: Table, d: Delivery)
    ensures CallOf(d).Some? ==> StartsBlank(t, CallOf(d).value)
  {
  }

  lemma {:induction false} StepFaithful(c: Config, s: State, t: Step)
    requires Inv(c, s) && Faithful(c, s) && Enabled(c, s, t) && FreshStep(s, t)
    ensures |Next(c, s, t).queues| == c.shards && Faithful(c, Next(c, s, t))
  {
    match t
    case Create(r, now) => CreateFaithful(c, s, r, now);
    case Credit(u, a, w, now) => CreditFaithful(c, s, u, a, w, now);
    case Deliver(i, o) =>
      assert Placed(c, s.world.payments, i, s.queues[i][0]);
      if IsWork(s.queues[i][0].handler) {
        var base, es := WorkDelivered(c, s, i, o);
        BaseCatchesUp(c, s, i, base);
        MarksStartBlank(s.world.payments, s.queues[i][0]);
        DoingFaithful(c, s, base, es, CallOf(s.queues[i][0]), o.now, DeliverStep(c, s, i, o));
      }
      else {
        SinkDelivered(c, s, i, o);
        SinkFaithful(c, s, i, DeliverStep(c, s, i, o));
      }
  }

  lemma {:induction false} RunFaithful(c: Config, s: State, steps: seq<Step>, t: State)
    requires Inv(c, s) && Faithful(c, s) && Run(c, s, steps, t)
    ensures Inv(c, t) && Faithful(c, t)
    decreases |steps|
  {
    if steps == [] {
    } else {
      StepKeepsInv(c, s, steps[0]);
      StepFaithful(c, s, steps[0]);
      RunFaithful(c, Next(c, s, steps[0]), steps[1..], t);
    }
  }

  lemma {:induction false} StartFaithful(c: Config, wallets: map<string, int>)
    requires ValidConfig(c)
    ensures Faithful(c, Start(c, wallets))
  {
  }

  /**
   At every point of every run with fresh ids, replaying the store from scratch gives the payment
   repository, and each live view is the repository once the projector has taken what is queued for it.
   */
  lemma {:induction false} StoreRebuildsTheRepositoryAndViewsCatchUp(c: Config, wallets: map<string, int>,
                                                                     steps: seq<Step>, t: State)
    requires Run(c, Start(c, wallets), steps, t)
    ensures ValidConfig(c) && |t.queues| == c.shards
    ensures Agrees(t.world.payments, t.world.log)
    ensures forall id :: id in t.world.payments ==>
              Shows(Eventual(c, t.world.views, t.queues, id), t.world.payments[id])
    ensures Quiescent(t) ==> Mirrors(t.world.views, t.world.payments)
  {
    StartInv(c, wallets);
    StartFaithful(c, wallets);
    RunFaithful(c, Start(c, wallets), steps, t);
    forall id | id in t.world.payments
      ensures Shows(Eventual(c, t.world.views, t.queues, id), t.world.payments[id])
      ensures Quiescent(t) ==> id in t.world.views.payments && Shows(t.world.views.payments[id], t.world.payments[id]) {
      assert CatchesUpFor(c, t.world, t.queues, id);
      if Quiescent(t) {
        assert t.queues[Shard(c, id)] == [];
        assert Sound(t.world.payments[id], id);
      }
    }
    forall id | id !in t.world.payments ensures id !in t.world.views.payments {
      assert CatchesUpFor(c, t.world, t.queues, id);
    }
  }
}
