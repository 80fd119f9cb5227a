/** Room in the queues: no publish of the saga ever waits for space, so no worker waits on the queue it drains. */
module SagaRoom {
  import opened Events
  import opened Payments
  import opened Broker
  import opened Saga
  import opened SagaQueues
  import opened SagaFlow
  import opened SagaRank
  import W = Wallets

  /** How many of the keys belong to shard `j`. */
  function On(c: Config, keys: seq<string>, j: nat): nat
    requires ValidConfig(c)
  {
    if keys == [] then 0 else On(c, keys[..|keys| - 1], j) + if Shard(c, keys[|keys| - 1]) == j then 1 else 0
  }

  /** All the deliveries the payments and credits of shard `j` can cause. */
  function Demand(c: Config, b: Book, j: nat): nat
    requires ValidConfig(c)
  {
    31 * On(c, b.created, j) + On(c, b.credits, j)
  }

  ghost predicate Bounded(c: Config, s: State)
    requires ValidConfig(c) && |s.queues| == c.shards
  {
    forall j :: 0 <= j < c.shards ==> Load(s.queues[j]) <= Demand(c, s.book, j)
  }

  predicate SameKey(es: seq<Event>, key: string) {
    forall k :: 0 <= k < |es| ==> BusKey(es[k]) == key
  }

  lemma {:induction false} RoutedLoad(c: Config, es: seq<Event>, j: nat, key: string)
    requires ValidConfig(c) && SameKey(es, key)
    ensures Load(Routed(c, es, j)) == if Shard(c, key) == j then Costs(es) else 0
    decreases |es|
  {
    if es == [] {
    } else {
      assert BusKey(es[0]) == key;
      assert SameKey(es[1..], key) by {
        assert forall k :: 0 <= k < |es[1..]| ==> es[1..][k] == es[k + 1];
      }
      RoutedLoad(c, es[1..], j, key);
      LoadOfDeliveries(es[0]);
      LoadConcat(Share(c, es[0], j), Routed(c, es[1..], j));
    }
  }

  lemma {:induction false} LoadAfterPublishing(c: Config, queues: seq<seq<Delivery>>, es: seq<Event>, key: string,
                                               j: nat)
    requires ValidConfig(c) && |queues| == c.shards && j < c.shards && SameKey(es, key)
    ensures Load(PublishAll(c, queues, es)[j]) == Load(queues[j]) + if Shard(c, key) == j then Costs(es) else 0
  {
    PublishAllAt(c, queues, es, j);
    LoadConcat(queues[j], Routed(c, es, j));
    RoutedLoad(c, es, j, key);
  }

  /** What a step publishes, and the queues it publishes on: a worker has taken the delivery it completes. */
  ghost function PublishedBy(s: State, t: Step): seq<Event>
    requires t.Deliver? ==> t.shard < |s.queues| && s.queues[t.shard] != []
  {
    match t
    case Create(r, now) => EventsOf(s.world.payments, Payments.Create(r), now)
    case Credit(u, a, w, now) => if W.AddOutcome(u, a, w).Ok? then [WalletCredited(u, a, now)] else []
    case Deliver(i, o) => Handle(s.queues[i][0].handler, s.queues[i][0].event, s.world, o).published
  }

  ghost function Before(s: State, t: Step): seq<seq<Delivery>>
    requires t.Deliver? ==> t.shard < |s.queues| && s.queues[t.shard] != []
  {
    if t.Deliver? && Completes(s, t.shard, t.oracle) then Taken(s.queues, t.shard) else s.queues
  }

  lemma {:induction false} DeliveryPublishes(c: Config, s: State, i: nat, o: Oracle) returns (key: string)
    requires Inv(c, s) && i < |s.queues| && s.queues[i] != []
    ensures var es := Handle(s.queues[i][0].handler, s.queues[i][0].event, s.world, o).published;
            SameKey(es, key) && (es != [] ==> Shard(c, key) == i)
  {
    var d := s.queues[i][0];
    assert Placed(c, s.world.payments, i, d);
    key := "";
    if IsWork(d.handler) {
      HeadIsTheWork(c, s, i);
      key := d.event.paymentId;
      StageStep(s.world.payments[key], d, HistoryOf(s.book, key), s.world, o, key);
      assert AllIn(Handle(d.handler, d.event, s.world, o).published, key);
    } else {
      SinkStep(d, s.world, o, NO_HISTORY);
    }
  }

  /** A step publishes one list of events of one key over what it found. */
  lemma {:induction false} StepPublishes(c: Config, s: State, t: Step) returns (key: string)
    requires Inv(c, s) && Enabled(c, s, t)
    ensures Next(c, s, t).queues == PublishAll(c, Before(s, t), PublishedBy(s, t)) && SameKey(PublishedBy(s, t), key)
    ensures t.Create? && PublishedBy(s, t) != [] ==> key == t.request.paymentId
    ensures t.Credit? ==> key == t.user
    ensures t.Deliver? && PublishedBy(s, t) != [] ==> Shard(c, key) == t.shard
  {
    match t
    case Create(r, now) => key := r.paymentId;
    case Credit(u, a, w, now) =>
      key := u;
      if W.AddOutcome(u, a, w).Ok? { PublishOne(c, s.queues, WalletCredited(u, a, now)); }
    case Deliver(i, o) => key := DeliveryPublishes(c, s, i, o);
  }

  lemma {:induction false} OneMore(c: Config, keys: seq<string>, key: string, j: nat)
    requires ValidConfig(c)
    ensures On(c, keys + [key], j) == On(c, keys, j) + if Shard(c, key) == j then 1 else 0
  {
  }

  lemma {:induction false} CreateDemands(c: Config, s: State, r: CreateRequest, now: int, j: nat)
    requires ValidConfig(c) && |s.queues| == c.shards
    ensures (if Shard(c, r.paymentId) == j then Costs(EventsOf(s.world.payments, Payments.Create(r), now)) else 0)
            <= Demand(c, CreateStep(c, s, r, now).book, j) - Demand(c, s.book, j)
  {
    CostsOfFew(EventsOf(s.world.payments, Payments.Create(r), now));
    OneMore(c, s.book.created, r.paymentId, j);
  }

  lemma {:induction false} OneMoreCredit(c: Config, b: Book, more: Book, user: string, j: nat)
    requires ValidConfig(c) && more.created == b.created && more.credits == b.credits + [user]
    ensures Demand(c, more, j) == Demand(c, b, j) + if Shard(c, user) == j then 1 else 0
  {
    OneMore(c, b.credits, user, j);
  }

  lemma {:induction false} CreditCosts(user: string, amount: int, now: int)
    ensures Costs([WalletCredited(user, amount, now)]) == 1
  {
    CostsOfFew([WalletCredited(user, amount, now)]);
  }

  lemma {:induction false} CreditDemands(c: Config, s: State, t: Step, j: nat)
    requires ValidConfig(c) && |s.queues| == c.shards && t.Credit?
    ensures (if Shard(c, t.user) == j then Costs(PublishedBy(s, t)) else 0)
            <= Demand(c, CreditStep(c, s, t.user, t.amount, t.write, t.now).book, j) - Demand(c, s.book, j)
  {
    var u := CreditStep(c, s, t.user, t.amount, t.write, t.now);
    if W.AddOutcome(t.user, t.amount, t.write).Ok? {
      CreditCosts(t.user, t.amount, t.now);
      OneMoreCredit(c, s.book, u.book, t.user, j);
    } else {
      assert PublishedBy(s, t) == [] && u.book == s.book;
    }
  }

  lemma {:induction false} DeliverDemands(c: Config, s: State, i: nat, o: Oracle, j: nat)
    requires ValidConfig(c) && |s.queues| == c.shards && i < |s.queues| && s.queues[i] != [] && j < c.shards
    ensures Load(Before(s, Deliver(i, o))[j])
            + (if i == j then Costs(PublishedBy(s, Deliver(i, o))) else 0) <= Load(s.queues[j])
    ensures Demand(c, DeliverStep(c, s, i, o).book, j) == Demand(c, s.book, j)
  {
    HandlingSpends(s.queues[i][0], s.world, o);
  }

  /** What a step costs on shard `j`, against what it adds to the demand there. */
  lemma {:induction false} StepDemands(c: Config, s: State, t: Step, key: string, j: nat)
    requires Inv(c, s) && Enabled(c, s, t) && j < c.shards
    requires t.Create? && PublishedBy(s, t) != [] ==> key == t.request.paymentId
    requires t.Credit? ==> key == t.user
    requires t.Deliver? && PublishedBy(s, t) != [] ==> Shard(c, key) == t.shard
    ensures Load(Before(s, t)[j]) + (if Shard(c, key) == j then Costs(PublishedBy(s, t)) else 0) - Load(s.queues[j])
            <= Demand(c, Next(c, s, t).book, j) - Demand(c, s.book, j)
  {
    match t
    case Create(r, now) => CreateDemands(c, s, r, now, j);
    case Credit(u, a, w, now) => CreditDemands(c, s, t, j);
    case Deliver(i, o) => DeliverDemands(c, s, i, o, j);
  }

  lemma {:induction false} StepKeepsBounded(c: Config, s: State, t: Step)
    requires Inv(c, s) && Bounded(c, s) && Enabled(c, s, t)
    ensures |Next(c, s, t).queues| == c.shards && Bounded(c, Next(c, s, t))
  {
    NextKeepsShards(c, s, t);
    var key := StepPublishes(c, s, t);
    var u := Next(c, s, t);
    forall j | 0 <= j < c.shards ensures Load(u.queues[j]) <= Demand(c, u.book, j) {
      LoadAfterPublishing(c, Before(s, t), PublishedBy(s, t), key, j);
      StepDemands(c, s, t, key, j);
    }
  }

  /** Each publish of the list, in turn, finds room for all its handlers. */
  predicate AllFit(c: Config, capacity: int, queues: seq<seq<Delivery>>, es: seq<Event>)
    requires ValidConfig(c) && |queues| == c.shards
    decreases |es|
  {
    es == [] || (|queues[Shard(c, BusKey(es[0]))]| + |Subscribers(NameOf(es[0]))| <= capacity
                 && AllFit(c, capacity, Publish(c, queues, es[0]), es[1..]))
  }

  /** Queues only grow while one handler publishes, so it is enough that the last state fits. */
  lemma {:induction false} FitFromTheEnd(c: Config, capacity: int, queues: seq<seq<Delivery>>, es: seq<Event>)
    requires ValidConfig(c) && |queues| == c.shards
    requires forall j :: 0 <= j < c.shards ==> |PublishAll(c, queues, es)[j]| <= capacity
    ensures AllFit(c, capacity, queues, es)
    decreases |es|
  {
    if es == [] {
    } else {
      var i := Shard(c, BusKey(es[0]));
      var more := Publish(c, queues, es[0]);
      ToAt(es[0], Subscribers(NameOf(es[0])));
      PublishAllAt(c, more, es[1..], i);
      assert |PublishAll(c, queues, es)[i]| <= capacity;
      FitFromTheEnd(c, capacity, more, es[1..]);
    }
  }

  lemma {:induction false} OnGrows(c: Config, keys: seq<string>, more: seq<string>, j: nat)
    requires ValidConfig(c) && keys <= more
    ensures On(c, keys, j) <= On(c, more, j)
    decreases |more|
  {
    if |keys| < |more| {
      OnGrows(c, keys, more[..|more| - 1], j);
    } else {
      assert keys == more;
    }
  }

  lemma {:induction false} RunGrows(c: Config, s: State, steps: seq<Step>, t: State)
    requires Run(c, s, steps, t)
    ensures s.book.created <= t.book.created && s.book.credits <= t.book.credits
    decreases |steps|
  {
    if steps == [] {
    } else {
      RunGrows(c, Next(c, s, steps[0]), steps[1..], t);
    }
  }

  /** On every shard, all that its payments and credits can cause fits its buffer. */
  ghost predicate Roomy(c: Config, b: Book, capacity: int)
    requires ValidConfig(c)
  {
    forall j :: 0 <= j < c.shards ==> Demand(c, b, j) <= capacity
  }

  /** Every publish of every step of the run finds room. */
  ghost predicate NeverParks(c: Config, capacity: int, s: State, steps: seq<Step>, t: State)
    requires Run(c, s, steps, t)
    decreases |steps|
  {
    steps == [] || (|Before(s, steps[0])| == c.shards
                    && AllFit(c, capacity, Before(s, steps[0]), PublishedBy(s, steps[0]))
                    && NeverParks(c, capacity, Next(c, s, steps[0]), steps[1..], t))
  }

  lemma {:induction false} StepFits(c: Config, s: State, t: Step, capacity: int)
    requires Inv(c, s) && Bounded(c, s) && Enabled(c, s, t) && Roomy(c, Next(c, s, t).book, capacity)
    ensures |Before(s, t)| == c.shards && AllFit(c, capacity, Before(s, t), PublishedBy(s, t))
  {
    var u := Next(c, s, t);
    var key := StepPublishes(c, s, t);
    StepKeepsBounded(c, s, t);
    forall j | 0 <= j < c.shards ensures |u.queues[j]| <= capacity {
      LoadIsAtLeastLength(u.queues[j]);
      assert Load(u.queues[j]) <= Demand(c, u.book, j) <= capacity;
    }
    FitFromTheEnd(c, capacity, Before(s, t), PublishedBy(s, t));
  }

  lemma {:induction false} EarlierIsRoomy(c: Config, s: State, steps: seq<Step>, t: State, capacity: int)
    requires Run(c, s, steps, t) && Roomy(c, t.book, capacity)
    ensures Roomy(c, s.book, capacity)
  {
    RunGrows(c, s, steps, t);
    forall j | 0 <= j < c.shards ensures Demand(c, s.book, j) <= capacity {
      assert Demand(c, t.book, j) <= capacity;
      OnGrows(c, s.book.created, t.book.created, j);
      OnGrows(c, s.book.credits, t.book.credits, j);
    }
  }

  lemma {:induction false} RunNeverParks(c: Config, s: State, steps: seq<Step>, t: State, capacity: int)
    requires Inv(c, s) && Bounded(c, s) && Run(c, s, steps, t) && Roomy(c, t.book, capacity)
    ensures NeverParks(c, capacity, s, steps, t)
    decreases |steps|
  {
    if steps == [] {
    } else {
      var u := Next(c, s, steps[0]);
      StepKeepsInv(c, s, steps[0]);
      StepKeepsBounded(c, s, steps[0]);
      EarlierIsRoomy(c, u, steps[1..], t, capacity);
      StepFits(c, s, steps[0], capacity);
      RunNeverParks(c, u, steps[1..], t, capacity);
    }
  }

  /**
   If, on every shard, 31 times the payments plus the credits of the run is at most the buffer size,
   then every publish of every step finds room for all its handlers: the backpressure branch is never
   taken, and no worker waits on the queue it alone drains.
   */
  lemma {:induction false} NoPublishEverBlocks(c: Config, wallets: map<string, int>, steps: seq<Step>, t: State,
                                               capacity: int)
    requires Run(c, Start(c, wallets), steps, t) && Roomy(c, t.book, capacity)
    ensures NeverParks(c, capacity, Start(c, wallets), steps, t)
  {
    StartInv(c, wallets);
    RunNeverParks(c, Start(c, wallets), steps, t, capacity);
  }

  /** On a wired, open bus with room, the bus object does what `PublishAll` says. */
  method PublishInTurn(bus: Bus, c: Config, es: seq<Event>)
    requires bus.Valid() && !bus.closed && c == Config(|bus.shards|, bus.hash)
    requires forall e: Event :: HandlersOf(bus.handlers, NameOf(e)) == Subscribers(NameOf(e))
    requires AllFit(c, bus.capacity, bus.shards, es)
    modifies bus`shards
    ensures |old(bus.shards)| == c.shards && bus.shards == PublishAll(c, old(bus.shards), es)
  {
    var i := 0;
    while i < |es|
      invariant 0 <= i <= |es| && |bus.shards| == c.shards
      invariant AllFit(c, bus.capacity, bus.shards, es[i..])
      invariant PublishAll(c, bus.shards, es[i..]) == PublishAll(c, old(bus.shards), es)
    {
      ghost var queues := bus.shards;
      assert es[i..][1..] == es[i + 1..];
      var ending;
      ghost var accepted;
      ending, accepted := bus.Publish(es[i], seq(|HandlersOf(bus.handlers, NameOf(es[i]))|, k => false));
      assert bus.shards == Publish(c, queues, es[i]);
      i := i + 1;
    }
  }
}
