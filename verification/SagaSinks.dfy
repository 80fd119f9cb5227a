/**
 Every subscriber sees every event once: over whole runs, what a handler completed of a key, in order,
 followed by what is queued for it, is what was published of that key and the handler subscribes to.
 */
module SagaSinks {
  import opened Events
  import opened Broker
  import opened Saga
  import opened SagaQueues
  import opened SagaFlow
  import opened SagaRank
  import opened SagaRoom

  /** What the steps of a run publish, in order. */
  ghost function Published(c: Config, s: State, steps: seq<Step>, t: State): seq<Event>
    requires Run(c, s, steps, t)
    decreases |steps|
  {
    if steps == [] then [] else PublishedBy(s, steps[0]) + Published(c, Next(c, s, steps[0]), steps[1..], t)
  }

  /** The delivery a step completes, if the pick is about it. */
  ghost function CompletedBy(s: State, t: Step, k: Pick): seq<Delivery>
    requires t.Deliver? ==> t.shard < |s.queues| && s.queues[t.shard] != []
  {
    if t.Deliver? && Completes(s, t.shard, t.oracle) && Picks(k, s.queues[t.shard][0])
    then [s.queues[t.shard][0]] else []
  }

  /** The picked deliveries the steps of a run complete, in order. */
  ghost function Handed(c: Config, s: State, steps: seq<Step>, t: State, k: Pick): seq<Delivery>
    requires Run(c, s, steps, t)
    decreases |steps|
  {
    if steps == [] then [] else CompletedBy(s, steps[0], k) + Handed(c, Next(c, s, steps[0]), steps[1..], t, k)
  }

  lemma {:induction false} AllFromConcat(k: Pick, a: seq<Event>, b: seq<Event>)
    ensures AllFrom(k, a + b) == AllFrom(k, a) + AllFrom(k, b)
  {
    if a == [] {
      assert a + b == b;
    } else {
      assert (a + b)[0] == a[0] && (a + b)[1..] == a[1..] + b;
      AllFromConcat(k, a[1..], b);
      Reassociate(From(k, a[0]), AllFrom(k, a[1..]), AllFrom(k, b));
    }
  }

  /** A queued delivery of the key `k.id` is on that key's shard. */
  ghost predicate KeysAtHome(c: Config, queues: seq<seq<Delivery>>)
    requires ValidConfig(c)
  {
    forall j, i :: 0 <= j < |queues| && 0 <= i < |queues[j]| ==> AtHome(c, j, queues[j][i])
  }

  predicate AtHome(c: Config, j: nat, d: Delivery)
    requires ValidConfig(c)
  {
    Shard(c, BusKey(d.event)) == j
  }

  lemma {:induction false} PublishKeepsHome(c: Config, queues: seq<seq<Delivery>>, e: Event)
    requires ValidConfig(c) && |queues| == c.shards && KeysAtHome(c, queues)
    ensures KeysAtHome(c, Publish(c, queues, e))
  {
    ToAt(e, Subscribers(NameOf(e)));
    var r := Publish(c, queues, e);
    forall j, i | 0 <= j < |r| && 0 <= i < |r[j]| ensures AtHome(c, j, r[j][i]) {
      if i < |queues[j]| {
        assert r[j][i] == queues[j][i];
      } else {
        assert r[j][i] == Deliveries(e)[i - |queues[j]|];
      }
    }
  }

  lemma {:induction false} PublishAllKeepsHome(c: Config, queues: seq<seq<Delivery>>, es: seq<Event>)
    requires ValidConfig(c) && |queues| == c.shards && KeysAtHome(c, queues)
    ensures KeysAtHome(c, PublishAll(c, queues, es))
    decreases |es|
  {
    if es == [] {
    } else {
      PublishKeepsHome(c, queues, es[0]);
      PublishAllKeepsHome(c, Publish(c, queues, es[0]), es[1..]);
    }
  }

  lemma {:induction false} TakenKeepsHome(c: Config, queues: seq<seq<Delivery>>, i: nat)
    requires ValidConfig(c) && KeysAtHome(c, queues) && i < |queues| && queues[i] != []
    ensures KeysAtHome(c, Taken(queues, i))
  {
    var r := Taken(queues, i);
    forall j, n | 0 <= j < |r| && 0 <= n < |r[j]| ensures AtHome(c, j, r[j][n]) {
      assert r[j][n] == queues[j][if j == i then n + 1 else n];
    }
  }

  /** The picked part of a queue moves by what a step completes and publishes. */
  lemma {:induction false} StepHands(c: Config, s: State, t: Step, k: Pick)
    requires Inv(c, s) && KeysAtHome(c, s.queues) && Enabled(c, s, t) && k.ByKey? && k.id != ""
    ensures var u := Next(c, s, t);
            && |u.queues| == c.shards && KeysAtHome(c, u.queues)
            && Mine(c, k, s.queues) + AllFrom(k, PublishedBy(s, t)) == CompletedBy(s, t, k) + Mine(c, k, u.queues)
  {
    var key := StepPublishes(c, s, t);
    NextKeepsShards(c, s, t);
    var base, es := Before(s, t), PublishedBy(s, t);
    if t.Deliver? {
      MineAfterTaking(c, k, s.queues, t.shard);
      TakenKeepsHome(c, s.queues, t.shard);
      assert AtHome(c, t.shard, s.queues[t.shard][0]);
    }
    assert Mine(c, k, s.queues) == CompletedBy(s, t, k) + Mine(c, k, base);
    PublishAllKeepsHome(c, base, es);
    MineAfterPublishing(c, k, base, es);
    Reassociate(CompletedBy(s, t, k), Mine(c, k, base), AllFrom(k, es));
  }

  lemma {:induction false} RunHands(c: Config, s: State, steps: seq<Step>, t: State, k: Pick)
    requires Inv(c, s) && KeysAtHome(c, s.queues) && Run(c, s, steps, t) && k.ByKey? && k.id != ""
    ensures |t.queues| == c.shards
    ensures Mine(c, k, s.queues) + AllFrom(k, Published(c, s, steps, t))
            == Handed(c, s, steps, t, k) + Mine(c, k, t.queues)
    decreases |steps|
  {
    if steps == [] {
      assert Mine(c, k, s.queues) + [] == [] + Mine(c, k, t.queues);
    } else {
      var u, rest := Next(c, s, steps[0]), steps[1..];
      var es, more := PublishedBy(s, steps[0]), Published(c, u, rest, t);
      StepHands(c, s, steps[0], k);
      StepKeepsInv(c, s, steps[0]);
      RunHands(c, u, rest, t, k);
      AllFromConcat(k, es, more);
      Reassociate(Mine(c, k, s.queues), AllFrom(k, es), AllFrom(k, more));
      Reassociate(CompletedBy(s, steps[0], k), Mine(c, k, u.queues), AllFrom(k, more));
      Reassociate(CompletedBy(s, steps[0], k), Handed(c, u, rest, t, k), Mine(c, k, t.queues));
    }
  }

  /**
   In every run from an empty system, for each handler and each partition key: the events of that key the
   handler has completed, in order, followed by those still queued for it, are exactly the events of that
   key published so far that the handler gets, each once and in publishing order. At rest it has completed
   them all.
   */
  lemma {:induction false} EveryHandlerGetsItsEventsOnce(c: Config, wallets: map<string, int>, steps: seq<Step>,
                                                         t: State, key: string, h: Handler)
    requires Run(c, Start(c, wallets), steps, t) && key != ""
    ensures |t.queues| == c.shards
    ensures Handed(c, Start(c, wallets), steps, t, ByKey(key, h)) + Mine(c, ByKey(key, h), t.queues)
            == AllFrom(ByKey(key, h), Published(c, Start(c, wallets), steps, t))
    ensures Quiescent(t) ==>
              Handed(c, Start(c, wallets), steps, t, ByKey(key, h))
              == AllFrom(ByKey(key, h), Published(c, Start(c, wallets), steps, t))
  {
    var s, k := Start(c, wallets), ByKey(key, h);
    StartInv(c, wallets);
    RunHands(c, s, steps, t, k);
    assert Mine(c, k, s.queues) == [];
    assert [] + AllFrom(k, Published(c, s, steps, t)) == AllFrom(k, Published(c, s, steps, t));
    if Quiescent(t) {
      assert t.queues[Shard(c, key)] == [];
      assert Handed(c, s, steps, t, k) + [] == Handed(c, s, steps, t, k);
    }
  }
}
