/**
 Progress of the saga: exactly when the delivery at the head of a shard completes, what keeps a shard
 from moving, and that every schedule of deliveries that can complete ends with the system at rest.
 */
module SagaLiveness {
  import opened Common
  import opened Events
  import opened Payments
  import opened Broker
  import opened Saga
  import opened SagaQueues
  import opened SagaFlow
  import opened SagaRank
  import opened SagaMoney
  import W = Wallets

  /**
   What a delivery asks of the environment: a recovery that its sleep is not interrupted, a refund that
   its write is done. A debit whose write fails still completes, as does every other delivery.
   */
  predicate Obliged(d: Delivery, o: Oracle) {
    (d.handler == OnRecovery ==> o.sleepOk) && (d.handler == OnRefund ==> o.write.Done?)
  }

  lemma {:induction false} WorkCompletesIff(p: Payment, d: Delivery, h: History, w: World, o: Oracle, id: string)
    requires Ready(p, d, h, w, id)
    ensures Handle(d.handler, d.event, w, o).done <==> Obliged(d, o)
  {
  }

  /** In a coherent state the head of a shard completes exactly when the environment obliges. */
  lemma {:induction false} HeadCompletesIff(c: Config, s: State, i: nat, o: Oracle)
    requires Inv(c, s) && i < |s.queues| && s.queues[i] != []
    ensures Completes(s, i, o) <==> Obliged(s.queues[i][0], o)
  {
    var d := s.queues[i][0];
    assert Placed(c, s.world.payments, i, d);
    if IsWork(d.handler) {
      HeadIsTheWork(c, s, i);
      var id := d.event.paymentId;
      WorkCompletesIff(s.world.payments[id], d, HistoryOf(s.book, id), s.world, o, id);
    } else {
      SinkStep(d, s.world, o, NO_HISTORY);
    }
  }

  /** Whatever the state, a head that is not obliged does not complete. */
  lemma {:induction false} NotObligedNotCompleted(s: State, i: nat, o: Oracle)
    requires i < |s.queues| && s.queues[i] != [] && !Obliged(s.queues[i][0], o)
    ensures !Completes(s, i, o)
  {
  }

  /** No delivery on shard `i` in these steps obliges `d`. */
  predicate NeverObliged(steps: seq<Step>, i: nat, d: Delivery)
    decreases |steps|
  {
    steps == [] || ((steps[0].Deliver? && steps[0].shard == i ==> !Obliged(d, steps[0].oracle))
                    && NeverObliged(steps[1..], i, d))
  }

  /**
   A head that is not obliged keeps its shard, in any run from any state: nothing behind it is ever
   taken. So does a recovery interrupted each time, and a refund whose write fails each time.
   */
  lemma {:induction false} UnobligedHeadHoldsItsShard(c: Config, s: State, steps: seq<Step>, t: State, i: nat)
    requires Run(c, s, steps, t) && i < |s.queues| && s.queues[i] != [] && NeverObliged(steps, i, s.queues[i][0])
    ensures |t.queues| == c.shards && s.queues[i] <= t.queues[i]
    decreases |steps|
  {
    if steps == [] {
    } else {
      if steps[0].Deliver? && steps[0].shard == i {
        NotObligedNotCompleted(s, i, steps[0].oracle);
      }
      QueuesGrow(c, s, steps[0], i);
      UnobligedHeadHoldsItsShard(c, Next(c, s, steps[0]), steps[1..], t, i);
    }
  }

  /** Deliveries that shard `i` completes in a run. */
  ghost function CompletedOn(c: Config, s: State, steps: seq<Step>, t: State, i: nat): nat
    requires Run(c, s, steps, t)
    decreases |steps|
  {
    if steps == [] then 0
    else (if steps[0].Deliver? && steps[0].shard == i && Completes(s, i, steps[0].oracle) then 1 else 0)
         + CompletedOn(c, Next(c, s, steps[0]), steps[1..], t, i)
  }

  /**
   From a coherent state, a shard with something queued moves in a run if and only if some delivery obliges
   its head.
   */
  lemma {:induction false} ShardMovesIffItsHeadIsObliged(c: Config, s: State, steps: seq<Step>, t: State, i: nat)
    requires Inv(c, s) && Run(c, s, steps, t) && i < |s.queues| && s.queues[i] != []
    ensures CompletedOn(c, s, steps, t, i) > 0 <==> !NeverObliged(steps, i, s.queues[i][0])
    decreases |steps|
  {
    if steps == [] {
    } else {
      var here := steps[0].Deliver? && steps[0].shard == i;
      if here {
        HeadCompletesIff(c, s, i, steps[0].oracle);
      }
      if !here || !Completes(s, i, steps[0].oracle) {
        QueuesGrow(c, s, steps[0], i);
        StepKeepsInv(c, s, steps[0]);
        ShardMovesIffItsHeadIsObliged(c, Next(c, s, steps[0]), steps[1..], t, i);
      }
    }
  }

  /** A schedule of the workers alone in which every delivery is obliged. */
  ghost predicate ObligingSchedule(c: Config, s: State, steps: seq<Step>, t: State)
    requires Run(c, s, steps, t)
    decreases |steps|
  {
    steps == [] || (steps[0].Deliver? && Obliged(s.queues[steps[0].shard][0], steps[0].oracle)
                    && ObligingSchedule(c, Next(c, s, steps[0]), steps[1..], t))
  }

  /** One more delivery can be scheduled. */
  ghost predicate CanGoOn(c: Config, s: State) {
    exists i: nat, o :: Enabled(c, s, Deliver(i, o)) && Obliged(s.queues[i][0], o)
  }

  lemma {:induction false} RestIsWhereSchedulesStop(c: Config, s: State)
    ensures CanGoOn(c, s) <==> !Quiescent(s)
  {
    if !Quiescent(s) {
      var i: nat :| i < |s.queues| && s.queues[i] != [];
      var o := Oracle(W.Done, [], true, 0);
      assert Enabled(c, s, Deliver(i, o)) && Obliged(s.queues[i][0], o);
    }
  }

  /**
   Every such schedule, in whatever order the shards are served and whatever the gateway and the debits'
   writes do, is at most as long as the rank of where it starts; and one that cannot be continued has
   brought the system to rest.
   */
  lemma {:induction false} EveryScheduleSettles(c: Config, s: State, steps: seq<Step>, t: State)
    requires Inv(c, s) && Run(c, s, steps, t) && ObligingSchedule(c, s, steps, t)
    ensures Inv(c, t) && |steps| + Rank(t.queues) <= Rank(s.queues)
    ensures !CanGoOn(c, t) <==> Quiescent(t)
    decreases |steps|
  {
    RestIsWhereSchedulesStop(c, t);
    if steps == [] {
    } else {
      var i, o := steps[0].shard, steps[0].oracle;
      HeadCompletesIff(c, s, i, o);
      DeliverySpends(c, s, i, o);
      StepKeepsInv(c, s, steps[0]);
      EveryScheduleSettles(c, Next(c, s, steps[0]), steps[1..], t);
    }
  }

  /** What the environment does at the `n`-th step of a schedule, given the delivery it serves. */
  type Environment = (nat, Delivery) -> Oracle

  ghost predicate AlwaysObliges(env: Environment) {
    forall n, d :: Obliged(d, env(n, d))
  }

  /** Only deliveries, the `n`-th of them under `env(k + n, _)`. */
  ghost predicate Serves(c: Config, s: State, steps: seq<Step>, t: State, env: Environment, k: nat)
    requires Run(c, s, steps, t)
    decreases |steps|
  {
    steps == [] || (steps[0].Deliver? && steps[0].oracle == env(k, s.queues[steps[0].shard][0])
                    && Serves(c, Next(c, s, steps[0]), steps[1..], t, env, k + 1))
  }

  lemma {:induction false} ServesObliges(c: Config, s: State, steps: seq<Step>, t: State, env: Environment, k: nat)
    requires Run(c, s, steps, t) && Serves(c, s, steps, t, env, k) && AlwaysObliges(env)
    ensures ObligingSchedule(c, s, steps, t)
    decreases |steps|
  {
    if steps == [] {
    } else {
      ServesObliges(c, Next(c, s, steps[0]), steps[1..], t, env, k + 1);
    }
  }

  ghost predicate Steps(c: Config, s: State, step: Step, u: State) {
    ValidConfig(c) && |s.queues| == c.shards && Enabled(c, s, step) && FreshStep(s, step) && u == Next(c, s, step)
  }

  lemma {:induction false} Progress(c: Config, s: State, env: Environment, k: nat) returns (step: Step, u: State)
    requires Inv(c, s) && !Quiescent(s) && AlwaysObliges(env)
    ensures Steps(c, s, step, u) && step.Deliver? && step.oracle == env(k, s.queues[step.shard][0])
    ensures Inv(c, u) && Rank(u.queues) < Rank(s.queues)
  {
    var i: nat :| i < |s.queues| && s.queues[i] != [];
    var o := env(k, s.queues[i][0]);
    HeadCompletesIff(c, s, i, o);
    DeliverySpends(c, s, i, o);
    StepKeepsInv(c, s, Deliver(i, o));
    step, u := Deliver(i, o), DeliverStep(c, s, i, o);
  }

  lemma {:induction false} ServeFirst(c: Config, s: State, step: Step, u: State, rest: seq<Step>, t: State,
                                      env: Environment, k: nat)
    requires Steps(c, s, step, u) && Run(c, u, rest, t) && Serves(c, u, rest, t, env, k + 1)
    requires step.Deliver? && step.oracle == env(k, s.queues[step.shard][0])
    ensures Run(c, s, [step] + rest, t) && Serves(c, s, [step] + rest, t, env, k)
  {
    assert ([step] + rest)[1..] == rest;
  }

  /** From every coherent state, under any environment that obliges, the workers alone reach rest. */
  lemma {:induction false} Settles(c: Config, s: State, env: Environment, k: nat) returns (steps: seq<Step>, t: State)
    requires Inv(c, s) && AlwaysObliges(env)
    ensures Run(c, s, steps, t) && Serves(c, s, steps, t, env, k) && Quiescent(t)
    decreases Rank(s.queues)
  {
    if Quiescent(s) {
      return [], s;
    }
    var step, u := Progress(c, s, env, k);
    var rest;
    rest, t := Settles(c, u, env, k + 1);
    ServeFirst(c, s, step, u, rest, t, env, k);
    steps := [step] + rest;
  }

  lemma {:induction false} RunJoin(c: Config, s: State, a: seq<Step>, t: State, b: seq<Step>, u: State)
    requires Run(c, s, a, t) && Run(c, t, b, u)
    ensures Run(c, s, a + b, u)
    ensures Untorn(c, s, a, t) && Untorn(c, t, b, u) ==> Untorn(c, s, a + b, u)
    decreases |a|
  {
    if a == [] {
      assert a + b == b;
    } else {
      assert (a + b)[0] == a[0] && (a + b)[1..] == a[1..] + b;
      RunJoin(c, Next(c, s, a[0]), a[1..], t, b, u);
    }
  }

  /** No write fails after it changed a balance. */
  ghost predicate NeverTears(env: Environment) {
    forall n, d :: !env(n, d).write.FailedAfter?
  }

  lemma {:induction false} ServingTearsNothing(c: Config, s: State, steps: seq<Step>, t: State, env: Environment,
                                               k: nat)
    requires Run(c, s, steps, t) && Serves(c, s, steps, t, env, k)
    ensures t.book.credited == s.book.credited
    ensures NeverTears(env) ==> Untorn(c, s, steps, t)
    decreases |steps|
  {
    if steps == [] {
    } else {
      ServingTearsNothing(c, Next(c, s, steps[0]), steps[1..], t, env, k + 1);
    }
  }

  /**
   Every reachable state can be brought to rest, within as many deliveries as its rank and under any
   environment that obliges, debits failing as they may. Every payment is then finished; and if no write
   before or after is torn, each user has paid exactly for the succeeded payments.
   */
  lemma {:induction false} EveryRunCanSettle(c: Config, initial: map<string, int>, steps: seq<Step>, t: State,
                                             env: Environment)
    returns (more: seq<Step>, u: State)
    requires Run(c, Start(c, initial), steps, t) && AlwaysObliges(env)
    ensures Run(c, t, more, u) && Serves(c, t, more, u, env, 0) && |more| <= Rank(t.queues)
    ensures Run(c, Start(c, initial), steps + more, u) && Quiescent(u)
    ensures forall id :: id in u.world.payments ==> Finished(u.world.payments[id], HistoryOf(u.book, id))
    ensures NonNegative(initial) && Fits(initial, t) && Untorn(c, Start(c, initial), steps, t) && NeverTears(env) ==>
              forall user :: BalanceOf(u.world.wallets, user)
                == BalanceOf(initial, user) + BalanceOf(t.book.credited, user)
                   - SpentBy(u.book.created, u.world.payments, user)
  {
    StartInv(c, initial);
    RunKeepsInv(c, Start(c, initial), steps, t);
    more, u := Settles(c, t, env, 0);
    ServesObliges(c, t, more, u, env, 0);
    EveryScheduleSettles(c, t, more, u);
    RunJoin(c, Start(c, initial), steps, t, more, u);
    forall id | id in u.world.payments ensures Finished(u.world.payments[id], HistoryOf(u.book, id)) {
      AllOrNothingAtRest(c, initial, steps + more, u, id);
    }
    ServingTearsNothing(c, t, more, u, env, 0);
    if NonNegative(initial) && Fits(initial, t) && Untorn(c, Start(c, initial), steps, t) && NeverTears(env) {
      forall user ensures BalanceOf(u.world.wallets, user)
                       == BalanceOf(initial, user) + BalanceOf(t.book.credited, user)
                          - SpentBy(u.book.created, u.world.payments, user) {
        AtRestOnlySucceededPaymentsCost(c, initial, steps + more, u, user);
      }
    }
  }
}
