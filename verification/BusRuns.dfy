/**
 The bus under concurrency: any number of publishers, one worker per shard, and `Close`. A publish takes
 its snapshot of the handlers in one step and accounts for each handler in a step of its own; the
 publisher may itself be a handler some worker is running.
 */
module BusRuns {
  import opened Common
  import opened Events
  import opened Broker

  /** One handler of one publish. */
  datatype Ticket = Ticket(call: nat, index: nat, event: Event, handler: Handler)

  /** A publish: its snapshot, and per handler so far whether it was queued; the worker it runs in, if any. */
  datatype Call = Call(event: Event, snapshot: seq<Handler>, outcomes: seq<bool>, worker: Option<nat>)

  datatype Worker = Waiting | Running(ticket: Ticket) | Stopped

  /** `enqueued`, `started` and `finished` record what happened, oldest first. */
  datatype State = State(handlers: map<Name, seq<Handler>>, closed: bool, queues: seq<seq<Ticket>>,
                         workers: seq<Worker>,
                         calls: seq<Call>, enqueued: seq<Ticket>, started: seq<Ticket>, finished: seq<Ticket>)

  datatype Config = Config(shards: nat, capacity: nat, hash: string -> nat)

  predicate ValidConfig(c: Config) {
    c.shards > 0 && c.capacity > 0
  }

  function Home(c: Config, e: Event): nat
    requires ValidConfig(c)
  {
    c.hash(BusKey(e)) % c.shards
  }

  datatype Step =
    | Subscribe(name: Name, handler: Handler)
    | Close
    | Begin(event: Event, worker: Option<nat>)   // the snapshot of one publish
    | Enqueue(call: nat)                         // the next handler of the publish is queued
    | Refuse(call: nat)                          // or gets an error
    | Take(shard: nat)                           // a worker receives the head of its queue
    | Finish(shard: nat)                         // and its handler is done with it
    | Stop(shard: nat)                           // a worker sees that the bus is closed

  predicate Pending(k: Call) {
    |k.outcomes| < |k.snapshot|
  }

  /** Every publish made by the handler that `worker` runs has returned. */
  predicate NonePending(calls: seq<Call>, worker: nat) {
    forall p :: 0 <= p < |calls| && calls[p].worker == Some(worker) ==> !Pending(calls[p])
  }

  predicate Enabled(c: Config, s: State, t: Step)
    requires ValidConfig(c) && |s.queues| == |s.workers| == c.shards
  {
    match t
    case Subscribe(_, _) => true
    case Close => true
    case Begin(_, w) => w.Some? ==> w.value < c.shards && s.workers[w.value].Running? && NonePending(s.calls, w.value)
    case Enqueue(p) => p < |s.calls| && Pending(s.calls[p]) && |s.queues[Home(c, s.calls[p].event)]| < c.capacity
    case Refuse(p) => p < |s.calls| && Pending(s.calls[p]) && s.closed
    case Take(j) => j < c.shards && s.workers[j].Waiting? && s.queues[j] != []
    case Finish(j) => j < c.shards && s.workers[j].Running? && NonePending(s.calls, j)
    case Stop(j) => j < c.shards && s.workers[j].Waiting? && s.closed
  }

  /** The ticket of the next handler of a publish. */
  function NextTicket(s: State, p: nat): Ticket
    requires p < |s.calls| && Pending(s.calls[p])
  {
    Ticket(p, |s.calls[p].outcomes|, s.calls[p].event, s.calls[p].snapshot[|s.calls[p].outcomes|])
  }

  function Next(c: Config, s: State, t: Step): State
    requires ValidConfig(c) && |s.queues| == |s.workers| == c.shards && Enabled(c, s, t)
  {
    match t
    case Subscribe(n, h) => s.(handlers := s.handlers[n := HandlersOf(s.handlers, n) + [h]])
    case Close => s.(closed := true)
    case Begin(e, w) => s.(calls := s.calls + [Call(e, HandlersOf(s.handlers, NameOf(e)), [], w)])
    case Enqueue(p) =>
      var k, j := s.calls[p], Home(c, s.calls[p].event);
      s.(calls := s.calls[p := k.(outcomes := k.outcomes + [true])],
         queues := s.queues[j := s.queues[j] + [NextTicket(s, p)]],
         enqueued := s.enqueued + [NextTicket(s, p)])
    case Refuse(p) =>
      var k := s.calls[p];
      s.(calls := s.calls[p := k.(outcomes := k.outcomes + [false])])
    case Take(j) =>
      s.(queues := s.queues[j := s.queues[j][1..]], workers := s.workers[j := Running(s.queues[j][0])],
         started := s.started + [s.queues[j][0]])
    case Finish(j) => s.(workers := s.workers[j := Waiting], finished := s.finished + [s.workers[j].ticket])
    case Stop(j) => s.(workers := s.workers[j := Stopped])
  }

  ghost predicate Run(c: Config, s: State, steps: seq<Step>, t: State)
    decreases |steps|
  {
    && ValidConfig(c) && |s.queues| == |s.workers| == c.shards
    && if steps == [] then s == t else Enabled(c, s, steps[0]) && Run(c, Next(c, s, steps[0]), steps[1..], t)
  }

  function Start(c: Config): State {
    State(map[], false, seq(c.shards, i => []), seq(c.shards, i => Waiting), [], [], [], [])
  }

  /** Ways to look at a record: one shard's tickets, one key's, or one publish's. */
  datatype Lens = OnShard(shard: nat) | WithKey(key: string) | OfCall(call: nat)

  predicate Sees(c: Config, l: Lens, t: Ticket)
    requires ValidConfig(c)
  {
    match l
    case OnShard(j) => Home(c, t.event) == j
    case WithKey(k) => BusKey(t.event) == k
    case OfCall(p) => t.call == p
  }

  function Seen(c: Config, l: Lens, q: seq<Ticket>): seq<Ticket>
    requires ValidConfig(c)
  {
    if q == [] then []
    else Seen(c, l, q[..|q| - 1]) + if Sees(c, l, q[|q| - 1]) then [q[|q| - 1]] else []
  }

  lemma SeenLast(c: Config, l: Lens, q: seq<Ticket>, t: Ticket)
    requires ValidConfig(c)
    ensures Seen(c, l, q + [t]) == Seen(c, l, q) + if Sees(c, l, t) then [t] else []
  {
  }

  lemma {:induction false} SeenConcat(c: Config, l: Lens, a: seq<Ticket>, b: seq<Ticket>)
    requires ValidConfig(c)
    ensures Seen(c, l, a + b) == Seen(c, l, a) + Seen(c, l, b)
    decreases |b|
  {
    if b == [] {
      assert a + b == a;
    } else {
      var n := |b| - 1;
      assert a + b == (a + b[..n]) + [b[n]];
      SeenConcat(c, l, a, b[..n]);
      SeenLast(c, l, a + b[..n], b[n]);
    }
  }

  /** A key lives on one shard, so its tickets are among that shard's, in the same order. */
  lemma {:induction false} KeyWithinShard(c: Config, key: string, q: seq<Ticket>)
    requires ValidConfig(c)
    ensures Seen(c, WithKey(key), Seen(c, OnShard(c.hash(key) % c.shards), q)) == Seen(c, WithKey(key), q)
    decreases |q|
  {
    if q == [] {
    } else {
      var n, l := |q| - 1, OnShard(c.hash(key) % c.shards);
      KeyWithinShard(c, key, q[..n]);
      if Sees(c, l, q[n]) {
        assert Seen(c, l, q) == Seen(c, l, q[..n]) + [q[n]];
        SeenLast(c, WithKey(key), Seen(c, l, q[..n]), q[n]);
      } else {
        assert BusKey(q[n].event) != key;
        assert Seen(c, l, q) == Seen(c, l, q[..n]);
      }
    }
  }

  lemma {:induction false} CountSeen(c: Config, l: Lens, q: seq<Ticket>, t: Ticket)
    requires ValidConfig(c) && Sees(c, l, t)
    ensures multiset(Seen(c, l, q))[t] == multiset(q)[t]
    decreases |q|
  {
    if q == [] {
    } else {
      var n := |q| - 1;
      assert q == q[..n] + [q[n]];
      CountSeen(c, l, q[..n], t);
    }
  }

  /** The tickets a publish has queued so far, in handler order. */
  function Queued(p: nat, k: Call, n: nat): seq<Ticket>
    requires n <= |k.outcomes| <= |k.snapshot|
  {
    if n == 0 then []
    else Queued(p, k, n - 1) + if k.outcomes[n - 1] then [Ticket(p, n - 1, k.event, k.snapshot[n - 1])] else []
  }

  function Errors(outcomes: seq<bool>): nat {
    if outcomes == [] then 0 else Errors(outcomes[..|outcomes| - 1]) + if outcomes[|outcomes| - 1] then 0 else 1
  }

  function InHand(w: Worker): seq<Ticket> {
    if w.Running? then [w.ticket] else []
  }

  /** On shard `j`: finished, then in hand, then queued, is exactly what was enqueued there, in order. */
  ghost predicate Flows(c: Config, s: State, j: nat)
    requires ValidConfig(c) && |s.queues| == |s.workers| == c.shards && j < c.shards
  {
    && Seen(c, OnShard(j), s.finished) + InHand(s.workers[j]) == Seen(c, OnShard(j), s.started)
    && Seen(c, OnShard(j), s.started) + s.queues[j] == Seen(c, OnShard(j), s.enqueued)
    && |s.queues[j]| <= c.capacity
    && (s.workers[j].Running? ==> Home(c, s.workers[j].ticket.event) == j)
    && (forall k :: 0 <= k < |s.queues[j]| ==> Home(c, s.queues[j][k].event) == j)
  }

  /** A publish has queued exactly the handlers it did not get an error for. */
  ghost predicate Accounts(c: Config, s: State, p: nat)
    requires ValidConfig(c)
  {
    if p < |s.calls| then
      && |s.calls[p].outcomes| <= |s.calls[p].snapshot|
      && Seen(c, OfCall(p), s.enqueued) == Queued(p, s.calls[p], |s.calls[p].outcomes|)
      && (!s.closed ==> Errors(s.calls[p].outcomes) == 0)
    else Seen(c, OfCall(p), s.enqueued) == []
  }

  ghost predicate Inv(c: Config, s: State) {
    && ValidConfig(c) && |s.queues| == |s.workers| == c.shards
    && (forall j: nat :: j < c.shards ==> Flows(c, s, j))
    && (forall p: nat :: Accounts(c, s, p))
  }

  lemma TailGrows<T>(started: seq<T>, queue: seq<T>, enqueued: seq<T>, t: T)
    requires started + queue == enqueued
    ensures started + (queue + [t]) == enqueued + [t]
  {
  }

  lemma {:induction false} EnqueueFlows(c: Config, s: State, p: nat, j: nat)
    requires ValidConfig(c) && |s.queues| == |s.workers| == c.shards && Enabled(c, s, Enqueue(p)) && j < c.shards
             && Flows(c, s, j)
    ensures Flows(c, Next(c, s, Enqueue(p)), j)
  {
    var t, u, q := NextTicket(s, p), Next(c, s, Enqueue(p)), s.queues[j];
    SeenLast(c, OnShard(j), s.enqueued, t);
    if Home(c, t.event) == j {
      TailGrows(Seen(c, OnShard(j), s.started), q, Seen(c, OnShard(j), s.enqueued), t);
      assert u.queues[j] == q + [t];
      assert forall k :: 0 <= k < |q| ==> u.queues[j][k] == q[k];
    } else {
      assert u.queues[j] == q;
    }
  }

  /** A ticket of another shard started or finished does not show on shard `j`. */
  lemma {:induction false} ElsewhereFlows(c: Config, s: State, t: Ticket, j: nat)
    requires ValidConfig(c) && j < c.shards && Home(c, t.event) != j
    ensures Seen(c, OnShard(j), s.started + [t]) == Seen(c, OnShard(j), s.started)
    ensures Seen(c, OnShard(j), s.finished + [t]) == Seen(c, OnShard(j), s.finished)
  {
  }

  lemma HeadMoves<T>(finished: seq<T>, started: seq<T>, queue: seq<T>, enqueued: seq<T>)
    requires finished + [] == started && started + queue == enqueued && queue != []
    ensures finished + [queue[0]] == started + [queue[0]] && (started + [queue[0]]) + queue[1..] == enqueued
  {
  }

  lemma {:induction false} TakeFlows(c: Config, s: State, j: nat)
    requires ValidConfig(c) && |s.queues| == |s.workers| == c.shards && Enabled(c, s, Take(j)) && Flows(c, s, j)
    ensures Flows(c, Next(c, s, Take(j)), j)
  {
    var u, t := Next(c, s, Take(j)), s.queues[j][0];
    SeenLast(c, OnShard(j), s.started, t);
    HeadMoves(Seen(c, OnShard(j), s.finished), Seen(c, OnShard(j), s.started), s.queues[j],
              Seen(c, OnShard(j), s.enqueued));
    assert Home(c, s.queues[j][0].event) == j;
    assert u.queues[j] == s.queues[j][1..] && InHand(u.workers[j]) == [t];
    assert forall k :: 0 <= k < |u.queues[j]| ==> u.queues[j][k] == s.queues[j][k + 1];
  }

  lemma {:induction false} FinishFlows(c: Config, s: State, j: nat)
    requires ValidConfig(c) && |s.queues| == |s.workers| == c.shards && Enabled(c, s, Finish(j)) && Flows(c, s, j)
    ensures Flows(c, Next(c, s, Finish(j)), j)
  {
  }

  lemma {:induction false} FlowStep(c: Config, s: State, t: Step, j: nat)
    requires ValidConfig(c) && |s.queues| == |s.workers| == c.shards && Enabled(c, s, t) && j < c.shards
    requires forall i: nat :: i < c.shards ==> Flows(c, s, i)
    ensures Flows(c, Next(c, s, t), j)
  {
    assert Flows(c, s, j);
    match t
    case Enqueue(p) => EnqueueFlows(c, s, p, j);
    case Take(i) =>
      assert Flows(c, s, i);
      if i == j { TakeFlows(c, s, j); } else { ElsewhereFlows(c, s, s.queues[i][0], j); }
    case Finish(i) =>
      assert Flows(c, s, i);
      if i == j { FinishFlows(c, s, j); } else { ElsewhereFlows(c, s, s.workers[i].ticket, j); }
    case _ =>
  }

  lemma {:induction false} QueuedPrefix(p: nat, k: Call, more: Call, n: nat)
    requires n <= |k.outcomes| <= |k.snapshot| && k.outcomes <= more.outcomes && |more.outcomes| <= |more.snapshot|
    requires k.event == more.event && k.snapshot == more.snapshot
    ensures Queued(p, k, n) == Queued(p, more, n)
  {
    if n == 0 {
    } else {
      QueuedPrefix(p, k, more, n - 1);
    }
  }

  lemma {:induction false} EnqueueAccounts(c: Config, s: State, p: nat)
    requires ValidConfig(c) && |s.queues| == |s.workers| == c.shards && Enabled(c, s, Enqueue(p)) && Accounts(c, s, p)
    ensures Accounts(c, Next(c, s, Enqueue(p)), p)
  {
    var u, n := Next(c, s, Enqueue(p)), |s.calls[p].outcomes|;
    SeenLast(c, OfCall(p), s.enqueued, NextTicket(s, p));
    QueuedPrefix(p, s.calls[p], u.calls[p], n);
    assert u.calls[p].outcomes[..n] == s.calls[p].outcomes;
  }

  lemma {:induction false} RefuseAccounts(c: Config, s: State, p: nat)
    requires ValidConfig(c) && |s.queues| == |s.workers| == c.shards && Enabled(c, s, Refuse(p)) && Accounts(c, s, p)
    ensures Accounts(c, Next(c, s, Refuse(p)), p)
  {
    QueuedPrefix(p, s.calls[p], Next(c, s, Refuse(p)).calls[p], |s.calls[p].outcomes|);
  }

  lemma {:induction false} AccountStep(c: Config, s: State, t: Step, p: nat)
    requires ValidConfig(c) && |s.queues| == |s.workers| == c.shards && Enabled(c, s, t) && Accounts(c, s, p)
    ensures Accounts(c, Next(c, s, t), p)
  {
    match t
    case Enqueue(q) =>
      if p == q { EnqueueAccounts(c, s, p); } else { SeenLast(c, OfCall(p), s.enqueued, NextTicket(s, q)); }
    case Refuse(q) =>
      if p == q { RefuseAccounts(c, s, p); }
    case _ =>
  }

  lemma {:induction false} RunInv(c: Config, s: State, steps: seq<Step>, t: State)
    requires Inv(c, s) && Run(c, s, steps, t)
    ensures Inv(c, t)
    decreases |steps|
  {
    if steps == [] {
    } else {
      var u := Next(c, s, steps[0]);
      forall j: nat | j < c.shards ensures Flows(c, u, j) {
        FlowStep(c, s, steps[0], j);
      }
      forall p: nat ensures Accounts(c, u, p) {
        assert Accounts(c, s, p);
        AccountStep(c, s, steps[0], p);
      }
      RunInv(c, u, steps[1..], t);
    }
  }

  lemma {:induction false} StartInv(c: Config)
    requires ValidConfig(c)
    ensures Inv(c, Start(c))
  {
  }

  lemma CountLast<T>(q: seq<T>, last: T, t: T)
    ensures multiset(q + [last])[t] == multiset(q)[t] + if t == last then 1 else 0
    ensures q + [] == q
  {
  }

  /** The ticket is one the publish queued among its first `n` handlers. */
  predicate WasQueued(p: nat, k: Call, n: nat, t: Ticket)
    requires n <= |k.outcomes| <= |k.snapshot|
  {
    && t.call == p && t.event == k.event && t.index < n
    && k.outcomes[t.index] && t.handler == k.snapshot[t.index]
  }

  lemma {:induction false} LastQueued(p: nat, k: Call, n: nat, t: Ticket)
    requires 0 < n <= |k.outcomes| <= |k.snapshot|
    ensures var last := Ticket(p, n - 1, k.event, k.snapshot[n - 1]);
            && (WasQueued(p, k, n, t) <==> WasQueued(p, k, n - 1, t) || (k.outcomes[n - 1] && t == last))
            && !WasQueued(p, k, n - 1, last)
  {
  }

  /** How often a ticket is among those a publish queued. */
  lemma {:induction false} QueuedOnce(p: nat, k: Call, n: nat, t: Ticket)
    requires n <= |k.outcomes| <= |k.snapshot|
    ensures multiset(Queued(p, k, n))[t] == if WasQueued(p, k, n, t) then 1 else 0
  {
    if n == 0 {
    } else {
      var rest, last := Queued(p, k, n - 1), Ticket(p, n - 1, k.event, k.snapshot[n - 1]);
      LastQueued(p, k, n, t);
      QueuedOnce(p, k, n - 1, t);
      CountLast(rest, last, t);
    }
  }

  lemma {:induction false} ErrorsAndQueued(p: nat, k: Call, n: nat)
    requires n <= |k.outcomes| <= |k.snapshot|
    ensures |Queued(p, k, n)| + Errors(k.outcomes[..n]) == n
  {
    if n == 0 {
    } else {
      ErrorsAndQueued(p, k, n - 1);
      assert k.outcomes[..n][..n - 1] == k.outcomes[..n - 1];
    }
  }

  /**
   Every publish accounts for each handler of its snapshot, in order, as one queued delivery or one
   error, and gets an error only on a closed bus.
   */
  lemma {:induction false} EveryHandlerIsAccountedFor(c: Config, steps: seq<Step>, s: State, p: nat)
    requires Run(c, Start(c), steps, s) && p < |s.calls|
    ensures var k := s.calls[p];
            && |k.outcomes| <= |k.snapshot|
            && Seen(c, OfCall(p), s.enqueued) == Queued(p, k, |k.outcomes|)
            && |Seen(c, OfCall(p), s.enqueued)| + Errors(k.outcomes) == |k.outcomes|
            && (!Pending(k) ==> |Seen(c, OfCall(p), s.enqueued)| + Errors(k.outcomes) == |k.snapshot|)
            && (!s.closed ==> Errors(k.outcomes) == 0)
  {
    StartInv(c);
    RunInv(c, Start(c), steps, s);
    var k := s.calls[p];
    assert Accounts(c, s, p);
    ErrorsAndQueued(p, k, |k.outcomes|);
    assert k.outcomes[..|k.outcomes|] == k.outcomes;
  }

  /** No delivery is enqueued twice, and each is started and finished at most as often as it was enqueued. */
  lemma {:induction false} NothingIsDuplicated(c: Config, steps: seq<Step>, s: State, t: Ticket)
    requires Run(c, Start(c), steps, s)
    ensures multiset(s.finished)[t] <= multiset(s.started)[t] <= multiset(s.enqueued)[t] <= 1
  {
    StartInv(c);
    RunInv(c, Start(c), steps, s);
    var j := Home(c, t.event);
    assert Flows(c, s, j);
    CountSeen(c, OnShard(j), s.finished, t);
    CountSeen(c, OnShard(j), s.started, t);
    CountSeen(c, OnShard(j), s.enqueued, t);
    CountSeen(c, OfCall(t.call), s.enqueued, t);
    assert Accounts(c, s, t.call);
    if t.call < |s.calls| {
      QueuedOnce(t.call, s.calls[t.call], |s.calls[t.call].outcomes|, t);
    }
  }

  /**
   Per-key order, for any interleaving of publishers, workers and `Close`: what was finished for a key is
   a prefix of what was started, short of it by at most the one in hand, and what was started is a prefix
   of what was enqueued.
   */
  lemma {:induction false} KeysAreServedInOrder(c: Config, steps: seq<Step>, s: State, key: string)
    requires Run(c, Start(c), steps, s)
    ensures Seen(c, WithKey(key), s.finished) <= Seen(c, WithKey(key), s.started) <= Seen(c, WithKey(key), s.enqueued)
    ensures |Seen(c, WithKey(key), s.started)| <= |Seen(c, WithKey(key), s.finished)| + 1
  {
    StartInv(c);
    RunInv(c, Start(c), steps, s);
    var j, k := c.hash(key) % c.shards, WithKey(key);
    assert Flows(c, s, j);
    KeyWithinShard(c, key, s.finished);
    KeyWithinShard(c, key, s.started);
    KeyWithinShard(c, key, s.enqueued);
    SeenConcat(c, k, Seen(c, OnShard(j), s.finished), InHand(s.workers[j]));
    SeenConcat(c, k, Seen(c, OnShard(j), s.started), s.queues[j]);
    var inHand := InHand(s.workers[j]);
    assert |Seen(c, k, inHand)| <= 1;
  }

  /** Two deliveries of one key are never in progress together, and no queue outgrows its buffer. */
  lemma {:induction false} OneInProgressPerKey(c: Config, steps: seq<Step>, s: State, i: nat, j: nat)
    requires Run(c, Start(c), steps, s) && i < c.shards && j < c.shards
    ensures |s.queues| == |s.workers| == c.shards && |s.queues[i]| <= c.capacity
    ensures (s.workers[i].Running? && s.workers[j].Running?
             && BusKey(s.workers[i].ticket.event) == BusKey(s.workers[j].ticket.event)) ==> i == j
  {
    StartInv(c);
    RunInv(c, Start(c), steps, s);
    assert Flows(c, s, i) && Flows(c, s, j);
  }

  /** The worker of shard `j` runs a handler whose publish `p` waits for room in that same shard. */
  predicate WaitsOnItself(c: Config, s: State, j: nat, p: nat)
    requires ValidConfig(c) && |s.queues| == |s.workers| == c.shards
  {
    && j < c.shards && p < |s.calls| && s.workers[j].Running? && s.calls[p].worker == Some(j) && Pending(s.calls[p])
    && Home(c, s.calls[p].event) == j && |s.queues[j]| >= c.capacity && !s.closed
  }

  /** Such a worker is never freed but by closing the bus. */
  lemma {:induction false} OnlyCloseFreesIt(c: Config, s: State, steps: seq<Step>, t: State, j: nat, p: nat)
    requires Run(c, s, steps, t) && WaitsOnItself(c, s, j, p) && Close !in steps
    ensures |t.queues| == |t.workers| == c.shards && WaitsOnItself(c, t, j, p)
    ensures t.workers[j] == s.workers[j] && t.queues[j] == s.queues[j] && t.calls[p] == s.calls[p]
    decreases |steps|
  {
    if steps == [] {
    } else {
      assert steps[0] in steps;
      OnlyCloseFreesIt(c, Next(c, s, steps[0]), steps[1..], t, j, p);
    }
  }

  lemma {:induction false} RunLast(c: Config, s: State, steps: seq<Step>, t: State, step: Step)
    requires Run(c, s, steps, t) && |t.queues| == |t.workers| == c.shards && Enabled(c, t, step)
    ensures Run(c, s, steps + [step], Next(c, t, step))
    decreases |steps|
  {
    if steps == [] {
      assert [] + [step] == [step] && [step][1..] == [];
      assert Run(c, Next(c, s, step), [], Next(c, s, step));
    } else {
      assert (steps + [step])[0] == steps[0] && (steps + [step])[1..] == steps[1..] + [step];
      RunLast(c, Next(c, s, steps[0]), steps[1..], t, step);
    }
  }

  /** The deliveries of a queue, without their tickets. */
  function Plain(q: seq<Ticket>): seq<Delivery> {
    if q == [] then [] else Plain(q[..|q| - 1]) + [Delivery(q[|q| - 1].event, q[|q| - 1].handler)]
  }

  lemma ToLast(e: Event, hs: seq<Handler>, n: nat)
    requires n < |hs|
    ensures To(e, hs[..n + 1]) == To(e, hs[..n]) + [Delivery(e, hs[n])]
  {
    assert hs[..n + 1] == hs[..n] + [hs[n]];
    ToSplit(e, hs[..n], [hs[n]]);
    assert To(e, [hs[n]]) == [Delivery(e, hs[n])];
  }

  /** Publish `p` goes on alone for `n` more handlers. */
  lemma {:induction false} GoOnAlone(c: Config, s: State, p: nat, n: nat) returns (steps: seq<Step>, t: State)
    requires ValidConfig(c) && |s.queues| == |s.workers| == c.shards && p < |s.calls| && s.calls[p].outcomes == []
    requires n <= |s.calls[p].snapshot| && |s.queues[Home(c, s.calls[p].event)]| + n <= c.capacity
    ensures Run(c, s, steps, t) && |t.queues| == |t.workers| == c.shards && p < |t.calls|
    ensures t.calls[p].(outcomes := []) == s.calls[p] && |t.calls[p].outcomes| == n
    ensures var j := Home(c, s.calls[p].event);
            && |t.queues[j]| == |s.queues[j]| + n
            && Plain(t.queues[j]) == Plain(s.queues[j]) + To(s.calls[p].event, s.calls[p].snapshot[..n])
            && t.queues == s.queues[j := t.queues[j]]
  {
    if n == 0 {
      return [], s;
    }
    var rest, u := GoOnAlone(c, s, p, n - 1);
    RunLast(c, s, rest, u, Enqueue(p));
    var k, j := s.calls[p], Home(c, s.calls[p].event);
    steps, t := rest + [Enqueue(p)], Next(c, u, Enqueue(p));
    assert t.queues[j][..|u.queues[j]|] == u.queues[j];
    ToLast(k.event, k.snapshot, n - 1);
    Reassociate(Plain(s.queues[j]), To(k.event, k.snapshot[..n - 1]), [Delivery(k.event, k.snapshot[n - 1])]);
  }

  lemma Reassociate<T>(a: seq<T>, b: seq<T>, c: seq<T>)
    ensures (a + b) + c == a + (b + c)
  {
  }

  lemma {:induction false} RunCons(c: Config, s: State, step: Step, steps: seq<Step>, t: State)
    requires ValidConfig(c) && |s.queues| == |s.workers| == c.shards && Enabled(c, s, step)
             && Run(c, Next(c, s, step), steps, t)
    ensures Run(c, s, [step] + steps, t)
  {
  }

  /**
   When the queue has room for every handler and nobody else moves, the fine-grained publish adds up to
   one atomic step: the event's deliveries, in handler order, at the tail of the queue of its key.
   */
  lemma {:induction false} AlonePublishIsAtomic(c: Config, s: State, e: Event) returns (steps: seq<Step>, t: State)
    requires ValidConfig(c) && |s.queues| == |s.workers| == c.shards
    requires |s.queues[Home(c, e)]| + |HandlersOf(s.handlers, NameOf(e))| <= c.capacity
    ensures Run(c, s, steps, t) && |t.queues| == c.shards
    ensures Plain(t.queues[Home(c, e)]) == Plain(s.queues[Home(c, e)]) + To(e, HandlersOf(s.handlers, NameOf(e)))
    ensures t.queues == s.queues[Home(c, e) := t.queues[Home(c, e)]]
  {
    var u, hs := Next(c, s, Begin(e, None)), HandlersOf(s.handlers, NameOf(e));
    var rest;
    rest, t := GoOnAlone(c, u, |s.calls|, |hs|);
    RunCons(c, s, Begin(e, None), rest, t);
    steps := [Begin(e, None)] + rest;
    assert hs[..|hs|] == hs;
  }

  /** The three subscriptions the example needs. */
  lemma {:induction false} Subscribed(c: Config) returns (steps: seq<Step>, s: State)
    requires ValidConfig(c)
    ensures Run(c, Start(c), steps, s) && Close !in steps
    ensures HandlersOf(s.handlers, NameWalletDebited) == [OnDebited]
            && HandlersOf(s.handlers, NamePaymentPending) == [AuditSink, ProjectorSink]
    ensures s == Start(c).(handlers := s.handlers)
  {
    var a := Step.Subscribe(NameWalletDebited, OnDebited);
    var b := Step.Subscribe(NamePaymentPending, AuditSink);
    var d := Step.Subscribe(NamePaymentPending, ProjectorSink);
    var s0 := Start(c);
    var s1 := Next(c, s0, a);
    var s2 := Next(c, s1, b);
    s := Next(c, s2, d);
    RunLast(c, s0, [], s0, a);
    RunLast(c, s0, [] + [a], s1, b);
    RunLast(c, s0, [] + [a] + [b], s2, d);
    steps := [] + [a] + [b] + [d];
  }

  /** The worker of shard `j` runs a handler; its queue holds `n` deliveries; nothing is pending and the bus is open. */
  predicate Filling(c: Config, s: State, j: nat, n: nat)
    requires ValidConfig(c)
  {
    && |s.queues| == |s.workers| == c.shards && j < c.shards && j == Home(c, WalletDebited("p", "u", 1, 0))
    && s.workers[j].Running? && |s.queues[j]| == n && !s.closed
    && (forall p :: 0 <= p < |s.calls| ==> !Pending(s.calls[p]))
    && HandlersOf(s.handlers, NameWalletDebited) == [OnDebited]
    && HandlersOf(s.handlers, NamePaymentPending) == [AuditSink, ProjectorSink]
  }

  /** One publish from outside queues one more delivery. */
  lemma {:induction false} OneMoreQueued(c: Config, steps: seq<Step>, s: State, j: nat, n: nat)
    returns (more: seq<Step>, t: State)
    requires ValidConfig(c) && Run(c, Start(c), steps, s) && Close !in steps && Filling(c, s, j, n) && n < c.capacity
    ensures Run(c, Start(c), more, t) && Close !in more && Filling(c, t, j, n + 1)
  {
    var begin, p := Begin(WalletDebited("p", "u", 1, 0), None), |s.calls|;
    var u := Next(c, s, begin);
    t := Next(c, u, Enqueue(p));
    RunLast(c, Start(c), steps, s, begin);
    RunLast(c, Start(c), steps + [begin], u, Enqueue(p));
    more := steps + [begin] + [Enqueue(p)];
  }

  /** A worker in the middle of a debited payment, its queue empty. */
  lemma {:induction false} InTheMiddle(c: Config) returns (steps: seq<Step>, s: State, j: nat)
    requires ValidConfig(c)
    ensures Run(c, Start(c), steps, s) && Close !in steps && Filling(c, s, j, 0)
  {
    var debited := WalletDebited("p", "u", 1, 0);
    j := Home(c, debited);
    var s0 := Start(c);
    var first, s3 := Subscribed(c);
    var s4 := Next(c, s3, Begin(debited, None));
    var s5 := Next(c, s4, Enqueue(0));
    RunLast(c, s0, first, s3, Begin(debited, None));
    RunLast(c, s0, first + [Begin(debited, None)], s4, Enqueue(0));
    RunLast(c, s0, first + [Begin(debited, None)] + [Enqueue(0)], s5, Take(j));
    steps, s := first + [Begin(debited, None)] + [Enqueue(0)] + [Take(j)], Next(c, s5, Take(j));
  }

  lemma {:induction false} FilledTo(c: Config, n: nat) returns (steps: seq<Step>, s: State, j: nat)
    requires ValidConfig(c) && n <= c.capacity
    ensures Run(c, Start(c), steps, s) && Close !in steps && Filling(c, s, j, n)
  {
    if n == 0 {
      steps, s, j := InTheMiddle(c);
    } else {
      var fewer, u;
      fewer, u, j := FilledTo(c, n - 1);
      steps, s := OneMoreQueued(c, fewer, u, j, n - 1);
    }
  }

  /**
   Whatever the size of the buffers, a run without `Close` reaches a state where a worker waits on its own
   full queue: publishers outside fill the queue while the worker runs a handler, which then publishes.
   Only a bound on the load makes the worker safe.
   */
  lemma {:induction false} EveryBufferStalls(c: Config) returns (steps: seq<Step>, s: State, j: nat, p: nat)
    requires ValidConfig(c)
    ensures Run(c, Start(c), steps, s) && Close !in steps && |s.queues| == |s.workers| == c.shards
            && WaitsOnItself(c, s, j, p)
  {
    var filled, u;
    filled, u, j := FilledTo(c, c.capacity);
    var begin := Begin(PaymentPending("p", "u", 0), Some(j));
    RunLast(c, Start(c), filled, u, begin);
    steps, s, p := filled + [begin], Next(c, u, begin), |u.calls|;
  }

  /** The handlers of the first `n` publishes that go to shard `j`. */
  function LoadOf(c: Config, calls: seq<Call>, n: nat, j: nat): nat
    requires ValidConfig(c) && n <= |calls|
  {
    if n == 0 then 0
    else LoadOf(c, calls, n - 1, j) + if Home(c, calls[n - 1].event) == j then |calls[n - 1].snapshot| else 0
  }

  /** The handlers of all the publishes made so far for shard `j`. */
  function Load(c: Config, calls: seq<Call>, j: nat): nat
    requires ValidConfig(c)
  {
    LoadOf(c, calls, |calls|, j)
  }

  /** The handlers a publish has already accounted for on shard `j`. */
  function DoneBy(c: Config, k: Call, j: nat): nat
    requires ValidConfig(c)
  {
    if Home(c, k.event) == j then |k.outcomes| else 0
  }

  function DoneOf(c: Config, calls: seq<Call>, n: nat, j: nat): nat
    requires ValidConfig(c) && n <= |calls|
  {
    if n == 0 then 0 else DoneOf(c, calls, n - 1, j) + DoneBy(c, calls[n - 1], j)
  }

  /** Those of the load already queued or refused. */
  function Done(c: Config, calls: seq<Call>, j: nat): nat
    requires ValidConfig(c)
  {
    DoneOf(c, calls, |calls|, j)
  }

  lemma {:induction false} DoneMoves(c: Config, calls: seq<Call>, p: nat, k: Call, n: nat, j: nat)
    requires ValidConfig(c) && p < |calls| && n <= |calls|
    ensures DoneOf(c, calls[p := k], n, j)
            == DoneOf(c, calls, n, j) + if p < n then DoneBy(c, k, j) - DoneBy(c, calls[p], j) else 0
  {
    if n == 0 {
    } else {
      DoneMoves(c, calls, p, k, n - 1, j);
    }
  }

  lemma {:induction false} DoneBefore(c: Config, calls: seq<Call>, k: Call, n: nat, j: nat)
    requires ValidConfig(c) && n <= |calls|
    ensures DoneOf(c, calls + [k], n, j) == DoneOf(c, calls, n, j)
  {
    if n == 0 {
    } else {
      DoneBefore(c, calls, k, n - 1, j);
    }
  }

  predicate WithinSnapshots(calls: seq<Call>) {
    forall p :: 0 <= p < |calls| ==> |calls[p].outcomes| <= |calls[p].snapshot|
  }

  lemma {:induction false} DoneWithinLoad(c: Config, calls: seq<Call>, n: nat, j: nat)
    requires ValidConfig(c) && n <= |calls| && WithinSnapshots(calls)
    ensures DoneOf(c, calls, n, j) <= LoadOf(c, calls, n, j)
    ensures forall p :: 0 <= p < n && Pending(calls[p]) && Home(c, calls[p].event) == j ==>
              DoneOf(c, calls, n, j) < LoadOf(c, calls, n, j)
  {
    if n == 0 {
    } else {
      DoneWithinLoad(c, calls, n - 1, j);
    }
  }

  /** What was enqueued on a shard was accounted for by a publish. */
  ghost predicate Spent(c: Config, s: State, j: nat)
    requires ValidConfig(c)
  {
    |Seen(c, OnShard(j), s.enqueued)| <= Done(c, s.calls, j)
  }

  lemma {:induction false} SpentStep(c: Config, s: State, t: Step, j: nat)
    requires ValidConfig(c) && |s.queues| == |s.workers| == c.shards && Enabled(c, s, t) && Spent(c, s, j)
    ensures Spent(c, Next(c, s, t), j)
  {
    match t
    case Begin(e, w) =>
      DoneBefore(c, s.calls, Next(c, s, t).calls[|s.calls|], |s.calls|, j);
    case Enqueue(p) =>
      SeenLast(c, OnShard(j), s.enqueued, NextTicket(s, p));
      DoneMoves(c, s.calls, p, Next(c, s, t).calls[p], |s.calls|, j);
    case Refuse(p) =>
      DoneMoves(c, s.calls, p, Next(c, s, t).calls[p], |s.calls|, j);
    case _ =>
  }

  lemma {:induction false} RunSpent(c: Config, s: State, steps: seq<Step>, t: State, j: nat)
    requires Run(c, s, steps, t) && Spent(c, s, j)
    ensures Spent(c, t, j)
    decreases |steps|
  {
    if steps == [] {
    } else {
      SpentStep(c, s, steps[0], j);
      RunSpent(c, Next(c, s, steps[0]), steps[1..], t, j);
    }
  }

  /**
   With a bound on the load the fine-grained publish never waits either: in any interleaving, as long as
   the handlers of all the publishes of a shard fit its buffer, the next handler of each of them can be
   queued at once.
   */
  lemma {:induction false} BoundedLoadNeverWaits(c: Config, steps: seq<Step>, s: State, p: nat)
    requires Run(c, Start(c), steps, s) && p < |s.calls| && Pending(s.calls[p])
    requires Load(c, s.calls, Home(c, s.calls[p].event)) <= c.capacity
    ensures |s.queues| == |s.workers| == c.shards && Enabled(c, s, Enqueue(p))
  {
    var j := Home(c, s.calls[p].event);
    StartInv(c);
    RunInv(c, Start(c), steps, s);
    RunSpent(c, Start(c), steps, s, j);
    assert |s.queues[j]| <= Done(c, s.calls, j) by {
      assert Flows(c, s, j);
    }
    AllWithinSnapshots(c, s);
    DoneWithinLoad(c, s.calls, |s.calls|, j);
  }

  lemma {:induction false} AllWithinSnapshots(c: Config, s: State)
    requires Inv(c, s)
    ensures WithinSnapshots(s.calls)
  {
    forall q | 0 <= q < |s.calls| ensures |s.calls[q].outcomes| <= |s.calls[q].snapshot| {
      assert Accounts(c, s, q);
    }
  }
}
