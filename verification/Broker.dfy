/** The in-process bus of kit/broker/bus.go and the subscriptions cmd/web/main.go makes. */
module Broker {
  import opened Common
  import opened Events

  /** The subscribed handler methods, one constructor each. */
  datatype Handler =
    | OnCharge | OnChargeSucceeded | OnChargeFailed | OnRecovery
    | OnInitialized | OnDebit | OnDebitRejected | OnDebited | OnRefund
    | AuditSink | ProjectorSink | MetricsSink | NotifyCompletedSink | NotifyFailedSink
    | LogDebitedSink | LogRefundedSink

  datatype Delivery = Delivery(event: Event, handler: Handler)

  /** The handlers of one event name, in subscription order. */
  function Subscribers(n: Name): seq<Handler> {
    match n
    case NameChargeRequested => [OnCharge]
    case NameChargeSucceeded => [OnChargeSucceeded]
    case NameChargeFailed => [OnChargeFailed]
    case NameRecoveryRequested => [OnRecovery, AuditSink]
    case NamePaymentInitialized => [OnInitialized, AuditSink, ProjectorSink]
    case NameWalletDebitRequested => [OnDebit]
    case NameWalletDebitRejected => [OnDebitRejected]
    case NameWalletDebited => [OnDebited, AuditSink, ProjectorSink, MetricsSink, LogDebitedSink]
    case NameWalletRefundRequested => [OnRefund]
    case NamePaymentCreated => [AuditSink, ProjectorSink, MetricsSink]
    case NamePaymentPending => [AuditSink, ProjectorSink]
    case NamePaymentRejected => [AuditSink, ProjectorSink]
    case NameWalletRefunded => [AuditSink, ProjectorSink, MetricsSink, LogRefundedSink]
    case NamePaymentSucceeded => [AuditSink, ProjectorSink, MetricsSink, NotifyCompletedSink]
    case NamePaymentFailed => [AuditSink, ProjectorSink, MetricsSink, NotifyFailedSink]
    case NameWalletCredited => [ProjectorSink]
    case Unknown(_) => []
  }

  function To(e: Event, hs: seq<Handler>): seq<Delivery> {
    if hs == [] then [] else [Delivery(e, hs[0])] + To(e, hs[1..])
  }

  /** What one `Publish` enqueues. */
  function Deliveries(e: Event): seq<Delivery> {
    To(e, Subscribers(NameOf(e)))
  }

  lemma {:induction false} ToAt(e: Event, hs: seq<Handler>)
    ensures |To(e, hs)| == |hs| && forall k :: 0 <= k < |hs| ==> To(e, hs)[k] == Delivery(e, hs[k])
  {
    if hs == [] {
    } else {
      ToAt(e, hs[1..]);
    }
  }

  lemma {:induction false} ToSplit(e: Event, a: seq<Handler>, b: seq<Handler>)
    ensures To(e, a + b) == To(e, a) + To(e, b)
  {
    if a == [] {
      assert a + b == b;
    } else {
      assert (a + b)[0] == a[0] && (a + b)[1..] == a[1..] + b;
      ToSplit(e, a[1..], b);
    }
  }

  lemma {:induction false} ToLast(e: Event, hs: seq<Handler>, h: Handler)
    ensures To(e, hs + [h]) == To(e, hs) + [Delivery(e, h)]
  {
    ToSplit(e, hs, [h]);
  }

  function HandlersOf(table: map<Name, seq<Handler>>, n: Name): seq<Handler> {
    if n in table then table[n] else []
  }

  /** How a `Publish` ended: every handler accounted for, or parked at one because its queue is full. */
  datatype Ending = Returned(errors: nat) | Parked(enqueued: nat)

  /** Of the first `n` handlers, those a closed bus still queues: while there is room, as the coins fall. */
  function Chosen(hs: seq<Handler>, coins: seq<bool>, n: nat, room: int): seq<Handler>
    requires n <= |hs| == |coins|
  {
    if n == 0 then []
    else
      var earlier := Chosen(hs, coins, n - 1, room);
      if !coins[n - 1] && |earlier| < room then earlier + [hs[n - 1]] else earlier
  }

  class Bus {
    var handlers: map<Name, seq<Handler>>
    var shards: seq<seq<Delivery>>
    var closed: bool
    const capacity: nat
    const hash: string -> nat
    const retry: RetryConfig

    ghost predicate Valid()
      reads this
    {
      |shards| > 0
    }

    constructor (shardCount: int, capacity: int, hash: string -> nat, retry: RetryConfig)
      requires IsInt64(retry.backoff) && IsInt64(retry.backoffMax)
      ensures Valid() && handlers == map[] && !closed && this.hash == hash
      ensures |shards| == if shardCount < 1 then 1 else shardCount
      ensures this.capacity == if capacity < 1 then 1 else capacity
      ensures forall i :: 0 <= i < |shards| ==> shards[i] == []
      ensures Sane(this.retry) && this.retry.maxAttempts == retry.maxAttempts
      ensures this.retry.backoff == if retry.backoff <= 0 then 25 * MILLISECOND else retry.backoff
      ensures this.retry.backoffMax == if retry.backoffMax <= 0 then 2000 * MILLISECOND else retry.backoffMax
    {
      handlers, closed := map[], false;
      shards := seq(if shardCount < 1 then 1 else shardCount, i => []);
      this.capacity := if capacity < 1 then 1 else capacity;
      this.hash := hash;
      this.retry := RetryConfig(if retry.backoff <= 0 then 25 * MILLISECOND else retry.backoff,
                                if retry.backoffMax <= 0 then 2000 * MILLISECOND else retry.backoffMax,
                                retry.maxAttempts);
    }

    method Subscribe(n: Name, h: Handler)
      modifies this`handlers
      ensures handlers == old(handlers)[n := HandlersOf(old(handlers), n) + [h]]
    {
      handlers := handlers[n := HandlersOf(handlers, n) + [h]];
    }

    method Close()
      modifies this`closed
      ensures closed
    {
      closed := true;
    }

    function ShardFor(key: string): nat
      requires Valid()
      reads this
    {
      hash(key) % |shards|
    }

    /**
     One publisher's loop while nobody else moves. `coins` resolves the select of each handler when the
     bus is closed and the queue has room too. Every snapshotted handler ends as one enqueue or one error,
     unless the queue fills up on an open bus: then the publisher is parked.
     */
    method Publish(evt: Event, coins: seq<bool>) returns (ending: Ending, ghost accepted: seq<Handler>)
      requires Valid() && |coins| == |HandlersOf(handlers, NameOf(evt))|
      modifies this`shards
      ensures Valid() && |shards| == old(|shards|)
      ensures shards == old(shards)[ShardFor(BusKey(evt)) := old(shards)[ShardFor(BusKey(evt))] + To(evt, accepted)]
      ensures ending.Returned? ==> |accepted| + ending.errors == |HandlersOf(handlers, NameOf(evt))|
      ensures !closed ==> accepted <= HandlersOf(handlers, NameOf(evt)) && (ending.Returned? ==> ending.errors == 0)
      ensures closed ==>
                && ending.Returned?
                && var hs, room := HandlersOf(handlers, NameOf(evt)), capacity - old(|shards[ShardFor(BusKey(evt))]|);
                   accepted == Chosen(hs, coins, |hs|, room)
      ensures ending.Parked? ==>
                |shards[ShardFor(BusKey(evt))]| >= capacity && |accepted| < |HandlersOf(handlers, NameOf(evt))|
      ensures !closed && old(|shards[ShardFor(BusKey(evt))]|) + |HandlersOf(handlers, NameOf(evt))| <= capacity ==>
                ending == Returned(0) && accepted == HandlersOf(handlers, NameOf(evt))
    {
      var hs := HandlersOf(handlers, NameOf(evt));
      var errors: nat := 0;
      accepted := [];
      var shard := ShardFor(BusKey(evt));
      var i := 0;
      ghost var was := shards;
      var queue := shards[shard];
      assert shards == was[shard := queue];
      while i < |hs|
        invariant 0 <= i <= |hs| && |accepted| + errors == i
        invariant queue == was[shard] + To(evt, accepted) && shards == was[shard := queue]
        invariant |To(evt, accepted)| == |accepted|
        invariant !closed ==> accepted == hs[..i] && errors == 0
        invariant closed ==> accepted == Chosen(hs, coins, i, capacity - |was[shard]|)
      {
        ToLast(evt, accepted, hs[i]);
        var room := |queue| < capacity;
        if closed && (!room || coins[i]) {
          errors := errors + 1;
        } else if room {
          queue := queue + [Delivery(evt, hs[i])];
          shards := shards[shard := queue];
          assert shards == was[shard := queue];
          accepted := accepted + [hs[i]];
        } else {
          return Parked(i), accepted;
        }
        i := i + 1;
      }
      ending := Returned(errors);
    }
  }

  /** A sequence of `Subscribe` calls. */
  datatype Wiring = Stop | Subscribe(name: Name, handler: Handler, rest: Wiring)

  /** The subscriptions of cmd/web/main.go, in its order, block by block. */
  const WORKFLOW_WIRING :=
    Subscribe(NameChargeRequested, OnCharge,
    Subscribe(NameChargeSucceeded, OnChargeSucceeded,
    Subscribe(NameChargeFailed, OnChargeFailed,
    Subscribe(NameRecoveryRequested, OnRecovery,
    Subscribe(NamePaymentInitialized, OnInitialized,
    Subscribe(NameWalletDebitRequested, OnDebit,
    Subscribe(NameWalletDebitRejected, OnDebitRejected,
    Subscribe(NameWalletDebited, OnDebited,
    Subscribe(NameWalletRefundRequested, OnRefund,
    Stop)))))))))

  const AUDIT_WIRING :=
    Subscribe(NamePaymentCreated, AuditSink,
    Subscribe(NamePaymentInitialized, AuditSink,
    Subscribe(NamePaymentPending, AuditSink,
    Subscribe(NamePaymentRejected, AuditSink,
    Subscribe(NameWalletDebited, AuditSink,
    Subscribe(NameWalletRefunded, AuditSink,
    Subscribe(NameRecoveryRequested, AuditSink,
    Subscribe(NamePaymentSucceeded, AuditSink,
    Subscribe(NamePaymentFailed, AuditSink,
    Stop)))))))))

  const PROJECTOR_WIRING :=
    Subscribe(NamePaymentCreated, ProjectorSink,
    Subscribe(NamePaymentInitialized, ProjectorSink,
    Subscribe(NamePaymentPending, ProjectorSink,
    Subscribe(NamePaymentRejected, ProjectorSink,
    Subscribe(NamePaymentSucceeded, ProjectorSink,
    Subscribe(NamePaymentFailed, ProjectorSink,
    Subscribe(NameWalletCredited, ProjectorSink,
    Subscribe(NameWalletDebited, ProjectorSink,
    Subscribe(NameWalletRefunded, ProjectorSink,
    Stop)))))))))

  const METRICS_WIRING :=
    Subscribe(NamePaymentCreated, MetricsSink,
    Subscribe(NameWalletDebited, MetricsSink,
    Subscribe(NameWalletRefunded, MetricsSink,
    Subscribe(NamePaymentSucceeded, MetricsSink,
    Subscribe(NamePaymentFailed, MetricsSink,
    Stop)))))

  const LAST_WIRING :=
    Subscribe(NamePaymentSucceeded, NotifyCompletedSink,
    Subscribe(NamePaymentFailed, NotifyFailedSink,
    Subscribe(NameWalletDebited, LogDebitedSink,
    Subscribe(NameWalletRefunded, LogRefundedSink,
    Stop))))

  /** The handlers a wiring adds to one event name. */
  function Column(w: Wiring, n: Name): seq<Handler> {
    match w
    case Stop => []
    case Subscribe(m, h, rest) => if m == n then [h] + Column(rest, n) else Column(rest, n)
  }

  method RunWiring(bus: Bus, wiring: Wiring)
    modifies bus`handlers
    ensures forall n :: HandlersOf(bus.handlers, n) == HandlersOf(old(bus.handlers), n) + Column(wiring, n)
  {
    var w := wiring;
    while w.Subscribe?
      invariant forall n ::
                  HandlersOf(bus.handlers, n) + Column(w, n) == HandlersOf(old(bus.handlers), n) + Column(wiring, n)
      decreases w
    {
      ghost var before, here := bus.handlers, w;
      bus.Subscribe(w.name, w.handler);
      w := w.rest;
      forall n ensures HandlersOf(bus.handlers, n) + Column(w, n) == HandlersOf(before, n) + Column(here, n) {
      }
    }
    forall n ensures HandlersOf(bus.handlers, n) == HandlersOf(old(bus.handlers), n) + Column(wiring, n) {
      assert HandlersOf(bus.handlers, n) + Column(w, n) == HandlersOf(bus.handlers, n);
    }
  }

  method Wire(bus: Bus)
    requires bus.handlers == map[]
    modifies bus`handlers
    ensures forall e: Event :: HandlersOf(bus.handlers, NameOf(e)) == Subscribers(NameOf(e))
  {
    RunWiring(bus, WORKFLOW_WIRING);
    RunWiring(bus, AUDIT_WIRING);
    RunWiring(bus, PROJECTOR_WIRING);
    RunWiring(bus, METRICS_WIRING);
    RunWiring(bus, LAST_WIRING);
    forall e: Event ensures HandlersOf(bus.handlers, NameOf(e)) == Subscribers(NameOf(e)) {
      ColumnsAreTheSubscribers(NameOf(e));
      assert [] + Column(WORKFLOW_WIRING, NameOf(e)) == Column(WORKFLOW_WIRING, NameOf(e));
    }
  }

  const WORKFLOW_HANDLERS := {OnCharge, OnChargeSucceeded, OnChargeFailed, OnRecovery, OnInitialized, OnDebit,
                              OnDebitRejected, OnDebited, OnRefund}
  const LAST_HANDLERS := {NotifyCompletedSink, NotifyFailedSink, LogDebitedSink, LogRefundedSink}

  lemma {:induction false} WorkflowColumn(n: Name)
    requires !n.Unknown?
    ensures Column(WORKFLOW_WIRING, n) == if Subscribers(n)[0] in WORKFLOW_HANDLERS then [Subscribers(n)[0]] else []
  {
  }

  lemma {:induction false} AuditColumn(n: Name)
    requires !n.Unknown?
    ensures Column(AUDIT_WIRING, n) == if AuditSink in Subscribers(n) then [AuditSink] else []
  {
  }

  lemma {:induction false} ProjectorColumn(n: Name)
    requires !n.Unknown?
    ensures Column(PROJECTOR_WIRING, n) == if ProjectorSink in Subscribers(n) then [ProjectorSink] else []
  {
  }

  lemma {:induction false} MetricsColumn(n: Name)
    requires !n.Unknown?
    ensures Column(METRICS_WIRING, n) == if MetricsSink in Subscribers(n) then [MetricsSink] else []
  {
  }

  lemma {:induction false} LastColumn(n: Name)
    requires !n.Unknown?
    ensures var hs := Subscribers(n);
            Column(LAST_WIRING, n) == if hs[|hs| - 1] in LAST_HANDLERS then [hs[|hs| - 1]] else []
  {
  }

  lemma {:induction false} Assembled(n: Name)
    requires !n.Unknown?
    ensures var hs := Subscribers(n);
            hs == (if hs[0] in WORKFLOW_HANDLERS then [hs[0]] else []) + (if AuditSink in hs then [AuditSink] else [])
                  + (if ProjectorSink in hs then [ProjectorSink] else [])
                  + (if MetricsSink in hs then [MetricsSink] else [])
                  + (if hs[|hs| - 1] in LAST_HANDLERS then [hs[|hs| - 1]] else [])
  {
  }

  /** The subscriptions, column by column, are the handler table. */
  lemma {:induction false} ColumnsAreTheSubscribers(n: Name)
    requires !n.Unknown?
    ensures Column(WORKFLOW_WIRING, n) + Column(AUDIT_WIRING, n) + Column(PROJECTOR_WIRING, n)
            + Column(METRICS_WIRING, n)
            + Column(LAST_WIRING, n) == Subscribers(n)
  {
    WorkflowColumn(n);
    AuditColumn(n);
    ProjectorColumn(n);
    MetricsColumn(n);
    LastColumn(n);
    Assembled(n);
  }

  const MILLISECOND := 1_000_000

  /** The retry settings; the constructor replaces non-positive waits. */
  datatype RetryConfig = RetryConfig(backoff: int, backoffMax: int, maxAttempts: int)

  predicate Sane(c: RetryConfig) {
    0 < c.backoff <= MAX_INT64 && 0 < c.backoffMax <= MAX_INT64
  }

  /** The value of `backoff` at the `k`-th wait, int64 arithmetic included. */
  function Backoff(c: RetryConfig, k: nat): int
    requires k > 0
  {
    if k == 1 then c.backoff
    else var doubled := Wrap64(2 * Backoff(c, k - 1)); if doubled > c.backoffMax then c.backoffMax else doubled
  }

  function Pow2(n: nat): nat {
    if n == 0 then 1 else 2 * Pow2(n - 1)
  }

  const TWO_TO_62 := 0x4000_0000_0000_0000

  /** Below 2^62 ns no doubling overflows: the waits grow as powers of two up to the maximum. */
  lemma {:induction false} BackoffIsCappedPowerOfTwo(c: RetryConfig, k: nat)
    requires Sane(c) && c.backoff < TWO_TO_62 && c.backoffMax < TWO_TO_62 && k > 0
    ensures Backoff(c, k) == if k == 1 then c.backoff
                             else if c.backoff * Pow2(k - 1) > c.backoffMax then c.backoffMax
                             else c.backoff * Pow2(k - 1)
    ensures 0 < Backoff(c, k) < TWO_TO_62
  {
    if k > 1 {
      BackoffIsCappedPowerOfTwo(c, k - 1);
      DoublePower(c.backoff, k - 1);
      DoublePower(c.backoff, k - 2);
    }
  }

  lemma DoublePower(b: int, k: nat)
    requires b > 0
    ensures b * Pow2(k + 1) == 2 * (b * Pow2(k)) > 0
  {
    PowPositive(k);
  }

  lemma {:induction false} PowPositive(k: nat)
    ensures Pow2(k) > 0
  {
    if k == 0 {
    } else {
      PowPositive(k - 1);
    }
  }

  /** A wait of at least 2^62 ns wraps to a negative one when it is doubled. */
  lemma {:induction false} FindOverflow(c: RetryConfig, k: nat) returns (n: nat)
    requires Sane(c) && k > 0 && 0 < Backoff(c, k) <= MAX_INT64
    requires Backoff(c, k) >= TWO_TO_62 || c.backoffMax >= TWO_TO_62
    ensures n > 0 && Backoff(c, n) < 0
    decreases if Backoff(c, k) < TWO_TO_62 then TWO_TO_62 - Backoff(c, k) else 0
  {
    if Backoff(c, k) >= TWO_TO_62 {
      n := k + 1;
    } else {
      n := FindOverflow(c, k + 1);
    }
  }

  /** Every wait is positive exactly when both settings are below 2^62 ns. */
  lemma {:induction false} WaitsArePositiveIff(c: RetryConfig)
    requires Sane(c)
    ensures (forall k: nat :: k > 0 ==> Backoff(c, k) > 0) <==> c.backoff < TWO_TO_62 && c.backoffMax < TWO_TO_62
  {
    if c.backoff < TWO_TO_62 && c.backoffMax < TWO_TO_62 {
      forall k: nat | k > 0 ensures Backoff(c, k) > 0 {
        BackoffIsCappedPowerOfTwo(c, k);
      }
    } else {
      var n := FindOverflow(c, 1);
      assert !(Backoff(c, n) > 0);
    }
  }

  datatype Why = Handled | GaveUp | BusClosed

  /**
   The delivery loop. The handler fails `failures` times before it would succeed, and the bus closes
   during wait number `closes`, if ever.
   */
  method ProcessDelivery(c: RetryConfig, failures: nat, closes: Option<nat>)
    returns (runs: nat, waits: seq<int>, why: Why)
    ensures why == BusClosed <==>
              && closes.Some? && 0 < closes.value <= failures
              && (c.maxAttempts > 0 ==> closes.value < c.maxAttempts)
    ensures why == GaveUp <==> why != BusClosed && 0 < c.maxAttempts <= failures
    ensures runs == match why case Handled => failures + 1 case GaveUp => c.maxAttempts case BusClosed => closes.value
    ensures |waits| == if why == BusClosed then runs else runs - 1
    ensures forall k :: 0 <= k < |waits| ==> waits[k] == Backoff(c, k + 1)
  {
    runs, waits := 0, [];
    var backoff := c.backoff;
    while true
      invariant runs <= failures && (c.maxAttempts > 0 ==> runs < c.maxAttempts)
      invariant closes.Some? ==> closes.value == 0 || closes.value > runs
      invariant |waits| == runs && backoff == Backoff(c, runs + 1)
      invariant forall k :: 0 <= k < |waits| ==> waits[k] == Backoff(c, k + 1)
      decreases failures - runs
    {
      runs := runs + 1;
      if runs == failures + 1 {
        return runs, waits, Handled;
      }
      if c.maxAttempts > 0 && runs >= c.maxAttempts {
        return runs, waits, GaveUp;
      }
      waits := waits + [backoff];
      if closes == Some(runs) {
        return runs, waits, BusClosed;
      }
      backoff := Wrap64(backoff * 2);
      if backoff > c.backoffMax {
        backoff := c.backoffMax;
      }
    }
  }
}
