/**
 The payment saga as a transition system: the web handlers `Create` and `Credit`, and one step per
 handled delivery. Each shard is a FIFO queue whose head its worker handles; what a handler publishes
 goes to the tail of the queue of its key. A handler that returns an error keeps its delivery at the
 head, as the bus does with no attempt limit.
 */
module Saga {
  import opened Common
  import opened Events
  import opened EventStore
  import opened Payments
  import opened ReadModels
  import opened Broker
  import W = Wallets
  import G = Gateway
  import ChargeHandler

  datatype World = World(wallets: map<string, int>, payments: Table, log: seq<Record>, views: Views)

  /** What the environment decides for one delivery. */
  datatype Oracle = Oracle(write: W.Write, answers: seq<G.Answer>, sleepOk: bool, now: int)

  /** A handler's effect: the new world, what it published, and whether it returned nil. */
  datatype Reply = Reply(world: World, published: seq<Event>, done: bool)

  /** A call of the payment service, with what it appends and publishes. */
  function Perform(w: World, c: Payments.Call, now: int): Reply {
    Reply(w.(payments := TableAfter(w.payments, c), log := LogAfter(w.log, w.payments, c, now)),
          EventsOf(w.payments, c, now), Accepted(w.payments, c))
  }

  function HandleChargeFailed(e: Event, w: World, now: int): Reply
    requires e.PaymentChargeFailed?
  {
    var marked := Perform(w, MarkFailed(e.paymentId, e.reason), now);
    if !marked.done then marked
    else
      var p := marked.world.payments[e.paymentId];
      marked.(published := marked.published + [WalletRefundRequested(p.id, p.userId, p.amount, now)])
  }

  function HandleDebited(e: Event, w: World, now: int): Reply
    requires e.WalletDebited?
  {
    var marked := Perform(w, MarkPending(e.paymentId), now);
    if !marked.done then marked
    else
      var p := marked.world.payments[e.paymentId];
      marked.(published := marked.published + [PaymentChargeRequested(p.id, p.userId, p.amount, p.service, 1, now)])
  }

  function HandleRecovery(e: Event, w: World, o: Oracle): Reply
    requires e.RecoveryRequested?
  {
    if !o.sleepOk || e.paymentId !in w.payments then Reply(w, [], false)
    else
      var p := w.payments[e.paymentId];
      match e.action
      case ChargeAction =>
        Reply(w, [PaymentChargeRequested(p.id, p.userId, p.amount, p.service, e.attempts + 1, o.now)], true)
      case DebitAction => Reply(w, [WalletDebitRequested(p.id, p.userId, p.amount, e.attempts + 1, o.now)], true)
      case OtherAction(_) => Reply(w, [], false)
  }

  function HandleDebit(e: Event, w: World, o: Oracle): Reply
    requires e.WalletDebitRequested?
  {
    var outcome := W.DebitOutcome(w.wallets, e.userId, e.amount, o.write);
    Reply(w.(wallets := W.Debited(w.wallets, e.userId, e.amount, o.write)),
          [if outcome.Ok? then WalletDebited(e.paymentId, e.userId, e.amount, o.now)
           else if outcome.Internal? && e.attempt == 1
           then RecoveryRequested(e.paymentId, e.userId, DebitAction, W.ErrorText(outcome), "db_internal", e.attempt,
                                  o.now)
           else WalletDebitRejected(e.paymentId, e.userId, W.ErrorText(outcome), o.now)],
          true)
  }

  function HandleRefund(e: Event, w: World, o: Oracle): Reply
    requires e.WalletRefundRequested?
  {
    var ok := W.AddOutcome(e.userId, e.amount, o.write).Ok?;
    Reply(w.(wallets := W.Added(w.wallets, e.userId, e.amount, o.write)),
          if ok then [WalletRefunded(e.paymentId, e.userId, e.amount, o.now)] else [], ok)
  }

  /** One run of a handler. An event of another type is an error; sinks change nothing here. */
  function Handle(h: Handler, e: Event, w: World, o: Oracle): Reply {
    var mismatch := Reply(w, [], false);
    match h
    case OnCharge =>
      if !e.PaymentChargeRequested? then mismatch
      else Reply(w, [ChargeHandler.ReplyTo(e, ChargeHandler.Heard(e.attempt, o.answers, 0), o.now)], true)
    case OnChargeSucceeded =>
      if e.PaymentChargeSucceeded? then Perform(w, MarkSucceeded(e.paymentId, e.gatewayId), o.now) else mismatch
    case OnChargeFailed => if e.PaymentChargeFailed? then HandleChargeFailed(e, w, o.now) else mismatch
    case OnRecovery => if e.RecoveryRequested? then HandleRecovery(e, w, o) else mismatch
    case OnInitialized =>
      if !e.PaymentInitialized? then mismatch
      else Reply(w, [WalletDebitRequested(e.paymentId, e.userId, e.amount, 1, o.now)], true)
    case OnDebit => if e.WalletDebitRequested? then HandleDebit(e, w, o) else mismatch
    case OnDebitRejected =>
      if e.WalletDebitRejected? then Perform(w, MarkRejected(e.paymentId, e.reason), o.now) else mismatch
    case OnDebited => if e.WalletDebited? then HandleDebited(e, w, o.now) else mismatch
    case OnRefund => if e.WalletRefundRequested? then HandleRefund(e, w, o) else mismatch
    case ProjectorSink => Reply(w.(views := After(w.views, e)), [], true)
    case AuditSink => Reply(w, [], true)
    case MetricsSink => Reply(w, [], true)
    case NotifyCompletedSink => Reply(w, [], e.PaymentSucceeded?)
    case NotifyFailedSink => Reply(w, [], e.PaymentFailed?)
    case LogDebitedSink => Reply(w, [], e.WalletDebited?)
    case LogRefundedSink => Reply(w, [], e.WalletRefunded?)
  }

  /** Per payment, what has happened so far; `verdict` is the last reason or gateway id. Nothing reads it back. */
  datatype History = History(statuses: seq<Status>, debitCalls: nat, chargeCalls: nat, debitRecoveries: nat,
                             chargeRecoveries: nat, debits: nat, refunds: nat, deliveries: nat, verdict: string)

  const NO_HISTORY := History([], 0, 0, 0, 0, 0, 0, 0, "")

  function Note(h: History, e: Event): History {
    var g := h.(deliveries := h.deliveries + |Subscribers(NameOf(e))|);
    match e
    case PaymentInitialized(_, _, _, _, _) => g.(statuses := g.statuses + [Initialized])
    case PaymentPending(_, _, _) => g.(statuses := g.statuses + [Pending])
    case PaymentRejected(_, _, _, _) => g.(statuses := g.statuses + [Rejected])
    case PaymentSucceeded(_, _, _, _) => g.(statuses := g.statuses + [Succeeded])
    case PaymentFailed(_, _, _, _) => g.(statuses := g.statuses + [Failed])
    case WalletDebitRejected(_, _, reason, _) => g.(verdict := reason)
    case PaymentChargeSucceeded(_, _, gatewayId, _) => g.(verdict := gatewayId)
    case PaymentChargeFailed(_, _, reason, _, _, _) => g.(verdict := reason)
    case WalletDebited(_, _, _, _) => g.(debits := g.debits + 1)
    case WalletRefunded(_, _, _, _) => g.(refunds := g.refunds + 1)
    case RecoveryRequested(_, _, ChargeAction, _, _, _, _) => g.(chargeRecoveries := g.chargeRecoveries + 1)
    case RecoveryRequested(_, _, DebitAction, _, _, _, _) => g.(debitRecoveries := g.debitRecoveries + 1)
    case _ => g
  }

  function NoteAll(h: History, es: seq<Event>): History
    decreases |es|
  {
    if es == [] then h else NoteAll(Note(h, es[0]), es[1..])
  }

  /** Counts the calls a delivery makes, then what it publishes. */
  function Recorded(h: History, d: Delivery, o: Oracle, published: seq<Event>): History {
    NoteAll(match d.handler
            case OnDebit => h.(debitCalls := h.debitCalls + 1)
            case OnCharge =>
              if d.event.PaymentChargeRequested?
              then h.(chargeCalls := h.chargeCalls + |ChargeHandler.Heard(d.event.attempt, o.answers, 0)|) else h
            case _ => h, published)
  }

  /** Bookkeeping: creation order, acknowledged credits, histories, accepted requests. */
  datatype Book = Book(created: seq<string>, credits: seq<string>, credited: map<string, int>,
                       histories: map<string, History>, requests: map<string, CreateRequest>)

  datatype State = State(world: World, queues: seq<seq<Delivery>>, book: Book)

  /** The number of shards and the hash of a key. */
  datatype Config = Config(shards: nat, hash: string -> nat)

  predicate ValidConfig(c: Config) {
    c.shards > 0
  }

  function Shard(c: Config, key: string): nat
    requires ValidConfig(c)
  {
    c.hash(key) % c.shards
  }

  /** One `Publish` that finds room for every handler. */
  function Publish(c: Config, queues: seq<seq<Delivery>>, e: Event): (r: seq<seq<Delivery>>)
    requires ValidConfig(c) && |queues| == c.shards
    ensures |r| == c.shards
  {
    var i := Shard(c, BusKey(e));
    queues[i := queues[i] + Deliveries(e)]
  }

  function PublishAll(c: Config, queues: seq<seq<Delivery>>, es: seq<Event>): (r: seq<seq<Delivery>>)
    requires ValidConfig(c) && |queues| == c.shards
    ensures |r| == c.shards
    decreases |es|
  {
    if es == [] then queues else PublishAll(c, Publish(c, queues, es[0]), es[1..])
  }

  datatype Step =
    | Create(request: CreateRequest, now: int)
    | Credit(user: string, amount: int, write: W.Write, now: int)
    | Deliver(shard: nat, oracle: Oracle)

  /** Amounts are int64 values; a worker needs a delivery to handle. */
  predicate Enabled(c: Config, s: State, t: Step) {
    match t
    case Create(r, _) => IsInt64(r.amount)
    case Credit(_, a, _, _) => IsInt64(a)
    case Deliver(i, _) => i < |s.queues| && s.queues[i] != []
  }

  ghost function CreateStep(c: Config, s: State, r: CreateRequest, now: int): State
    requires ValidConfig(c) && |s.queues| == c.shards
  {
    var reply := Perform(s.world, Payments.Create(r), now);
    if !reply.done then s
    else State(reply.world, PublishAll(c, s.queues, reply.published),
               s.book.(created := s.book.created + [r.paymentId],
                       histories := s.book.histories[r.paymentId :=
                                      NoteAll(HistoryOf(s.book, r.paymentId), reply.published)],
                       requests := s.book.requests[r.paymentId := r]))
  }

  function HistoryOf(b: Book, id: string): History {
    if id in b.histories then b.histories[id] else NO_HISTORY
  }

  function CreditStep(c: Config, s: State, user: string, amount: int, write: W.Write, now: int): State
    requires ValidConfig(c) && |s.queues| == c.shards
  {
    var world := s.world.(wallets := W.Added(s.world.wallets, user, amount, write));
    if !W.AddOutcome(user, amount, write).Ok? then s.(world := world)
    else
      var e := WalletCredited(user, amount, now);
      State(world.(log := s.world.log + [RecordOf(user, e, now)]), Publish(c, s.queues, e),
            s.book.(credits := s.book.credits + [user],
                    credited := s.book.credited[user := BalanceOf(s.book.credited, user) + amount]))
  }

  function DeliverStep(c: Config, s: State, i: nat, o: Oracle): State
    requires ValidConfig(c) && |s.queues| == c.shards && i < |s.queues| && s.queues[i] != []
  {
    var d := s.queues[i][0];
    var reply := Handle(d.handler, d.event, s.world, o);
    State(reply.world,
          PublishAll(c, if reply.done then s.queues[i := s.queues[i][1..]] else s.queues, reply.published),
          if d.event.WalletCredited? then s.book
          else s.book.(histories := s.book.histories[d.event.paymentId :=
                                      Recorded(HistoryOf(s.book, d.event.paymentId), d, o, reply.published)]))
  }

  ghost function Next(c: Config, s: State, t: Step): State
    requires ValidConfig(c) && |s.queues| == c.shards && Enabled(c, s, t)
  {
    match t
    case Create(r, now) => CreateStep(c, s, r, now)
    case Credit(u, a, w, now) => CreditStep(c, s, u, a, w, now)
    case Deliver(i, o) => DeliverStep(c, s, i, o)
  }

  lemma NextKeepsShards(c: Config, s: State, t: Step)
    requires ValidConfig(c) && |s.queues| == c.shards && Enabled(c, s, t)
    ensures |Next(c, s, t).queues| == c.shards
  {
  }

  /** Payment ids are fresh. */
  predicate FreshStep(s: State, t: Step) {
    t.Create? && ValidRequest(t.request) ==> t.request.paymentId !in s.world.payments
  }

  /** `steps` is a run from `s` to `t` in which every payment id is fresh. */
  ghost predicate Run(c: Config, s: State, steps: seq<Step>, t: State)
    decreases |steps|
  {
    && ValidConfig(c) && |s.queues| == c.shards
    && if steps == [] then s == t
       else Enabled(c, s, steps[0]) && FreshStep(s, steps[0]) && Run(c, Next(c, s, steps[0]), steps[1..], t)
  }

  /** A system with given balances, and no payment, event or view yet. */
  function Start(c: Config, wallets: map<string, int>): State {
    State(World(wallets, map[], [], NO_VIEWS), seq(c.shards, i => []), Book([], [], map[], map[], map[]))
  }
}
