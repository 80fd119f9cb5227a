/**
 Conservation of money over whole runs. A wallet write may fail before or after it changed the balance;
 the mock client's failures are of the second kind. Conservation holds at every point of a run exactly
 when no write of the run fails after it changed a balance.
 */
module SagaMoney {
  import opened Common
  import opened Events
  import opened Payments
  import opened Broker
  import opened Saga
  import opened SagaQueues
  import opened SagaFlow
  import W = Wallets
  import ChargeHandler

  /** What the payment holds of `user`'s money: its amount, between its debit and its refund. */
  function HeldOf(p: Payment, h: History, user: string): int {
    if p.userId == user && h.debits > h.refunds then p.amount else 0
  }

  function HeldAt(t: Table, b: Book, id: string, user: string): int {
    if id in t then HeldOf(t[id], HistoryOf(b, id), user) else 0
  }

  /** The amounts of the debited and not yet refunded payments of `user`. */
  function HeldBy(created: seq<string>, t: Table, b: Book, user: string): int {
    if created == [] then 0 else HeldBy(created[1..], t, b, user) + HeldAt(t, b, created[0], user)
  }

  predicate Distinct(q: seq<string>) {
    forall i, j :: 0 <= i < j < |q| ==> q[i] != q[j]
  }

  /** The creation order lists every payment once. */
  ghost predicate Listed(s: State) {
    Distinct(s.book.created) && forall id :: id in s.book.created <==> id in s.world.payments
  }

  ghost predicate Conserved(initial: map<string, int>, s: State) {
    forall user :: BalanceOf(s.world.wallets, user) + HeldBy(s.book.created, s.world.payments, s.book, user)
                == BalanceOf(initial, user) + BalanceOf(s.book.credited, user)
  }

  ghost predicate NonNegative(wallets: map<string, int>) {
    forall user :: BalanceOf(wallets, user) >= 0
  }

  /** What a user ever put in fits an int64. */
  ghost predicate Fits(initial: map<string, int>, s: State) {
    forall user :: BalanceOf(initial, user) + BalanceOf(s.book.credited, user) <= MAX_INT64
  }

  /** The step's wallet statement changes the balance and then reports a failure. */
  predicate Torn(s: State, t: Step) {
    match t
    case Create(_, _) => false
    case Credit(user, amount, write, _) => W.ValidMove(user, amount) && write.FailedAfter?
    case Deliver(i, o) =>
      && i < |s.queues| && s.queues[i] != [] && o.write.FailedAfter?
      && var d := s.queues[i][0];
         || (d.handler == OnDebit && d.event.WalletDebitRequested?
             && W.DebitOutcome(s.world.wallets, d.event.userId, d.event.amount, W.Done).Ok?)
         || (d.handler == OnRefund && d.event.WalletRefundRequested? && W.ValidMove(d.event.userId, d.event.amount))
  }

  lemma {:induction false} HeldByOthers(created: seq<string>, t: Table, b: Book, t': Table, b': Book, id: string,
                                        user: string)
    requires id !in created
    requires forall x :: x != id ==> HeldAt(t', b', x, user) == HeldAt(t, b, x, user)
    ensures HeldBy(created, t', b', user) == HeldBy(created, t, b, user)
  {
    if created == [] {
    } else {
      HeldByOthers(created[1..], t, b, t', b', id, user);
    }
  }

  /** When only payment `id` changes, the sum moves by what that payment holds. */
  lemma {:induction false} HeldByMoves(created: seq<string>, t: Table, b: Book, t': Table, b': Book, id: string,
                                       user: string)
    requires id in created && Distinct(created)
    requires forall x :: x != id ==> HeldAt(t', b', x, user) == HeldAt(t, b, x, user)
    ensures HeldBy(created, t', b', user) - HeldAt(t', b', id, user)
            == HeldBy(created, t, b, user) - HeldAt(t, b, id, user)
  {
    if created[0] == id {
      assert id !in created[1..];
      HeldByOthers(created[1..], t, b, t', b', id, user);
    } else {
      HeldByMoves(created[1..], t, b, t', b', id, user);
    }
  }

  lemma {:induction false} HeldByIsAtLeast(created: seq<string>, t: Table, b: Book, id: string, user: string)
    requires forall x :: x in t ==> t[x].amount > 0
    ensures HeldBy(created, t, b, user) >= 0
    ensures id in created ==> HeldBy(created, t, b, user) >= HeldAt(t, b, id, user)
  {
    if created == [] {
    } else {
      HeldByIsAtLeast(created[1..], t, b, id, user);
    }
  }

  /** A debit delivery: the payment held nothing, and holds its amount exactly if the debit was acknowledged. */
  lemma {:induction false} DebitMoney(p: Payment, d: Delivery, h: History, w: World, o: Oracle, id: string)
    requires Ready(p, d, h, w, id) && d.handler == OnDebit
    ensures d.event.WalletDebitRequested? && d.event.userId == p.userId && d.event.amount == p.amount
    ensures var reply := Handle(d.handler, d.event, w, o);
            var g := Recorded(h, d, o, reply.published);
            && reply.done && reply.world.payments == w.payments
            && reply.world.wallets == W.Debited(w.wallets, p.userId, p.amount, o.write)
            && h.debits == h.refunds == g.refunds == 0
            && g.debits == (if W.DebitOutcome(w.wallets, p.userId, p.amount, o.write).Ok? then 1 else 0)
  {
    Few(WorkOf(id), h.(debitCalls := h.debitCalls + 1), Handle(d.handler, d.event, w, o).published);
  }

  /** A refund delivery: the payment held its amount, and lets go of it exactly if the refund was acknowledged. */
  lemma {:induction false} RefundMoney(p: Payment, d: Delivery, h: History, w: World, o: Oracle, id: string)
    requires Ready(p, d, h, w, id) && d.handler == OnRefund
    ensures d.event.WalletRefundRequested? && d.event.userId == p.userId && d.event.amount == p.amount
    ensures var reply := Handle(d.handler, d.event, w, o);
            var g := Recorded(h, d, o, reply.published);
            && reply.world.payments == w.payments
            && reply.world.wallets == W.Added(w.wallets, p.userId, p.amount, o.write)
            && h.debits == g.debits == 1 && h.refunds == 0
            && g.refunds == (if W.AddOutcome(p.userId, p.amount, o.write).Ok? then 1 else 0)
  {
    Few(WorkOf(id), h, Handle(d.handler, d.event, w, o).published);
  }

  predicate MovesMoney(e: Event) {
    e.WalletDebited? || e.WalletRefunded?
  }

  lemma {:induction false} NothingMoved(h: History, es: seq<Event>)
    requires forall k :: 0 <= k < |es| ==> !MovesMoney(es[k])
    ensures NoteAll(h, es).debits == h.debits && NoteAll(h, es).refunds == h.refunds
    decreases |es|
  {
    if es == [] {
    } else {
      NothingMoved(Note(h, es[0]), es[1..]);
    }
  }

  predicate NoMoney(es: seq<Event>) {
    forall k :: 0 <= k < |es| ==> !MovesMoney(es[k]) && !es[k].WalletCredited?
  }

  predicate KeepsOwners(t: Table, u: Table) {
    forall x :: x in t ==> x in u && u[x].userId == t[x].userId && u[x].amount == t[x].amount
  }

  lemma {:induction false} CallsMoveNoMoney(w: World, c: Payments.Call, now: int)
    requires !c.Create?
    ensures NoMoney(Perform(w, c, now).published) && KeepsOwners(w.payments, Perform(w, c, now).world.payments)
  {
  }

  /** Only debits and refunds touch balances or publish that money moved. */
  lemma {:induction false} OnlyTwoHandlersMoveMoney(h: Handler, e: Event, w: World, o: Oracle)
    requires h != OnDebit && h != OnRefund
    ensures var reply := Handle(h, e, w, o);
            reply.world.wallets == w.wallets && NoMoney(reply.published)
                && KeepsOwners(w.payments, reply.world.payments)
  {
    match h
    case OnChargeSucceeded =>
      if e.PaymentChargeSucceeded? { CallsMoveNoMoney(w, MarkSucceeded(e.paymentId, e.gatewayId), o.now); }
    case OnDebitRejected =>
      if e.WalletDebitRejected? { CallsMoveNoMoney(w, MarkRejected(e.paymentId, e.reason), o.now); }
    case OnDebited =>
      if e.WalletDebited? { CallsMoveNoMoney(w, MarkPending(e.paymentId), o.now); }
    case OnChargeFailed =>
      if e.PaymentChargeFailed? { CallsMoveNoMoney(w, MarkFailed(e.paymentId, e.reason), o.now); }
    case _ =>
  }

  /** No other workflow delivery moves money. */
  lemma {:induction false} OtherMoney(p: Payment, d: Delivery, h: History, w: World, o: Oracle, id: string)
    requires Ready(p, d, h, w, id) && IsWork(d.handler) && d.handler != OnDebit && d.handler != OnRefund
    ensures var reply := Handle(d.handler, d.event, w, o);
            var g := Recorded(h, d, o, reply.published);
            && id in reply.world.payments && reply.world.payments[id].userId == p.userId
                && reply.world.payments[id].amount == p.amount
            && reply.world.wallets == w.wallets && g.debits == h.debits && g.refunds == h.refunds
  {
    var published := Handle(d.handler, d.event, w, o).published;
    OnlyTwoHandlersMoveMoney(d.handler, d.event, w, o);
    var calls := if d.handler == OnCharge then |ChargeHandler.Heard(d.event.attempt, o.answers, 0)| else 0;
    NothingMoved(h.(chargeCalls := h.chargeCalls + calls), published);
  }

  /** Balances go from `m` to `n` while `owner`'s holding goes from `before` to `after`, for `user`'s part. */
  predicate Shifts(m: map<string, int>, n: map<string, int>, owner: string, before: int, after: int, user: string) {
    BalanceOf(n, user) + (if user == owner then after else 0)
    == BalanceOf(m, user) + (if user == owner then before else 0)
  }

  lemma {:induction false} DebitShifts(m: map<string, int>, owner: string, amount: int, write: W.Write)
    requires W.ValidMove(owner, amount) && NonNegative(m)
    ensures var n := W.Debited(m, owner, amount, write);
            var after := if W.DebitOutcome(m, owner, amount, write).Ok? then amount else 0;
            && NonNegative(n)
            && ((forall user :: Shifts(m, n, owner, 0, after, user)) <==>
                !(write.FailedAfter? && W.DebitOutcome(m, owner, amount, W.Done).Ok?))
  {
    var n := W.Debited(m, owner, amount, write);
    forall user ensures BalanceOf(n, user) >= 0 {
      assert BalanceOf(m, user) >= 0;
    }
    if write.FailedAfter? && W.DebitOutcome(m, owner, amount, W.Done).Ok? {
      assert !Shifts(m, n, owner, 0, 0, owner);
    }
  }

  lemma {:induction false} RefundShifts(m: map<string, int>, owner: string, amount: int, write: W.Write)
    requires W.ValidMove(owner, amount) && NonNegative(m) && BalanceOf(m, owner) + amount <= MAX_INT64
    ensures var n := W.Added(m, owner, amount, write);
            var after := if W.AddOutcome(owner, amount, write).Ok? then 0 else amount;
            && NonNegative(n)
            && ((forall user :: Shifts(m, n, owner, amount, after, user)) <==> !write.FailedAfter?)
  {
    var n := W.Added(m, owner, amount, write);
    assert BalanceOf(m, owner) >= 0;
    forall user ensures BalanceOf(n, user) >= 0 {
      assert BalanceOf(m, user) >= 0;
    }
    if write.FailedAfter? {
      assert !Shifts(m, n, owner, amount, amount, owner);
    }
  }

  /** What one delivery leaves, besides the queues. */
  lemma {:induction false} Delivered(c: Config, s: State, i: nat, o: Oracle)
    requires ValidConfig(c) && |s.queues| == c.shards && i < |s.queues| && s.queues[i] != []
             && !s.queues[i][0].event.WalletCredited?
    ensures var d, t := s.queues[i][0], DeliverStep(c, s, i, o);
            var reply := Handle(d.handler, d.event, s.world, o);
            && t.world == reply.world && t.book.created == s.book.created && t.book.credited == s.book.credited
            && t.book.credits == s.book.credits
            && t.book.histories
               == s.book.histories[d.event.paymentId :=
                    Recorded(HistoryOf(s.book, d.event.paymentId), d, o, reply.published)]
  {
  }

  /** A payment's money after its workflow delivery: the owner, and its holding before and after. */
  ghost predicate Settles(s: State, t: State, id: string, owner: string, before: int, after: int) {
    && id in s.world.payments && id in t.world.payments
    && t.world.payments == s.world.payments[id := t.world.payments[id]]
    && (forall x :: x != id ==> HistoryOf(t.book, x) == HistoryOf(s.book, x))
    && t.book.created == s.book.created && t.book.credited == s.book.credited
    && (forall user :: HeldAt(s.world.payments, s.book, id, user) == if user == owner then before else 0)
    && (forall user :: HeldAt(t.world.payments, t.book, id, user) == if user == owner then after else 0)
  }

  lemma {:induction false} SettledConserves(c: Config, initial: map<string, int>, s: State, t: State, id: string,
                                            owner: string, before: int, after: int)
    requires Listed(s) && Conserved(initial, s) && Settles(s, t, id, owner, before, after)
    ensures Listed(t)
    ensures Conserved(initial, t) <==>
              forall user :: Shifts(s.world.wallets, t.world.wallets, owner, before, after, user)
  {
    forall user ensures Shifts(s.world.wallets, t.world.wallets, owner, before, after, user) <==>
        BalanceOf(t.world.wallets, user) + HeldBy(t.book.created, t.world.payments, t.book, user)
          == BalanceOf(initial, user) + BalanceOf(t.book.credited, user) {
      HeldByMoves(s.book.created, s.world.payments, s.book, t.world.payments, t.book, id, user);
    }
  }

  /** The holdings of the handled payment are read off its history before and after. */
  lemma {:induction false} DeliverySettles(c: Config, s: State, i: nat, o: Oracle, id: string, p: Payment, g: History)
    requires ValidConfig(c) && |s.queues| == c.shards && i < |s.queues| && s.queues[i] != []
    requires !s.queues[i][0].event.WalletCredited? && s.queues[i][0].event.paymentId == id
    requires id in s.world.payments && s.world.payments[id] == p
    requires var d := s.queues[i][0];
             var reply := Handle(d.handler, d.event, s.world, o);
             && g == Recorded(HistoryOf(s.book, id), d, o, reply.published)
             && id in reply.world.payments && reply.world.payments == s.world.payments[id := reply.world.payments[id]]
             && reply.world.payments[id].userId == p.userId && reply.world.payments[id].amount == p.amount
    ensures Settles(s, DeliverStep(c, s, i, o), id, p.userId, HeldOf(p, HistoryOf(s.book, id), p.userId),
                    HeldOf(p, g, p.userId))
  {
  }

  /** The head of shard `i` is the one outstanding delivery of payment `id`, for the given handler. */
  ghost predicate HeadOf(c: Config, s: State, i: nat, id: string, h: Handler) {
    && ValidConfig(c) && |s.queues| == c.shards && i < |s.queues| && s.queues[i] != [] && s.queues[i][0].handler == h
    && !s.queues[i][0].event.WalletCredited? && s.queues[i][0].event.paymentId == id && id in s.world.payments
    && Ready(s.world.payments[id], s.queues[i][0], HistoryOf(s.book, id), s.world, id)
  }

  lemma {:induction false} DebitSettles(c: Config, s: State, i: nat, o: Oracle, id: string)
    requires HeadOf(c, s, i, id, OnDebit)
    ensures var p, t := s.world.payments[id], DeliverStep(c, s, i, o);
            && t.world.wallets == W.Debited(s.world.wallets, p.userId, p.amount, o.write)
            && Settles(s, t, id, p.userId, 0,
                       if W.DebitOutcome(s.world.wallets, p.userId, p.amount, o.write).Ok? then p.amount else 0)
    ensures var d, p := s.queues[i][0], s.world.payments[id];
            d.event.WalletDebitRequested? && d.event.userId == p.userId && d.event.amount == p.amount
  {
    var d, p, h := s.queues[i][0], s.world.payments[id], HistoryOf(s.book, id);
    DebitMoney(p, d, h, s.world, o, id);
    assert s.world.payments == s.world.payments[id := p];
    DeliverySettles(c, s, i, o, id, p, Recorded(h, d, o, Handle(d.handler, d.event, s.world, o).published));
  }

  lemma {:induction false} DebitDelivery(c: Config, s: State, i: nat, o: Oracle) returns (owner: string, after: int)
    requires Inv(c, s) && NonNegative(s.world.wallets)
    requires i < |s.queues| && s.queues[i] != [] && s.queues[i][0].handler == OnDebit
    ensures var d, t := s.queues[i][0], DeliverStep(c, s, i, o);
            && !d.event.WalletCredited? && Settles(s, t, d.event.paymentId, owner, 0, after)
            && NonNegative(t.world.wallets)
            && ((forall user :: Shifts(s.world.wallets, t.world.wallets, owner, 0, after, user)) <==>
                !Torn(s, Deliver(i, o)))
  {
    HeadIsTheWork(c, s, i);
    var id := s.queues[i][0].event.paymentId;
    var p := s.world.payments[id];
    DebitSettles(c, s, i, o, id);
    owner, after := p.userId, if W.DebitOutcome(s.world.wallets, p.userId, p.amount, o.write).Ok? then p.amount else 0;
    DebitShifts(s.world.wallets, owner, p.amount, o.write);
  }

  lemma {:induction false} RefundSettles(c: Config, s: State, i: nat, o: Oracle, id: string)
    requires HeadOf(c, s, i, id, OnRefund)
    ensures var p, t := s.world.payments[id], DeliverStep(c, s, i, o);
            && HeldOf(p, HistoryOf(s.book, id), p.userId) == p.amount
            && t.world.wallets == W.Added(s.world.wallets, p.userId, p.amount, o.write)
            && Settles(s, t, id, p.userId, p.amount,
                       if W.AddOutcome(p.userId, p.amount, o.write).Ok? then 0 else p.amount)
    ensures var d, p := s.queues[i][0], s.world.payments[id];
            d.event.WalletRefundRequested? && d.event.userId == p.userId && d.event.amount == p.amount
  {
    var d, p, h := s.queues[i][0], s.world.payments[id], HistoryOf(s.book, id);
    RefundMoney(p, d, h, s.world, o, id);
    assert s.world.payments == s.world.payments[id := p];
    DeliverySettles(c, s, i, o, id, p, Recorded(h, d, o, Handle(d.handler, d.event, s.world, o).published));
  }

  lemma {:induction false} RefundDelivery(c: Config, initial: map<string, int>, s: State, i: nat, o: Oracle)
    returns (owner: string, before: int, after: int)
    requires Inv(c, s) && Listed(s) && NonNegative(s.world.wallets) && Conserved(initial, s) && Fits(initial, s)
    requires i < |s.queues| && s.queues[i] != [] && s.queues[i][0].handler == OnRefund
    ensures var d, t := s.queues[i][0], DeliverStep(c, s, i, o);
            && !d.event.WalletCredited? && Settles(s, t, d.event.paymentId, owner, before, after)
            && NonNegative(t.world.wallets)
            && ((forall user :: Shifts(s.world.wallets, t.world.wallets, owner, before, after, user)) <==>
                !Torn(s, Deliver(i, o)))
  {
    HeadIsTheWork(c, s, i);
    var id := s.queues[i][0].event.paymentId;
    var p := s.world.payments[id];
    RefundSettles(c, s, i, o, id);
    owner, before, after := p.userId, p.amount, if W.AddOutcome(p.userId, p.amount, o.write).Ok? then 0 else p.amount;
    RefundFits(c, initial, s, id);
    RefundShifts(s.world.wallets, owner, p.amount, o.write);
  }

  /** What a payment holds fits on top of its owner's balance. */
  lemma {:induction false} RefundFits(c: Config, initial: map<string, int>, s: State, id: string)
    requires Inv(c, s) && Listed(s) && Conserved(initial, s) && Fits(initial, s) && id in s.world.payments
    ensures var p := s.world.payments[id];
            BalanceOf(s.world.wallets, p.userId) + HeldOf(p, HistoryOf(s.book, id), p.userId) <= MAX_INT64
  {
    var p := s.world.payments[id];
    HeldByIsAtLeast(s.book.created, s.world.payments, s.book, id, p.userId);
    assert BalanceOf(s.world.wallets, p.userId) + HeldBy(s.book.created, s.world.payments, s.book, p.userId)
        == BalanceOf(initial, p.userId) + BalanceOf(s.book.credited, p.userId);
  }

  lemma {:induction false} OtherDelivery(c: Config, s: State, i: nat, o: Oracle) returns (owner: string, held: int)
    requires Inv(c, s) && i < |s.queues| && s.queues[i] != [] && IsWork(s.queues[i][0].handler)
    requires s.queues[i][0].handler != OnDebit && s.queues[i][0].handler != OnRefund
    ensures var d, t := s.queues[i][0], DeliverStep(c, s, i, o);
            !d.event.WalletCredited? && Settles(s, t, d.event.paymentId, owner, held, held)
                && t.world.wallets == s.world.wallets
  {
    HeadIsTheWork(c, s, i);
    var d := s.queues[i][0];
    var id := d.event.paymentId;
    var p, h := s.world.payments[id], HistoryOf(s.book, id);
    var g := Recorded(h, d, o, Handle(d.handler, d.event, s.world, o).published);
    StageStep(p, d, h, s.world, o, id);
    OtherMoney(p, d, h, s.world, o, id);
    DeliverySettles(c, s, i, o, id, p, g);
    Delivered(c, s, i, o);
    owner, held := p.userId, HeldOf(p, h, p.userId);
  }

  /** The ledger of a clean prefix of a run. */
  ghost predicate Balanced(c: Config, initial: map<string, int>, s: State) {
    Inv(c, s) && Listed(s) && Conserved(initial, s) && NonNegative(s.world.wallets)
  }

  lemma {:induction false} WorkDeliveryBalances(c: Config, initial: map<string, int>, s: State, i: nat, o: Oracle)
    requires Balanced(c, initial, s) && Fits(initial, s)
    requires i < |s.queues| && s.queues[i] != [] && IsWork(s.queues[i][0].handler)
    ensures var t := DeliverStep(c, s, i, o);
            Listed(t) && NonNegative(t.world.wallets) && (Conserved(initial, t) <==> !Torn(s, Deliver(i, o)))
  {
    var d, t := s.queues[i][0], DeliverStep(c, s, i, o);
    var owner, before, after;
    if d.handler == OnDebit {
      before := 0;
      owner, after := DebitDelivery(c, s, i, o);
    } else if d.handler == OnRefund {
      owner, before, after := RefundDelivery(c, initial, s, i, o);
    } else {
      owner, before := OtherDelivery(c, s, i, o);
      after := before;
    }
    SettledConserves(c, initial, s, t, d.event.paymentId, owner, before, after);
  }

  lemma {:induction false} SinkDeliveryBalances(c: Config, initial: map<string, int>, s: State, i: nat, o: Oracle)
    requires Balanced(c, initial, s)
    requires i < |s.queues| && s.queues[i] != [] && !IsWork(s.queues[i][0].handler)
    ensures var t := DeliverStep(c, s, i, o);
            Listed(t) && NonNegative(t.world.wallets) && Conserved(initial, t) && !Torn(s, Deliver(i, o))
  {
    assert Placed(c, s.world.payments, i, s.queues[i][0]);
    SinkDelivered(c, s, i, o);
    SunkBalances(c, initial, s, i, DeliverStep(c, s, i, o));
  }

  lemma {:induction false} SunkBalances(c: Config, initial: map<string, int>, s: State, i: nat, t: State)
    requires Balanced(c, initial, s) && i < |s.queues| && s.queues[i] != [] && Sunk(s, i, t)
    ensures Listed(t) && NonNegative(t.world.wallets) && Conserved(initial, t)
  {
    forall user ensures HeldBy(t.book.created, t.world.payments, t.book, user)
                     == HeldBy(s.book.created, s.world.payments, s.book, user) {
      SameHoldings(s.book.created, s.world.payments, s.book, t.book, user);
    }
  }

  lemma {:induction false} SameHoldings(created: seq<string>, t: Table, b: Book, b': Book, user: string)
    requires forall x :: x in t ==> HistoryOf(b', x) == HistoryOf(b, x)
    ensures HeldBy(created, t, b', user) == HeldBy(created, t, b, user)
  {
    if created == [] {
    } else {
      SameHoldings(created[1..], t, b, b', user);
    }
  }

  lemma {:induction false} HeldByNewcomer(created: seq<string>, id: string, t: Table, b: Book, t': Table, b': Book,
                                          user: string)
    requires id !in created && HeldAt(t', b', id, user) == 0
    requires forall x :: x != id ==> HeldAt(t', b', x, user) == HeldAt(t, b, x, user)
    ensures HeldBy(created + [id], t', b', user) == HeldBy(created, t, b, user)
  {
    if created == [] {
      assert created + [id] == [id];
      assert HeldBy([id], t', b', user) == HeldBy([], t', b', user) + HeldAt(t', b', id, user);
    } else {
      assert (created + [id])[0] == created[0] && (created + [id])[1..] == created[1..] + [id];
      HeldByNewcomer(created[1..], id, t, b, t', b', user);
    }
  }

  /** A payment that holds nothing joins; nobody's balance moves. */
  lemma {:induction false} NewcomerConserves(initial: map<string, int>, s: State, t: State, id: string)
    requires Listed(s) && Conserved(initial, s) && id !in s.world.payments
    requires id in t.world.payments && t.world.payments == s.world.payments[id := t.world.payments[id]]
    requires t.book.created == s.book.created + [id] && t.book.credited == s.book.credited
             && t.world.wallets == s.world.wallets
    requires HistoryOf(t.book, id).debits == 0 && forall x :: x != id ==> HistoryOf(t.book, x) == HistoryOf(s.book, x)
    ensures Listed(t) && Conserved(initial, t)
  {
    forall user ensures HeldBy(t.book.created, t.world.payments, t.book, user)
                     == HeldBy(s.book.created, s.world.payments, s.book, user) {
      HeldByNewcomer(s.book.created, id, s.world.payments, s.book, t.world.payments, t.book, user);
    }
  }

  lemma {:induction false} CreateBalances(c: Config, initial: map<string, int>, s: State, r: CreateRequest, now: int)
    requires Balanced(c, initial, s) && ValidRequest(r) && r.paymentId !in s.world.payments
    ensures var t := CreateStep(c, s, r, now); Listed(t) && NonNegative(t.world.wallets) && Conserved(initial, t)
  {
    var id := r.paymentId;
    Few(WorkOf(id), NO_HISTORY, CreateEvents(r, now));
    assert HistoryOf(s.book, id) == NO_HISTORY;
    NewcomerConserves(initial, s, CreateStep(c, s, r, now), id);
  }

  lemma {:induction false} CreditConserves(initial: map<string, int>, s: State, t: State, user: string,
                                           acknowledged: int)
    requires Conserved(initial, s)
    requires t.world.payments == s.world.payments && t.book.created == s.book.created
             && t.book.histories == s.book.histories
    requires forall x ::
               BalanceOf(t.book.credited, x) == BalanceOf(s.book.credited, x) + if x == user then acknowledged else 0
    ensures Conserved(initial, t) <==> forall x :: Credits(s.world.wallets, t.world.wallets, user, acknowledged, x)
  {
    forall x ensures Credits(s.world.wallets, t.world.wallets, user, acknowledged, x) <==>
        BalanceOf(t.world.wallets, x) + HeldBy(t.book.created, t.world.payments, t.book, x)
          == BalanceOf(initial, x) + BalanceOf(t.book.credited, x) {
      SameHoldings(s.book.created, s.world.payments, s.book, t.book, x);
    }
  }

  lemma {:induction false} CreditBalances(c: Config, initial: map<string, int>, s: State, user: string, amount: int,
                                          write: W.Write, now: int)
    requires Balanced(c, initial, s) && IsInt64(amount) && Fits(initial, s)
             && Fits(initial, CreditStep(c, s, user, amount, write, now))
    ensures var t := CreditStep(c, s, user, amount, write, now);
            && Listed(t) && (Conserved(initial, t) <==> !Torn(s, Credit(user, amount, write, now)))
            && (Conserved(initial, t) ==> NonNegative(t.world.wallets))
  {
    var t := CreditStep(c, s, user, amount, write, now);
    var acknowledged := if W.AddOutcome(user, amount, write).Ok? then amount else 0;
    BalanceIsCovered(c, initial, s, user);
    assert BalanceOf(initial, user) + BalanceOf(t.book.credited, user) <= MAX_INT64;
    CreditShifts(initial, s.world.wallets, s.book.credited, user, amount, write);
    CreditConserves(initial, s, t, user, acknowledged);
  }

  lemma {:induction false} BalanceIsCovered(c: Config, initial: map<string, int>, s: State, user: string)
    requires Balanced(c, initial, s)
    ensures 0 <= BalanceOf(s.world.wallets, user) <= BalanceOf(initial, user) + BalanceOf(s.book.credited, user)
  {
    HeldByIsAtLeast(s.book.created, s.world.payments, s.book, "", user);
  }

  /** `user`'s balance went up by `acknowledged` and the others stayed, for `x`'s part. */
  predicate Credits(m: map<string, int>, n: map<string, int>, user: string, acknowledged: int, x: string) {
    BalanceOf(n, x) == BalanceOf(m, x) + if x == user then acknowledged else 0
  }

  lemma {:induction false} CreditShifts(initial: map<string, int>, m: map<string, int>, credited: map<string, int>,
                                        user: string, amount: int, write: W.Write)
    requires IsInt64(amount) && NonNegative(m)
    requires BalanceOf(m, user) <= BalanceOf(initial, user) + BalanceOf(credited, user) <= MAX_INT64
    requires W.AddOutcome(user, amount, write).Ok? ==>
               BalanceOf(initial, user) + (BalanceOf(credited, user) + amount) <= MAX_INT64
    ensures var n := W.Added(m, user, amount, write);
            var acknowledged := if W.AddOutcome(user, amount, write).Ok? then amount else 0;
            && ((forall x :: Credits(m, n, user, acknowledged, x)) <==>
                !(W.ValidMove(user, amount) && write.FailedAfter?))
            && ((forall x :: Credits(m, n, user, acknowledged, x)) ==> NonNegative(n))
  {
  }

  lemma {:induction false} StepBalances(c: Config, initial: map<string, int>, s: State, t: Step)
    requires Balanced(c, initial, s) && Enabled(c, s, t) && FreshStep(s, t)
    requires Fits(initial, s) && Fits(initial, Next(c, s, t))
    ensures Conserved(initial, Next(c, s, t)) <==> !Torn(s, t)
    ensures Conserved(initial, Next(c, s, t)) ==> Balanced(c, initial, Next(c, s, t))
  {
    StepKeepsInv(c, s, t);
    match t
    case Create(r, now) =>
      if ValidRequest(r) { CreateBalances(c, initial, s, r, now); }
    case Credit(u, a, w, now) => CreditBalances(c, initial, s, u, a, w, now);
    case Deliver(i, o) =>
      if IsWork(s.queues[i][0].handler) { WorkDeliveryBalances(c, initial, s, i, o); }
      else { SinkDeliveryBalances(c, initial, s, i, o); }
  }

  /** The balances are conserved before the first step and after every step. */
  ghost predicate ConservedThroughout(c: Config, initial: map<string, int>, s: State, steps: seq<Step>, t: State)
    requires Run(c, s, steps, t)
    decreases |steps|
  {
    Conserved(initial, s) && (steps == [] || ConservedThroughout(c, initial, Next(c, s, steps[0]), steps[1..], t))
  }

  ghost predicate Untorn(c: Config, s: State, steps: seq<Step>, t: State)
    requires Run(c, s, steps, t)
    decreases |steps|
  {
    steps == [] || (!Torn(s, steps[0]) && Untorn(c, Next(c, s, steps[0]), steps[1..], t))
  }

  /** Credits only add up. */
  lemma {:induction false} CreditsOnlyGrow(c: Config, initial: map<string, int>, s: State, steps: seq<Step>, t: State)
    requires Run(c, s, steps, t) && Fits(initial, t)
    ensures Fits(initial, s)
    decreases |steps|
  {
    if steps == [] {
    } else {
      CreditsOnlyGrow(c, initial, Next(c, s, steps[0]), steps[1..], t);
      forall user ensures BalanceOf(s.book.credited, user) <= BalanceOf(Next(c, s, steps[0]).book.credited, user) {
      }
    }
  }

  lemma {:induction false} ConservedFrom(c: Config, initial: map<string, int>, s: State, steps: seq<Step>, t: State)
    requires Balanced(c, initial, s) && Run(c, s, steps, t) && Fits(initial, t)
    ensures ConservedThroughout(c, initial, s, steps, t) <==> Untorn(c, s, steps, t)
    ensures Untorn(c, s, steps, t) ==> Balanced(c, initial, t)
    decreases |steps|
  {
    if steps == [] {
    } else {
      var u := Next(c, s, steps[0]);
      CreditsOnlyGrow(c, initial, s, steps, t);
      CreditsOnlyGrow(c, initial, u, steps[1..], t);
      StepBalances(c, initial, s, steps[0]);
      if Conserved(initial, u) {
        ConservedFrom(c, initial, u, steps[1..], t);
      } else {
        assert !ConservedThroughout(c, initial, u, steps[1..], t);
      }
    }
  }

  /**
   For any number of interleaved payments and credits, provided what each user starts with plus what is
   credited fits an int64: at every point of the run each user's balance plus the amounts of that user's
   debited and not yet refunded payments is the initial balance plus the acknowledged credits, if and
   only if no wallet write of the run fails after changing the balance. Balances then stay non-negative.
   */
  lemma {:induction false} MoneyIsConservedIffNoWriteIsTorn(c: Config, initial: map<string, int>, steps: seq<Step>,
                                                            t: State)
    requires Run(c, Start(c, initial), steps, t) && NonNegative(initial) && Fits(initial, t)
    ensures ConservedThroughout(c, initial, Start(c, initial), steps, t) <==> Untorn(c, Start(c, initial), steps, t)
    ensures Untorn(c, Start(c, initial), steps, t) ==> NonNegative(t.world.wallets)
  {
    StartInv(c, initial);
    ConservedFrom(c, initial, Start(c, initial), steps, t);
  }

  /** The amounts of the succeeded payments of `user`. */
  function SpentBy(created: seq<string>, t: Table, user: string): int {
    if created == [] then 0
    else SpentBy(created[1..], t, user)
         + if created[0] in t && t[created[0]].userId == user && t[created[0]].status == Succeeded
             then t[created[0]].amount else 0
  }

  /** Finished payments hold the amounts of the succeeded ones and nothing else. */
  lemma {:induction false} HeldIsSpentWhenFinished(created: seq<string>, t: Table, b: Book, user: string)
    requires forall id :: id in t ==> Finished(t[id], HistoryOf(b, id))
    ensures HeldBy(created, t, b, user) == SpentBy(created, t, user)
  {
    if created == [] {
    } else {
      HeldIsSpentWhenFinished(created[1..], t, b, user);
    }
  }

  /**
   All or nothing, in money: in a run without torn writes, once nothing is left to deliver, each user's
   balance is the initial balance plus the acknowledged credits minus the amounts of that user's
   succeeded payments. A rejected or failed payment has cost nothing, a succeeded one its amount once.
   */
  lemma {:induction false} AtRestOnlySucceededPaymentsCost(c: Config, initial: map<string, int>, steps: seq<Step>,
                                                           t: State, user: string)
    requires Run(c, Start(c, initial), steps, t) && Quiescent(t) && NonNegative(initial) && Fits(initial, t)
    requires Untorn(c, Start(c, initial), steps, t)
    ensures BalanceOf(t.world.wallets, user)
            == BalanceOf(initial, user) + BalanceOf(t.book.credited, user)
               - SpentBy(t.book.created, t.world.payments, user)
  {
    StartInv(c, initial);
    ConservedFrom(c, initial, Start(c, initial), steps, t);
    forall id | id in t.world.payments ensures Finished(t.world.payments[id], HistoryOf(t.book, id)) {
      AllOrNothingAtRest(c, initial, steps, t, id);
    }
    HeldIsSpentWhenFinished(t.book.created, t.world.payments, t.book, user);
  }

  /**
   Torn writes break that: a debit torn on its first attempt and torn again on its second leaves the
   payment rejected, no `WalletDebited` published, and the user twice the amount short.
   */
  lemma {:induction false} TwoTornDebitsEndRejected(w: World, e: Event, first: Oracle, sleep: Oracle, second: Oracle,
                                                    last: Oracle)
    requires e.WalletDebitRequested? && e.attempt == 1 && W.ValidMove(e.userId, e.amount)
             && BalanceOf(w.wallets, e.userId) >= 2 * e.amount
    requires e.paymentId in w.payments
    requires w.payments[e.paymentId].id == e.paymentId && w.payments[e.paymentId].userId == e.userId
             && w.payments[e.paymentId].amount == e.amount
    requires first.write.FailedAfter? && sleep.sleepOk && second.write.FailedAfter?
    ensures var torn := Handle(OnDebit, e, w, first);
            && |torn.published| == 1
            && var recovered := Handle(OnRecovery, torn.published[0], torn.world, sleep);
            && |recovered.published| == 1
            && var again := Handle(OnDebit, recovered.published[0], recovered.world, second);
            && |again.published| == 1 && again.published[0].WalletDebitRejected?
            && var ended := Handle(OnDebitRejected, again.published[0], again.world, last).world;
            && ended.payments[e.paymentId].status == Rejected
            && BalanceOf(ended.wallets, e.userId) == BalanceOf(w.wallets, e.userId) - 2 * e.amount
  {
    var torn := Handle(OnDebit, e, w, first);
    var recovered := Handle(OnRecovery, torn.published[0], torn.world, sleep);
    assert recovered.published == [WalletDebitRequested(e.paymentId, e.userId, e.amount, 2, sleep.now)];
  }

  /**
   A first debit whose write fails after it took the money is recovered by a second debit: the user
   pays twice for one `WalletDebited`.
   */
  lemma {:induction false} TornDebitIsTakenTwice(w: World, e: Event, first: Oracle, sleep: Oracle, second: Oracle)
    requires e.WalletDebitRequested? && e.attempt == 1 && W.ValidMove(e.userId, e.amount)
             && BalanceOf(w.wallets, e.userId) >= 2 * e.amount
    requires e.paymentId in w.payments && w.payments[e.paymentId].userId == e.userId
             && w.payments[e.paymentId].amount == e.amount
    requires first.write.FailedAfter? && sleep.sleepOk && second.write.Done?
    ensures var torn := HandleDebit(e, w, first);
            && torn.published[0].RecoveryRequested?
            && var recovered := HandleRecovery(torn.published[0], torn.world, sleep);
            && |recovered.published| == 1 && recovered.published[0].WalletDebitRequested?
            && var again := HandleDebit(recovered.published[0], recovered.world, second);
            && BalanceOf(again.world.wallets, e.userId) == BalanceOf(w.wallets, e.userId) - 2 * e.amount
            && again.published == [WalletDebited(w.payments[e.paymentId].id, e.userId, e.amount, second.now)]
  {
  }
}
