/** The projector of internal/readmodels/projector.go: events folded into payment and wallet views. */
module ReadModels {
  import opened Common
  import opened Events
  import opened EventStore
  import opened Payments

  datatype PaymentView = PaymentView(paymentId: string, userId: string, amount: int, service: string,
                                     status: Status, reason: string, gatewayId: string, updatedAt: int)

  datatype WalletView = WalletView(userId: string, balance: int, updatedAt: int)

  datatype Views = Views(payments: map<string, PaymentView>, wallets: map<string, WalletView>)

  const ZERO_PAYMENT := PaymentView("", "", 0, "", NoStatus, "", "", 0)
  const ZERO_WALLET := WalletView("", 0, 0)
  const NO_VIEWS := Views(map[], map[])

  /** True of the six events that change a payment view. */
  predicate TouchesPayment(e: Event) {
    || e.PaymentCreated? || e.PaymentInitialized? || e.PaymentPending?
    || e.PaymentRejected? || e.PaymentSucceeded? || e.PaymentFailed?
  }

  /** True of the three events that change a wallet view. */
  predicate TouchesWallet(e: Event) {
    e.WalletCredited? || e.WalletDebited? || e.WalletRefunded?
  }

  function PaymentAt(v: Views, id: string): PaymentView {
    if id in v.payments then v.payments[id] else ZERO_PAYMENT
  }

  function WalletAt(v: Views, user: string): WalletView {
    if user in v.wallets then v.wallets[user] else ZERO_WALLET
  }

  /** One payment view after one event of that payment. */
  function PaymentAfter(v: PaymentView, e: Event): PaymentView
    requires TouchesPayment(e)
  {
    var w := v.(paymentId := e.paymentId, userId := e.userId, updatedAt := e.at);
    match e
    case PaymentCreated(_, _, a, s, _) =>
      w.(amount := a, service := s, status := if v.status == NoStatus then Initialized else v.status)
    case PaymentInitialized(_, _, a, s, _) => w.(amount := a, service := s, status := Initialized)
    case PaymentPending(_, _, _) => w.(status := Pending)
    case PaymentRejected(_, _, r, _) => w.(status := Rejected, reason := r)
    case PaymentSucceeded(_, _, g, _) => w.(status := Succeeded, gatewayId := g)
    case PaymentFailed(_, _, r, _) => w.(status := Failed, reason := r)
    case _ => w
  }

  /** What a wallet event adds to a balance. */
  function Delta(e: Event): int {
    match e
    case WalletCredited(_, a, _) => a
    case WalletDebited(_, _, a, _) => -a
    case WalletRefunded(_, _, a, _) => a
    case _ => 0
  }

  function WalletAfter(w: WalletView, e: Event): WalletView
    requires TouchesWallet(e)
  {
    WalletView(e.userId, Wrap64(w.balance + Delta(e)), e.at)
  }

  function After(v: Views, e: Event): Views {
    if TouchesPayment(e) then v.(payments := v.payments[e.paymentId := PaymentAfter(PaymentAt(v, e.paymentId), e)])
    else if TouchesWallet(e) then v.(wallets := v.wallets[e.userId := WalletAfter(WalletAt(v, e.userId), e)])
    else v
  }

  function Project(v: Views, es: seq<Event>): Views
    decreases |es|
  {
    if es == [] then v else Project(After(v, es[0]), es[1..])
  }

  /** The events a log decodes to, up to the first record that does not decode. */
  function Decoding(log: seq<Record>): seq<Event> {
    if log == [] then []
    else match Decode(log[0].name, log[0].payload)
      case Bad => []
      case Skipped => Decoding(log[1..])
      case Good(e) => [e] + Decoding(log[1..])
  }

  predicate Decodes(log: seq<Record>) {
    forall i :: 0 <= i < |log| ==> Decode(log[i].name, log[i].payload) != Bad
  }

  class Projector {
    var payments: map<string, PaymentView>
    var wallets: map<string, WalletView>

    ghost function Contents(): Views
      reads this
    {
      Views(payments, wallets)
    }

    constructor ()
      ensures Contents() == NO_VIEWS
    {
      payments, wallets := map[], map[];
    }

    /** Live application of one event. */
    method Apply(e: Event)
      modifies this
      ensures Contents() == After(old(Contents()), e)
    {
      if TouchesPayment(e) {
        var cur := if e.paymentId in payments then payments[e.paymentId] else ZERO_PAYMENT;
        cur := cur.(paymentId := e.paymentId);
        cur := cur.(userId := e.userId);
        match e {
          case PaymentCreated(_, _, amount, service, _) =>
            cur := cur.(amount := amount);
            cur := cur.(service := service);
            if cur.status == NoStatus {
              cur := cur.(status := Initialized);
            }
          case PaymentInitialized(_, _, amount, service, _) =>
            cur := cur.(amount := amount);
            cur := cur.(service := service);
            cur := cur.(status := Initialized);
          case PaymentPending(_, _, _) =>
            cur := cur.(status := Pending);
          case PaymentRejected(_, _, reason, _) =>
            cur := cur.(status := Rejected);
            cur := cur.(reason := reason);
          case PaymentSucceeded(_, _, gatewayId, _) =>
            cur := cur.(status := Succeeded);
            cur := cur.(gatewayId := gatewayId);
          case PaymentFailed(_, _, reason, _) =>
            cur := cur.(status := Failed);
            cur := cur.(reason := reason);
          case _ =>
        }
        cur := cur.(updatedAt := e.at);
        payments := payments[e.paymentId := cur];
      } else if TouchesWallet(e) {
        var cur := if e.userId in wallets then wallets[e.userId] else ZERO_WALLET;
        cur := cur.(userId := e.userId);
        if e.WalletDebited? {
          cur := cur.(balance := Wrap64(cur.balance - e.amount));
        } else {
          cur := cur.(balance := Wrap64(cur.balance + e.amount));
        }
        cur := cur.(updatedAt := e.at);
        wallets := wallets[e.userId := cur];
      }
    }

    method ApplyRecord(rec: Record) returns (ok: bool)
      modifies this
      ensures ok <==> Decode(rec.name, rec.payload) != Bad
      ensures Contents() == Project(old(Contents()), Decoding([rec]))
    {
      match Decode(rec.name, rec.payload) {
        case Bad =>
          ok := false;
        case Skipped =>
          ok := true;
        case Good(e) =>
          Apply(e);
          assert Decoding([rec]) == [e];
          ok := true;
      }
    }

    /** Applies the records in order and stops at the first that does not decode. */
    method Replay(records: seq<Record>) returns (ok: bool)
      modifies this
      ensures ok <==> Decodes(records)
      ensures Contents() == Project(old(Contents()), Decoding(records))
    {
      var i := 0;
      while i < |records|
        invariant 0 <= i <= |records| && Decodes(records[..i])
        invariant Contents() == Project(old(Contents()), Decoding(records[..i]))
      {
        assert records[..i] + [records[i]] == records[..i + 1];
        assert records[..i] + records[i..] == records;
        DecodingConcat(records[..i], [records[i]]);
        DecodingConcat(records[..i], records[i..]);
        ProjectConcat(old(Contents()), Decoding(records[..i]), Decoding([records[i]]));
        ok := ApplyRecord(records[i]);
        if !ok {
          return;
        }
        i := i + 1;
      }
      assert records[..i] == records;
      ok := true;
    }
  }

  lemma {:induction false} ProjectConcat(v: Views, a: seq<Event>, b: seq<Event>)
    ensures Project(v, a + b) == Project(Project(v, a), b)
    decreases |a|
  {
    if a == [] {
      assert a + b == b;
    } else {
      assert (a + b)[0] == a[0] && (a + b)[1..] == a[1..] + b;
      ProjectConcat(After(v, a[0]), a[1..], b);
    }
  }

  lemma {:induction false} DecodingConcat(a: seq<Record>, b: seq<Record>)
    requires Decodes(a)
    ensures Decoding(a + b) == Decoding(a) + Decoding(b)
  {
    if a == [] {
      assert a + b == b;
    } else {
      assert (a + b)[0] == a[0] && (a + b)[1..] == a[1..] + b;
      DecodingConcat(a[1..], b);
    }
  }

  /** Replaying a prefix and then applying the rest live is a full replay. */
  lemma PrefixThenLive(v: Views, prefix: seq<Record>, rest: seq<Record>)
    requires Decodes(prefix)
    ensures Project(v, Decoding(prefix + rest)) == Project(Project(v, Decoding(prefix)), Decoding(rest))
  {
    DecodingConcat(prefix, rest);
    ProjectConcat(v, Decoding(prefix), Decoding(rest));
  }

  /** The events that touch the view of payment `id`, in order. */
  function Concerning(es: seq<Event>, id: string): seq<Event> {
    if es == [] then []
    else if TouchesPayment(es[0]) && es[0].paymentId == id then [es[0]] + Concerning(es[1..], id)
    else Concerning(es[1..], id)
  }

  /** The wallet events of `user`, in order. */
  function WalletEvents(es: seq<Event>, user: string): seq<Event> {
    if es == [] then []
    else if TouchesWallet(es[0]) && es[0].userId == user then [es[0]] + WalletEvents(es[1..], user)
    else WalletEvents(es[1..], user)
  }

  /** One payment view folded over events of that payment. */
  function Fold(v: PaymentView, es: seq<Event>): PaymentView
    decreases |es|
  {
    if es == [] then v else Fold(if TouchesPayment(es[0]) then PaymentAfter(v, es[0]) else v, es[1..])
  }

  function Total(es: seq<Event>): int {
    if es == [] then 0 else Delta(es[0]) + Total(es[1..])
  }

  /** A payment view depends only on that payment's own events. */
  lemma {:induction false} PaymentViewIsLocal(v: Views, es: seq<Event>, id: string)
    ensures PaymentAt(Project(v, es), id) == Fold(PaymentAt(v, id), Concerning(es, id))
    ensures id in Project(v, es).payments <==> id in v.payments || Concerning(es, id) != []
    decreases |es|
  {
    if es == [] {
    } else {
      PaymentViewIsLocal(After(v, es[0]), es[1..], id);
      if TouchesPayment(es[0]) && es[0].paymentId == id {
        var mine := Concerning(es, id);
        assert mine[0] == es[0] && mine[1..] == Concerning(es[1..], id);
      } else {
        assert PaymentAt(After(v, es[0]), id) == PaymentAt(v, id);
      }
    }
  }

  /** One event moves the balance of its user. */
  lemma {:induction false} BalanceAfter(v: Views, e: Event, user: string)
    requires IsInt64(WalletAt(v, user).balance)
    ensures var mine := TouchesWallet(e) && e.userId == user;
            && WalletAt(After(v, e), user).balance
                == (if mine then Wrap64(WalletAt(v, user).balance + Delta(e)) else WalletAt(v, user).balance)
            && IsInt64(WalletAt(After(v, e), user).balance)
            && (user in After(v, e).wallets <==> user in v.wallets || mine)
  {
  }

  lemma {:induction false} TotalFirst(e: Event, rest: seq<Event>)
    ensures Total([e] + rest) == Delta(e) + Total(rest)
  {
    assert ([e] + rest)[1..] == rest;
  }

  /** A projected balance is the wrapped sum of that user's wallet events. */
  lemma {:induction false} BalanceIsTheSum(v: Views, es: seq<Event>, user: string)
    requires IsInt64(WalletAt(v, user).balance)
    ensures WalletAt(Project(v, es), user).balance == Wrap64(WalletAt(v, user).balance + Total(WalletEvents(es, user)))
    ensures user in Project(v, es).wallets <==> user in v.wallets || WalletEvents(es, user) != []
    decreases |es|
  {
    if es == [] {
    } else {
      var e, rest := es[0], WalletEvents(es[1..], user);
      BalanceAfter(v, e, user);
      BalanceIsTheSum(After(v, e), es[1..], user);
      if TouchesWallet(e) && e.userId == user {
        TotalFirst(e, rest);
        WrapOnce(WalletAt(v, user).balance + Delta(e), Total(rest));
      }
    }
  }

  /** A wallet view names its user, and was last updated by that user's last wallet event. */
  lemma {:induction false} WalletViewIsOfItsUser(v: Views, es: seq<Event>, user: string)
    requires user in v.wallets ==> v.wallets[user].userId == user
    ensures user in Project(v, es).wallets ==> Project(v, es).wallets[user].userId == user
    ensures var mine := WalletEvents(es, user);
            WalletAt(Project(v, es), user).updatedAt
            == if mine == [] then WalletAt(v, user).updatedAt else mine[|mine| - 1].at
    decreases |es|
  {
    if es == [] {
    } else {
      WalletViewIsOfItsUser(After(v, es[0]), es[1..], user);
    }
  }

  /**
   A replay understands exactly the events that a live projector applies, and reads back just what was
   appended; a malformed payload is an error for those names only.
   */
  lemma ReplayKnowsWhatApplyKnows(e: Event)
    ensures Decode(NameOf(e), Encode(e)) == if TouchesPayment(e) || TouchesWallet(e) then Good(e) else Skipped
    ensures Decode(NameOf(e), Malformed) == if TouchesPayment(e) || TouchesWallet(e) then Bad else Skipped
  {
  }

  /** A replay stops at the first record it cannot read: what follows does not matter. */
  lemma {:induction false} ReplayStopsAtTheFirstBadRecord(good: seq<Record>, bad: Record, rest: seq<Record>)
    requires Decodes(good) && Decode(bad.name, bad.payload) == Bad
    ensures Decoding(good + [bad] + rest) == Decoding(good)
  {
    assert good + [bad] + rest == good + ([bad] + rest);
    DecodingConcat(good, [bad] + rest);
    assert ([bad] + rest)[0] == bad;
  }

  lemma {:induction false} TotalSplit(a: seq<Event>, b: seq<Event>)
    ensures Total(a + b) == Total(a) + Total(b)
  {
    if a == [] {
      assert a + b == b;
    } else {
      assert (a + b)[0] == a[0] && (a + b)[1..] == a[1..] + b;
      TotalSplit(a[1..], b);
    }
  }

  lemma EmptyHasNoElements(a: seq<Event>)
    ensures a == [] <==> multiset(a) == multiset{}
  {
  }

  function Without(b: seq<Event>, k: nat): seq<Event>
    requires k < |b|
  {
    b[..k] + b[k + 1..]
  }

  lemma {:induction false} WithoutOne(b: seq<Event>, k: nat)
    requires k < |b|
    ensures multiset(Without(b, k)) == multiset(b) - multiset{b[k]}
    ensures Total(b) == Delta(b[k]) + Total(Without(b, k))
  {
    assert b == b[..k] + ([b[k]] + b[k + 1..]);
    TotalSplit(b[..k], b[k + 1..]);
    TotalSplit(b[..k], [b[k]] + b[k + 1..]);
    TotalSplit([b[k]], b[k + 1..]);
  }

  /** A sum of deltas does not depend on the order. */
  lemma {:induction false} TotalOfAMultiset(a: seq<Event>, b: seq<Event>)
    requires multiset(a) == multiset(b)
    ensures Total(a) == Total(b) && (a == [] <==> b == [])
    decreases |a|
  {
    EmptyHasNoElements(a);
    EmptyHasNoElements(b);
    if a != [] {
      assert a[0] in multiset(a);
      var k :| 0 <= k < |b| && b[k] == a[0];
      WithoutOne(a, 0);
      WithoutOne(b, k);
      TotalOfAMultiset(Without(a, 0), Without(b, k));
    }
  }

  ghost predicate Typed(v: Views) {
    forall user :: IsInt64(WalletAt(v, user).balance)
  }

  lemma {:induction false} PaymentsFollowPerKeyOrder(v: Views, a: seq<Event>, b: seq<Event>)
    requires forall id :: Concerning(a, id) == Concerning(b, id)
    ensures Project(v, a).payments == Project(v, b).payments
  {
    var pa, pb := Project(v, a).payments, Project(v, b).payments;
    forall id ensures id in pa <==> id in pb
              ensures id in pa ==> pa[id] == pb[id] {
      PaymentViewIsLocal(v, a, id);
      PaymentViewIsLocal(v, b, id);
    }
  }

  lemma {:induction false} BalanceFollowsTheTotal(v: Views, a: seq<Event>, b: seq<Event>, user: string)
    requires IsInt64(WalletAt(v, user).balance)
    requires Total(WalletEvents(a, user)) == Total(WalletEvents(b, user))
             && (WalletEvents(a, user) == [] <==> WalletEvents(b, user) == [])
    ensures WalletAt(Project(v, a), user).balance == WalletAt(Project(v, b), user).balance
    ensures user in Project(v, a).wallets <==> user in Project(v, b).wallets
  {
    BalanceIsTheSum(v, a, user);
    BalanceIsTheSum(v, b, user);
  }

  /**
   Replay depends only on per-payment order: two logs with the same events per payment, in the same
   order, and the same wallet events per user, in any order, give the same payment views and the same
   balances.
   */
  lemma {:induction false} ReplayIgnoresCrossKeyOrder(v: Views, a: seq<Event>, b: seq<Event>)
    requires Typed(v)
    requires forall id :: Concerning(a, id) == Concerning(b, id)
    requires forall user :: multiset(WalletEvents(a, user)) == multiset(WalletEvents(b, user))
    ensures Project(v, a).payments == Project(v, b).payments
    ensures forall user :: user in Project(v, a).wallets <==> user in Project(v, b).wallets
    ensures forall user :: WalletAt(Project(v, a), user).balance == WalletAt(Project(v, b), user).balance
  {
    PaymentsFollowPerKeyOrder(v, a, b);
    forall user ensures user in Project(v, a).wallets <==> user in Project(v, b).wallets
                ensures WalletAt(Project(v, a), user).balance == WalletAt(Project(v, b), user).balance {
      assert IsInt64(WalletAt(v, user).balance);
      TotalOfAMultiset(WalletEvents(a, user), WalletEvents(b, user));
      BalanceFollowsTheTotal(v, a, b, user);
    }
  }

  /**
   What a log writes to one payment view, field by field: the last writer of each field, and, for the
   status, whether some `PaymentCreated` would fill in an empty one.
   */
  datatype LastWrites = LastWrites(paymentId: Option<string>, userId: Option<string>, amount: Option<int>,
                                   service: Option<string>, status: Option<Status>, fillsStatus: bool,
                                   reason: Option<string>, gatewayId: Option<string>, updatedAt: Option<int>)

  const NO_WRITES := LastWrites(None, None, None, None, None, false, None, None, None)

  function LastWritesOf(es: seq<Event>): LastWrites {
    if es == [] then NO_WRITES
    else
      var w := LastWritesOf(es[..|es| - 1]);
      var e := es[|es| - 1];
      if !TouchesPayment(e) then w
      else
        var x := w.(paymentId := Some(e.paymentId), userId := Some(e.userId), updatedAt := Some(e.at));
        match e
        case PaymentCreated(_, _, a, s, _) => x.(amount := Some(a), service := Some(s), fillsStatus := true)
        case PaymentInitialized(_, _, a, s, _) => x.(amount := Some(a), service := Some(s), status := Some(Initialized))
        case PaymentPending(_, _, _) => x.(status := Some(Pending))
        case PaymentRejected(_, _, r, _) => x.(status := Some(Rejected), reason := Some(r))
        case PaymentSucceeded(_, _, g, _) => x.(status := Some(Succeeded), gatewayId := Some(g))
        case PaymentFailed(_, _, r, _) => x.(status := Some(Failed), reason := Some(r))
        case _ => x
  }

  function Overwrite(v: PaymentView, w: LastWrites): PaymentView {
    PaymentView(w.paymentId.GetOr(v.paymentId), w.userId.GetOr(v.userId), w.amount.GetOr(v.amount),
                w.service.GetOr(v.service),
                w.status.GetOr(if w.fillsStatus && v.status == NoStatus then Initialized else v.status),
                w.reason.GetOr(v.reason), w.gatewayId.GetOr(v.gatewayId), w.updatedAt.GetOr(v.updatedAt))
  }

  lemma {:induction false} FoldLast(v: PaymentView, es: seq<Event>, e: Event)
    ensures Fold(v, es + [e]) == if TouchesPayment(e) then PaymentAfter(Fold(v, es), e) else Fold(v, es)
    decreases |es|
  {
    if es == [] {
      assert es + [e] == [e];
    } else {
      assert (es + [e])[0] == es[0] && (es + [e])[1..] == es[1..] + [e];
      FoldLast(if TouchesPayment(es[0]) then PaymentAfter(v, es[0]) else v, es[1..], e);
    }
  }

  /** No recorded status is empty. */
  lemma {:induction false} WrittenStatusIsReal(es: seq<Event>)
    ensures LastWritesOf(es).status != Some(NoStatus)
    decreases |es|
  {
    if es == [] {
    } else {
      WrittenStatusIsReal(es[..|es| - 1]);
    }
  }

  /** Folding a log is writing, field by field, its last writer. */
  lemma {:induction false} FoldIsLastWriterPerField(v: PaymentView, es: seq<Event>)
    ensures Fold(v, es) == Overwrite(v, LastWritesOf(es))
    decreases |es|
  {
    if es == [] {
    } else {
      var n := |es| - 1;
      assert es == es[..n] + [es[n]];
      FoldIsLastWriterPerField(v, es[..n]);
      FoldLast(v, es[..n], es[n]);
      WrittenStatusIsReal(es[..n]);
    }
  }

  /** Applying a whole log a second time changes no payment view. */
  lemma {:induction false} ReplayTwiceIsReplayOnce(v: Views, es: seq<Event>)
    ensures Project(Project(v, es), es).payments == Project(v, es).payments
  {
    var once := Project(v, es);
    var twice := Project(once, es);
    forall id ensures id in once.payments <==> id in twice.payments
              ensures PaymentAt(once, id) == PaymentAt(twice, id) {
      PaymentViewIsLocal(v, es, id);
      PaymentViewIsLocal(once, es, id);
      FoldIsLastWriterPerField(PaymentAt(v, id), Concerning(es, id));
      FoldIsLastWriterPerField(PaymentAt(once, id), Concerning(es, id));
    }
    forall id | id in once.payments ensures twice.payments[id] == once.payments[id] {
      assert PaymentAt(once, id) == PaymentAt(twice, id);
    }
    assert twice.payments == once.payments;
  }
}
