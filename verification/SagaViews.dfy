/**
 The read model while the system runs: what the projector shows, plus what is still queued for it, is
 what the repositories hold; and a replay of the store rebuilds the payment repository at every point.
 */
module SagaViews {
  import opened Common
  import opened Events
  import opened Payments
  import opened ReadModels
  import opened Broker
  import opened Saga
  import opened SagaQueues
  import opened SagaFlow
  import SagaMoney
  import W = Wallets

  /** What the event adds to the projected balance of `user`. */
  function Share(e: Event, user: string): int {
    if TouchesWallet(e) && e.userId == user then Delta(e) else 0
  }

  function PendingOf(d: Delivery, user: string): int {
    if d.handler.ProjectorSink? then Share(d.event, user) else 0
  }

  /** The signed sum of `user`'s wallet events queued for the projector. */
  function PendingIn(q: seq<Delivery>, user: string): int {
    if q == [] then 0 else PendingOf(q[0], user) + PendingIn(q[1..], user)
  }

  function Pending(queues: seq<seq<Delivery>>, user: string): int {
    if queues == [] then 0 else PendingIn(queues[0], user) + Pending(queues[1..], user)
  }

  function Shares(es: seq<Event>, user: string): int {
    if es == [] then 0 else Share(es[0], user) + Shares(es[1..], user)
  }

  lemma {:induction false} PendingConcat(a: seq<Delivery>, b: seq<Delivery>, user: string)
    ensures PendingIn(a + b, user) == PendingIn(a, user) + PendingIn(b, user)
  {
    if a == [] {
      assert a + b == b;
    } else {
      assert (a + b)[0] == a[0] && (a + b)[1..] == a[1..] + b;
      PendingConcat(a[1..], b, user);
    }
  }

  lemma {:induction false} PendingUpdate(queues: seq<seq<Delivery>>, i: nat, q: seq<Delivery>, user: string)
    requires i < |queues|
    ensures Pending(queues[i := q], user) == Pending(queues, user) - PendingIn(queues[i], user) + PendingIn(q, user)
  {
    var updated := queues[i := q];
    if i == 0 {
      assert updated[1..] == queues[1..];
    } else {
      assert updated[1..] == queues[1..][i - 1 := q];
      PendingUpdate(queues[1..], i - 1, q, user);
    }
  }

  lemma {:induction false} PendingNone(e: Event, hs: seq<Handler>, user: string)
    requires Share(e, user) == 0 || forall i :: 0 <= i < |hs| ==> hs[i] != ProjectorSink
    ensures PendingIn(To(e, hs), user) == 0
  {
    if hs == [] {
    } else {
      PendingNone(e, hs[1..], user);
    }
  }

  lemma {:induction false} PendingOne(e: Event, hs: seq<Handler>, p: nat, user: string)
    requires p < |hs| && forall i :: 0 <= i < |hs| ==> (hs[i] == ProjectorSink <==> i == p)
    ensures PendingIn(To(e, hs), user) == Share(e, user)
  {
    if p == 0 {
      PendingNone(e, hs[1..], user);
    } else {
      PendingOne(e, hs[1..], p - 1, user);
    }
  }

  /** Where the projector stands among the subscribers of a wallet event. */
  lemma {:induction false} WalletProjectorPlace(e: Event) returns (p: nat)
    requires TouchesWallet(e)
    ensures p < |Subscribers(NameOf(e))| && forall i :: 0 <= i < |Subscribers(NameOf(e))| ==>
              (Subscribers(NameOf(e))[i] == ProjectorSink <==> i == p)
  {
    p := if e.WalletCredited? then 0 else if e.WalletDebited? then 2 else 1;
  }

  /** Each wallet event reaches the projector exactly once. */
  lemma {:induction false} PendingDeliveries(e: Event, user: string)
    ensures PendingIn(Deliveries(e), user) == Share(e, user)
  {
    if TouchesWallet(e) {
      var p := WalletProjectorPlace(e);
      PendingOne(e, Subscribers(NameOf(e)), p, user);
    } else {
      PendingNone(e, Subscribers(NameOf(e)), user);
    }
  }

  lemma {:induction false} PublishPends(c: Config, queues: seq<seq<Delivery>>, e: Event, user: string)
    requires ValidConfig(c) && |queues| == c.shards
    ensures Pending(Publish(c, queues, e), user) == Pending(queues, user) + Share(e, user)
  {
    var i := Shard(c, BusKey(e));
    PendingDeliveries(e, user);
    PendingConcat(queues[i], Deliveries(e), user);
    PendingUpdate(queues, i, queues[i] + Deliveries(e), user);
  }

  lemma {:induction false} PublishAllPends(c: Config, queues: seq<seq<Delivery>>, es: seq<Event>, user: string)
    requires ValidConfig(c) && |queues| == c.shards
    ensures Pending(PublishAll(c, queues, es), user) == Pending(queues, user) + Shares(es, user)
    decreases |es|
  {
    if es == [] {
    } else {
      PublishPends(c, queues, es[0], user);
      PublishAllPends(c, Publish(c, queues, es[0]), es[1..], user);
    }
  }

  lemma {:induction false} TakingUnpends(queues: seq<seq<Delivery>>, i: nat, user: string)
    requires i < |queues| && queues[i] != []
    ensures Pending(Taken(queues, i), user) == Pending(queues, user) - PendingOf(queues[i][0], user)
  {
    PendingUpdate(queues, i, queues[i][1..], user);
  }

  lemma {:induction false} NoShares(es: seq<Event>, user: string)
    requires forall k :: 0 <= k < |es| ==> !TouchesWallet(es[k])
    ensures Shares(es, user) == 0
    decreases |es|
  {
    if es == [] {
    } else {
      NoShares(es[1..], user);
    }
  }

  /** Repository balance minus initial balance is projected balance plus what is undelivered, in int64 arithmetic. */
  ghost predicate TracksFor(initial: map<string, int>, w: World, queues: seq<seq<Delivery>>, user: string) {
    BalanceOf(w.wallets, user)
        == Wrap64(BalanceOf(initial, user) + (WalletAt(w.views, user).balance + Pending(queues, user)))
  }

  ghost predicate Tracks(initial: map<string, int>, s: State) {
    forall user :: TracksFor(initial, s.world, s.queues, user)
  }

  ghost predicate AllTyped(s: State) {
    W.AllInt64(s.world.wallets) && Typed(s.world.views)
  }

  /** A balance that moves by what is published, with nothing delivered, keeps tracking; otherwise it stops. */
  lemma {:induction false} TrackingShifts(initial: map<string, int>, w: World, queues: seq<seq<Delivery>>, u: World,
                                          more: seq<seq<Delivery>>, user: string, change: int)
    requires TracksFor(initial, w, queues, user) && WalletAt(u.views, user) == WalletAt(w.views, user)
    requires Pending(more, user) == Pending(queues, user) + change
    ensures TracksFor(initial, u, more, user) <==>
              BalanceOf(u.wallets, user) == Wrap64(BalanceOf(w.wallets, user) + change)
  {
    WrapOnce(BalanceOf(initial, user) + (WalletAt(w.views, user).balance + Pending(queues, user)), change);
  }

  /** The projector takes what it is delivered. */
  lemma {:induction false} ProjectionTracks(initial: map<string, int>, w: World, queues: seq<seq<Delivery>>, u: World,
                                            fewer: seq<seq<Delivery>>, e: Event, user: string)
    requires TracksFor(initial, w, queues, user) && Typed(w.views) && u == w.(views := After(w.views, e))
    requires Pending(fewer, user) == Pending(queues, user) - Share(e, user)
    ensures TracksFor(initial, u, fewer, user)
  {
    assert IsInt64(WalletAt(w.views, user).balance);
    var rest := BalanceOf(initial, user) + Pending(fewer, user);
    WrapOnce(WalletAt(w.views, user).balance + Share(e, user), rest);
  }

  lemma {:induction false} SinkTracks(c: Config, initial: map<string, int>, s: State, i: nat, t: State)
    requires Tracks(initial, s) && AllTyped(s)
    requires i < |s.queues| && s.queues[i] != [] && Sunk(s, i, t)
    ensures Tracks(initial, t) && AllTyped(t)
  {
    var d := s.queues[i][0];
    forall user ensures TracksFor(initial, t.world, t.queues, user) && IsInt64(WalletAt(t.world.views, user).balance) {
      TakingUnpends(s.queues, i, user);
      assert TracksFor(initial, s.world, s.queues, user);
      assert IsInt64(WalletAt(s.world.views, user).balance);
      if d.handler == ProjectorSink {
        ProjectionTracks(initial, s.world, s.queues, t.world, t.queues, d.event, user);
      }
    }
  }

  /** One wallet operation on `owner` and the event it publishes, or not. */
  lemma {:induction false} OperationTracks(initial: map<string, int>, w: World, queues: seq<seq<Delivery>>, u: World,
                                           more: seq<seq<Delivery>>,
                                          owner: string, change: int, torn: bool)
    requires forall user :: TracksFor(initial, w, queues, user)
    requires u.views == w.views && W.AllInt64(w.wallets)
    requires forall user :: Pending(more, user) == Pending(queues, user) + if user == owner && !torn then change else 0
    requires u.wallets == w.wallets[owner := Wrap64(BalanceOf(w.wallets, owner) + change)]
    requires torn ==> Wrap64(BalanceOf(w.wallets, owner) + change) != BalanceOf(w.wallets, owner)
    ensures (forall user :: TracksFor(initial, u, more, user)) <==> !torn
    ensures W.AllInt64(u.wallets)
  {
    forall user ensures TracksFor(initial, u, more, user) <==> !(torn && user == owner)
                ensures IsInt64(BalanceOf(u.wallets, user)) {
      assert IsInt64(BalanceOf(w.wallets, user));
      assert TracksFor(initial, w, queues, user);
      TrackingShifts(initial, w, queues, u, more, user, if user == owner && !torn then change else 0);
    }
    if torn {
      assert !TracksFor(initial, u, more, owner);
    }
  }

  lemma {:induction false} SilentTracks(initial: map<string, int>, w: World, queues: seq<seq<Delivery>>, u: World,
                                        more: seq<seq<Delivery>>)
    requires forall user :: TracksFor(initial, w, queues, user)
    requires u.views == w.views && u.wallets == w.wallets && forall user :: Pending(more, user) == Pending(queues, user)
    ensures forall user :: TracksFor(initial, u, more, user)
  {
    forall user ensures TracksFor(initial, u, more, user) {
      assert TracksFor(initial, w, queues, user);
    }
  }

  /** The state after one delivery, in the terms of the tracking lemmas. */
  lemma {:induction false} DeliveryPends(c: Config, s: State, i: nat, o: Oracle, user: string)
    requires ValidConfig(c) && |s.queues| == c.shards && i < |s.queues| && s.queues[i] != []
             && IsWork(s.queues[i][0].handler)
    ensures var d, t := s.queues[i][0], DeliverStep(c, s, i, o);
            var reply := Handle(d.handler, d.event, s.world, o);
            t.world == reply.world && Pending(t.queues, user) == Pending(s.queues, user) + Shares(reply.published, user)
  {
    var d := s.queues[i][0];
    var reply := Handle(d.handler, d.event, s.world, o);
    PublishAllPends(c, if reply.done then Taken(s.queues, i) else s.queues, reply.published, user);
    TakingUnpends(s.queues, i, user);
  }

  /** A wallet operation of `owner`: whether the balance was written, and whether the event was published. */
  datatype Move = Move(owner: string, change: int, wrote: bool, told: bool)

  function Moved(m: map<string, int>, v: Move): map<string, int> {
    if v.wrote then m[v.owner := Wrap64(BalanceOf(m, v.owner) + v.change)] else m
  }

  function Told(v: Move, user: string): int {
    if user == v.owner && v.told then v.change else 0
  }

  predicate RealMove(v: Move) {
    (v.told ==> v.wrote) && v.change != 0 && -MAX_INT64 <= v.change <= MAX_INT64
  }

  ghost predicate ReplyMoves(w: World, reply: Reply, v: Move) {
    reply.world.views == w.views && reply.world.wallets == Moved(w.wallets, v)
        && forall user :: Shares(reply.published, user) == Told(v, user)
  }

  ghost predicate StateMoves(s: State, t: State, v: Move) {
    && t.world.views == s.world.views && t.world.wallets == Moved(s.world.wallets, v)
    && forall user :: Pending(t.queues, user) == Pending(s.queues, user) + Told(v, user)
  }

  /** Tracking survives a move exactly when what was written was told. */
  lemma {:induction false} MoveTracks(initial: map<string, int>, s: State, t: State, v: Move)
    requires Tracks(initial, s) && AllTyped(s) && StateMoves(s, t, v) && RealMove(v)
    ensures AllTyped(t) && (Tracks(initial, t) <==> (v.wrote ==> v.told))
  {
    if v.wrote {
      var balance := BalanceOf(s.world.wallets, v.owner);
      assert IsInt64(balance);
      if v.change > 0 { WrapMoves(balance, v.change); } else { WrapMoves(balance, -v.change); }
      OperationTracks(initial, s.world, s.queues, t.world, t.queues, v.owner, v.change, !v.told);
    } else {
      SilentTracks(initial, s.world, s.queues, t.world, t.queues);
    }
  }

  lemma {:induction false} DeliveryMoves(c: Config, s: State, i: nat, o: Oracle, v: Move)
    requires ValidConfig(c) && |s.queues| == c.shards && i < |s.queues| && s.queues[i] != []
             && IsWork(s.queues[i][0].handler)
    requires ReplyMoves(s.world, Handle(s.queues[i][0].handler, s.queues[i][0].event, s.world, o), v)
    ensures StateMoves(s, DeliverStep(c, s, i, o), v)
  {
    var t := DeliverStep(c, s, i, o);
    forall user ensures Pending(t.queues, user) == Pending(s.queues, user) + Told(v, user) {
      DeliveryPends(c, s, i, o, user);
    }
    DeliveryPends(c, s, i, o, "");
  }

  function DebitMove(e: Event, w: World, o: Oracle): Move
    requires e.WalletDebitRequested?
  {
    var pays := W.DebitOutcome(w.wallets, e.userId, e.amount, W.Done).Ok?;
    Move(e.userId, -e.amount, pays && !o.write.FailedBefore?, pays && o.write.Done?)
  }

  lemma {:induction false} DebitReply(e: Event, w: World, o: Oracle)
    requires e.WalletDebitRequested? && W.ValidMove(e.userId, e.amount) && W.AllInt64(w.wallets)
    ensures ReplyMoves(w, HandleDebit(e, w, o), DebitMove(e, w, o))
  {
  }

  lemma {:induction false} DebitTracks(c: Config, initial: map<string, int>, s: State, i: nat, o: Oracle)
    requires Inv(c, s) && Tracks(initial, s) && AllTyped(s)
    requires i < |s.queues| && s.queues[i] != [] && s.queues[i][0].handler == OnDebit
    ensures var t := DeliverStep(c, s, i, o);
            AllTyped(t) && (Tracks(initial, t) <==> !SagaMoney.Torn(s, Deliver(i, o)))
  {
    HeadIsTheWork(c, s, i);
    var e := s.queues[i][0].event;
    var v := DebitMove(e, s.world, o);
    DebitReply(e, s.world, o);
    DeliveryMoves(c, s, i, o, v);
    MoveTracks(initial, s, DeliverStep(c, s, i, o), v);
  }

  function RefundMove(e: Event, o: Oracle): Move
    requires e.WalletRefundRequested?
  {
    Move(e.userId, e.amount, !o.write.FailedBefore?, o.write.Done?)
  }

  lemma {:induction false} RefundReply(e: Event, w: World, o: Oracle)
    requires e.WalletRefundRequested? && W.ValidMove(e.userId, e.amount)
    ensures ReplyMoves(w, HandleRefund(e, w, o), RefundMove(e, o))
  {
  }

  lemma {:induction false} RefundTracks(c: Config, initial: map<string, int>, s: State, i: nat, o: Oracle)
    requires Inv(c, s) && Tracks(initial, s) && AllTyped(s)
    requires i < |s.queues| && s.queues[i] != [] && s.queues[i][0].handler == OnRefund
    ensures var t := DeliverStep(c, s, i, o);
            AllTyped(t) && (Tracks(initial, t) <==> !SagaMoney.Torn(s, Deliver(i, o)))
  {
    HeadIsTheWork(c, s, i);
    var e := s.queues[i][0].event;
    var v := RefundMove(e, o);
    RefundReply(e, s.world, o);
    DeliveryMoves(c, s, i, o, v);
    MoveTracks(initial, s, DeliverStep(c, s, i, o), v);
  }

  function CreditMove(user: string, amount: int, write: W.Write): Move {
    Move(user, amount, !write.FailedBefore?, write.Done?)
  }

  lemma {:induction false} CreditMoves(c: Config, s: State, user: string, amount: int, write: W.Write, now: int)
    requires ValidConfig(c) && |s.queues| == c.shards && W.ValidMove(user, amount)
    ensures StateMoves(s, CreditStep(c, s, user, amount, write, now), CreditMove(user, amount, write))
  {
    var t := CreditStep(c, s, user, amount, write, now);
    forall x ensures Pending(t.queues, x) == Pending(s.queues, x) + Told(CreditMove(user, amount, write), x) {
      PublishPends(c, s.queues, WalletCredited(user, amount, now), x);
    }
  }

  lemma {:induction false} CreditTracks(c: Config, initial: map<string, int>, s: State, user: string, amount: int,
                                        write: W.Write, now: int)
    requires ValidConfig(c) && |s.queues| == c.shards && Tracks(initial, s) && AllTyped(s) && IsInt64(amount)
    ensures var t := CreditStep(c, s, user, amount, write, now);
            AllTyped(t) && (Tracks(initial, t) <==> !SagaMoney.Torn(s, Credit(user, amount, write, now)))
  {
    var t := CreditStep(c, s, user, amount, write, now);
    if W.ValidMove(user, amount) {
      CreditMoves(c, s, user, amount, write, now);
      MoveTracks(initial, s, t, CreditMove(user, amount, write));
    } else {
      SilentTracks(initial, s.world, s.queues, t.world, t.queues);
    }
  }

  lemma {:induction false} OtherWorkTracks(c: Config, initial: map<string, int>, s: State, i: nat, o: Oracle)
    requires Tracks(initial, s) && AllTyped(s) && ValidConfig(c) && |s.queues| == c.shards
    requires i < |s.queues| && s.queues[i] != [] && IsWork(s.queues[i][0].handler)
    requires s.queues[i][0].handler != OnDebit && s.queues[i][0].handler != OnRefund
    ensures var t := DeliverStep(c, s, i, o);
            AllTyped(t) && Tracks(initial, t) && !SagaMoney.Torn(s, Deliver(i, o))
  {
    var d, t := s.queues[i][0], DeliverStep(c, s, i, o);
    SagaMoney.OnlyTwoHandlersMoveMoney(d.handler, d.event, s.world, o);
    var published := Handle(d.handler, d.event, s.world, o).published;
    assert forall k :: 0 <= k < |published| ==> !SagaMoney.MovesMoney(published[k]) && !published[k].WalletCredited?;
    forall user ensures Pending(t.queues, user) == Pending(s.queues, user) {
      DeliveryPends(c, s, i, o, user);
      NoShares(published, user);
    }
    DeliveryPends(c, s, i, o, "");
    WorkKeepsViews(d, s.world, o);
    SilentTracks(initial, s.world, s.queues, t.world, t.queues);
  }

  lemma {:induction false} WorkKeepsViews(d: Delivery, w: World, o: Oracle)
    requires IsWork(d.handler)
    ensures Handle(d.handler, d.event, w, o).world.views == w.views
  {
  }

  lemma {:induction false} CreateTracks(c: Config, initial: map<string, int>, s: State, r: CreateRequest, now: int)
    requires Tracks(initial, s) && AllTyped(s) && ValidConfig(c) && |s.queues| == c.shards
    ensures Tracks(initial, CreateStep(c, s, r, now)) && AllTyped(CreateStep(c, s, r, now))
  {
    var t := CreateStep(c, s, r, now);
    if ValidRequest(r) {
      forall user ensures Pending(t.queues, user) == Pending(s.queues, user) {
        PublishAllPends(c, s.queues, CreateEvents(r, now), user);
        NoShares(CreateEvents(r, now), user);
      }
      SilentTracks(initial, s.world, s.queues, t.world, t.queues);
    }
  }

  lemma {:induction false} StepTracks(c: Config, initial: map<string, int>, s: State, t: Step)
    requires Inv(c, s) && Tracks(initial, s) && AllTyped(s) && Enabled(c, s, t) && FreshStep(s, t)
    ensures AllTyped(Next(c, s, t)) && (Tracks(initial, Next(c, s, t)) <==> !SagaMoney.Torn(s, t))
  {
    match t
    case Create(r, now) => CreateTracks(c, initial, s, r, now);
    case Credit(u, a, w, now) => CreditTracks(c, initial, s, u, a, w, now);
    case Deliver(i, o) =>
      var d := s.queues[i][0];
      assert Placed(c, s.world.payments, i, d);
      if d.handler == OnDebit { DebitTracks(c, initial, s, i, o); }
      else if d.handler == OnRefund { RefundTracks(c, initial, s, i, o); }
      else if IsWork(d.handler) { OtherWorkTracks(c, initial, s, i, o); }
      else {
        SinkDelivered(c, s, i, o);
        SinkTracks(c, initial, s, i, DeliverStep(c, s, i, o));
      }
  }

  ghost predicate TracksThroughout(c: Config, initial: map<string, int>, s: State, steps: seq<Step>, t: State)
    requires Run(c, s, steps, t)
    decreases |steps|
  {
    Tracks(initial, s) && (steps == [] || TracksThroughout(c, initial, Next(c, s, steps[0]), steps[1..], t))
  }

  lemma {:induction false} TracksFrom(c: Config, initial: map<string, int>, s: State, steps: seq<Step>, t: State)
    requires Inv(c, s) && Tracks(initial, s) && AllTyped(s) && Run(c, s, steps, t)
    ensures TracksThroughout(c, initial, s, steps, t) <==> SagaMoney.Untorn(c, s, steps, t)
    decreases |steps|
  {
    if steps == [] {
    } else {
      var u := Next(c, s, steps[0]);
      StepTracks(c, initial, s, steps[0]);
      StepKeepsInv(c, s, steps[0]);
      if Tracks(initial, u) {
        TracksFrom(c, initial, u, steps[1..], t);
      } else {
        assert !TracksThroughout(c, initial, u, steps[1..], t);
      }
    }
  }

  lemma {:induction false} NothingPending(queues: seq<seq<Delivery>>, user: string)
    requires forall j :: 0 <= j < |queues| ==> queues[j] == []
    ensures Pending(queues, user) == 0
  {
    if queues == [] {
    } else {
      NothingPending(queues[1..], user);
    }
  }

  /**
   Starting with an empty projector: at every point of a run, and not only at rest, each user's balance
   is the initial balance plus the projected balance plus the signed sum of that user's wallet events
   still queued for the projector, if and only if no wallet write fails after changing the balance.
   */
  lemma {:induction false} ReadModelTracksWalletsIffNoWriteIsTorn(c: Config, initial: map<string, int>,
                                                                  steps: seq<Step>, t: State)
    requires Run(c, Start(c, initial), steps, t) && W.AllInt64(initial)
    ensures TracksThroughout(c, initial, Start(c, initial), steps, t) <==>
              SagaMoney.Untorn(c, Start(c, initial), steps, t)
  {
    var s := Start(c, initial);
    StartInv(c, initial);
    forall user ensures TracksFor(initial, s.world, s.queues, user) {
      NothingPending(s.queues, user);
      assert IsInt64(BalanceOf(initial, user));
    }
    TracksFrom(c, initial, s, steps, t);
  }
}
