/** The streams of the store while the system runs: the stream of a payment alone rebuilds that payment. */
module SagaStreams {
  import opened Events
  import opened EventStore
  import opened Payments
  import opened ReadModels
  import opened EventSourcing
  import opened Saga
  import opened SagaQueues
  import opened SagaFlow
  import opened SagaReplay

  /** A record of a payment event is filed under that payment. */
  predicate Filed(r: Record) {
    match Decode(r.name, r.payload)
    case Good(e) => TouchesPayment(e) ==> r.aggregateId == e.paymentId
    case _ => true
  }

  predicate AllFiled(log: seq<Record>) {
    forall k :: 0 <= k < |log| ==> Filed(log[k])
  }

  lemma {:induction false} RecordsAreFiled(id: string, es: seq<Event>, now: int)
    requires forall k :: 0 <= k < |es| && TouchesPayment(es[k]) ==> es[k].paymentId == id
    ensures AllFiled(RecordsOf(id, es, now))
    decreases |es|
  {
    if es == [] {
    } else {
      RecordsAreFiled(id, es[1..], now);
      DecodeEncode(es[0]);
    }
  }

  lemma {:induction false} CallsFile(log: seq<Record>, t: Table, call: Call, now: int)
    requires AllFiled(log)
    ensures AllFiled(LogAfter(log, t, call, now))
  {
    RecordsAreFiled(Subject(call), EventsOf(t, call, now), now);
  }

  lemma {:induction false} StepFiles(c: Config, s: State, t: Step)
    requires Inv(c, s) && AllFiled(s.world.log) && Enabled(c, s, t)
    ensures AllFiled(Next(c, s, t).world.log)
  {
    match t
    case Create(r, now) => CallsFile(s.world.log, s.world.payments, Payments.Create(r), now);
    case Credit(u, a, w, now) => DecodeEncode(WalletCredited(u, a, now));
    case Deliver(i, o) =>
      var d := s.queues[i][0];
      assert Placed(c, s.world.payments, i, d);
      if IsWork(d.handler) {
        WorkDoes(d, s.world, o);
        if CallOf(d).Some? {
          CallsFile(s.world.log, s.world.payments, CallOf(d).value, o.now);
        }
      } else {
        SinkDelivered(c, s, i, o);
      }
  }

  lemma {:induction false} RunFiles(c: Config, s: State, steps: seq<Step>, t: State)
    requires Inv(c, s) && AllFiled(s.world.log) && Run(c, s, steps, t)
    ensures AllFiled(t.world.log)
    decreases |steps|
  {
    if steps == [] {
    } else {
      StepFiles(c, s, steps[0]);
      StepKeepsInv(c, s, steps[0]);
      RunFiles(c, Next(c, s, steps[0]), steps[1..], t);
    }
  }

  lemma {:induction false} ConcerningConcat(a: seq<Event>, b: seq<Event>, id: string)
    ensures Concerning(a + b, id) == Concerning(a, id) + Concerning(b, id)
  {
    if a == [] {
      assert a + b == b;
    } else {
      assert (a + b)[0] == a[0] && (a + b)[1..] == a[1..] + b;
      ConcerningConcat(a[1..], b, id);
    }
  }

  /** What one record adds to the events of a payment. */
  lemma {:induction false} OneRecord(r: Record, id: string)
    requires Filed(r) && Decode(r.name, r.payload) != Bad && r.aggregateId != id
    ensures Concerning(Decoding([r]), id) == []
  {
    if Decode(r.name, r.payload).Good? {
      var e := Decode(r.name, r.payload).event;
      assert Decoding([r]) == [e] && [e][1..] == [];
    }
  }

  lemma {:induction false} ConcerningLast(log: seq<Record>, r: Record, id: string)
    requires Decodes(log)
    ensures Concerning(Decoding(log + [r]), id) == Concerning(Decoding(log), id) + Concerning(Decoding([r]), id)
  {
    DecodingConcat(log, [r]);
    ConcerningConcat(Decoding(log), Decoding([r]), id);
  }

  /** The stream of a payment holds all of that payment's events, in order. */
  lemma {:induction false} StreamConcerns(log: seq<Record>, id: string)
    requires AllFiled(log) && Decodes(log)
    ensures Decodes(Stream(log, id))
    ensures Concerning(Decoding(Stream(log, id)), id) == Concerning(Decoding(log), id)
    decreases |log|
  {
    if log == [] {
    } else {
      var n, r := |log| - 1, log[|log| - 1];
      assert log == log[..n] + [r];
      StreamConcerns(log[..n], id);
      ConcerningLast(log[..n], r, id);
      if r.aggregateId == id {
        ConcerningLast(Stream(log[..n], id), r, id);
        assert Stream(log, id) == Stream(log[..n], id) + [r];
      } else {
        OneRecord(r, id);
        assert Stream(log, id) == Stream(log[..n], id);
        assert Concerning(Decoding(log[..n]), id) + [] == Concerning(Decoding(log[..n]), id);
      }
    }
  }

  /**
   In every reachable state the records filed under a payment, replayed alone, rebuild that payment as the
   repository has it.
   */
  lemma {:induction false} StreamRebuildsItsPayment(c: Config, wallets: map<string, int>, steps: seq<Step>, t: State,
                                                    id: string)
    requires Run(c, Start(c, wallets), steps, t) && id in t.world.payments
    ensures Shows(PaymentAt(Project(NO_VIEWS, Decoding(Stream(t.world.log, id))), id), t.world.payments[id])
  {
    StartInv(c, wallets);
    StartFaithful(c, wallets);
    RunFaithful(c, Start(c, wallets), steps, t);
    RunFiles(c, Start(c, wallets), steps, t);
    StreamConcerns(t.world.log, id);
    PaymentViewIsLocal(NO_VIEWS, Decoding(t.world.log), id);
    PaymentViewIsLocal(NO_VIEWS, Decoding(Stream(t.world.log, id)), id);
    assert Shows(PaymentAt(Project(NO_VIEWS, Decoding(t.world.log)), id), t.world.payments[id]);
  }
}
