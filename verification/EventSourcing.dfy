/** The event store against the payment repository: what a replay of the log rebuilds. */
module EventSourcing {
  import opened Common
  import opened Events
  import opened EventStore
  import opened Payments
  import opened ReadModels

  /** The view shows exactly the stored payment; `updatedAt` has no counterpart in the table. */
  predicate Shows(v: PaymentView, p: Payment) {
    v.paymentId == p.id && v.userId == p.userId && v.amount == p.amount && v.service == p.service &&
    v.status == p.status && v.reason == p.reason && v.gatewayId == p.gatewayId
  }

  ghost predicate Mirrors(v: Views, t: Table) {
    && (forall id :: id in v.payments <==> id in t)
    && (forall id :: id in t ==> Shows(v.payments[id], t[id]))
  }

  /** Replaying the log from scratch shows the table. */
  ghost predicate Agrees(t: Table, log: seq<Record>) {
    Mirrors(Project(NO_VIEWS, Decoding(log)), t)
  }

  predicate Keyed(t: Table) {
    forall id :: id in t ==> t[id].id == id && t[id].status != NoStatus
  }

  predicate AllProjected(es: seq<Event>) {
    forall i :: 0 <= i < |es| ==> Projected(NameOf(es[i]))
  }

  lemma {:induction false} RecordsDecode(aggregateId: string, es: seq<Event>, now: int)
    requires AllProjected(es)
    ensures Decodes(RecordsOf(aggregateId, es, now)) && Decoding(RecordsOf(aggregateId, es, now)) == es
    decreases |es|
  {
    if es == [] {
    } else {
      RecordsDecode(aggregateId, es[1..], now);
      DecodeEncode(es[0]);
    }
  }

  /** Appending the records of some events and replaying is replaying and then applying the events live. */
  lemma {:induction false} AppendThenReplay(log: seq<Record>, aggregateId: string, es: seq<Event>, now: int)
    requires Decodes(log) && AllProjected(es)
    ensures Decodes(log + RecordsOf(aggregateId, es, now))
    ensures Project(NO_VIEWS, Decoding(log + RecordsOf(aggregateId, es, now)))
            == Project(Project(NO_VIEWS, Decoding(log)), es)
  {
    RecordsDecode(aggregateId, es, now);
    DecodingConcat(log, RecordsOf(aggregateId, es, now));
    ProjectConcat(NO_VIEWS, Decoding(log), es);
  }

  /** The call is not a `Create` over a payment that already has a reason or a gateway id. */
  predicate StartsBlank(t: Table, c: Call) {
    c.Create? && ValidRequest(c.request) && c.request.paymentId in t ==>
      t[c.request.paymentId].reason == "" && t[c.request.paymentId].gatewayId == ""
  }

  lemma {:induction false} EventsOfAreProjected(t: Table, c: Call, now: int)
    ensures AllProjected(EventsOf(t, c, now))
  {
  }

  /** Changing one row and its view keeps the rest. */
  lemma {:induction false} MirrorsAt(v: Views, t: Table, id: string, w: Views, u: Table)
    requires Mirrors(v, t) && id in u && id in w.payments
    requires u == t[id := u[id]] && w.payments == v.payments[id := w.payments[id]]
    ensures Mirrors(w, u) <==> Shows(w.payments[id], u[id])
  {
  }

  lemma {:induction false} CreateMirrors(v: Views, t: Table, r: CreateRequest, now: int)
    requires Mirrors(v, t) && Keyed(t) && ValidRequest(r)
    ensures Mirrors(Project(v, CreateEvents(r, now)), TableAfter(t, Create(r))) <==> StartsBlank(t, Create(r))
  {
    var es, id := CreateEvents(r, now), r.paymentId;
    var w := After(After(v, es[0]), es[1]);
    assert es == [es[0], es[1]] && es[1..] == [es[1]];
    assert Project(After(v, es[0]), [es[1]]) == w;
    MirrorsAt(v, t, id, w, TableAfter(t, Create(r)));
  }

  lemma {:induction false} MarkMirrors(v: Views, t: Table, c: Call, now: int)
    requires Mirrors(v, t) && Keyed(t) && !c.Create? && c.id in t
    ensures Mirrors(Project(v, EventsOf(t, c, now)), TableAfter(t, c))
  {
    var e := MarkEvent(t[c.id], c, now);
    assert Project(v, [e]) == After(v, e);
    MirrorsAt(v, t, c.id, After(v, e), TableAfter(t, c));
  }

  /** One call keeps the views equal to the table exactly when it starts blank. */
  lemma {:induction false} CallMirrors(v: Views, t: Table, c: Call, now: int)
    requires Mirrors(v, t) && Keyed(t)
    ensures Keyed(TableAfter(t, c))
    ensures Mirrors(Project(v, EventsOf(t, c, now)), TableAfter(t, c)) <==> StartsBlank(t, c)
  {
    if Accepted(t, c) {
      if c.Create? {
        CreateMirrors(v, t, c.request, now);
      } else {
        MarkMirrors(v, t, c, now);
      }
    }
  }

  datatype Timed = Timed(call: Call, now: int)

  /** The table and the log agree before the first call and after every call of the run. */
  ghost predicate AgreesThroughout(t: Table, log: seq<Record>, calls: seq<Timed>)
    decreases |calls|
  {
    && Agrees(t, log)
    && (calls == [] || AgreesThroughout(TableAfter(t, calls[0].call), LogAfter(log, t, calls[0].call, calls[0].now),
                                        calls[1..]))
  }

  ghost predicate BlankThroughout(t: Table, calls: seq<Timed>)
    decreases |calls|
  {
    calls == [] || (StartsBlank(t, calls[0].call) && BlankThroughout(TableAfter(t, calls[0].call), calls[1..]))
  }

  lemma {:induction false} ReplayAgreesFrom(t: Table, log: seq<Record>, calls: seq<Timed>)
    requires Keyed(t) && Decodes(log) && Agrees(t, log)
    ensures AgreesThroughout(t, log, calls) <==> BlankThroughout(t, calls)
    decreases |calls|
  {
    if calls == [] {
    } else {
      var c, now := calls[0].call, calls[0].now;
      EventsOfAreProjected(t, c, now);
      AppendThenReplay(log, Subject(c), EventsOf(t, c, now), now);
      CallMirrors(Project(NO_VIEWS, Decoding(log)), t, c, now);
      if StartsBlank(t, c) {
        ReplayAgreesFrom(TableAfter(t, c), LogAfter(log, t, c, now), calls[1..]);
      }
    }
  }

  /**
   From an empty system, for every sequence of creates and marks in any order: a replay of the store
   equals the repository after every call if and only if no `Create` reuses the id of a payment that
   has a reason or a gateway id.
   */
  lemma {:induction false} ReplayEqualsRepositoryIffCreatesStartBlank(calls: seq<Timed>)
    ensures AgreesThroughout(map[], [], calls) <==> BlankThroughout(map[], calls)
  {
    ReplayAgreesFrom(map[], [], calls);
  }

  /** Every id is created at most once. */
  predicate CreatedOnce(calls: seq<Timed>) {
    forall i, j :: 0 <= i < j < |calls| && calls[i].call.Create? && calls[j].call.Create? ==>
      calls[i].call.request.paymentId != calls[j].call.request.paymentId
  }

  lemma {:induction false} CreatedOnceStartsBlank(t: Table, calls: seq<Timed>)
    requires CreatedOnce(calls)
    requires forall i :: 0 <= i < |calls| && calls[i].call.Create? ==> calls[i].call.request.paymentId !in t
    ensures BlankThroughout(t, calls)
    decreases |calls|
  {
    if calls == [] {
    } else {
      var rest := calls[1..];
      assert forall i :: 0 <= i < |rest| ==> rest[i] == calls[i + 1];
      CreatedOnceStartsBlank(TableAfter(t, calls[0].call), rest);
    }
  }

  /** With fresh ids the replayed views always equal the repository. */
  lemma {:induction false} FreshIdsReplayExactly(calls: seq<Timed>)
    requires CreatedOnce(calls)
    ensures AgreesThroughout(map[], [], calls)
  {
    CreatedOnceStartsBlank(map[], calls);
    ReplayEqualsRepositoryIffCreatesStartBlank(calls);
  }

  /** Reusing the id of a failed payment leaves its old reason in the replayed view only. */
  lemma {:induction false} ReusedIdDiverges()
    ensures !AgreesThroughout(map[], [],
                              [Timed(Create(CreateRequest("p", "u", 1, "s")), 0), Timed(MarkFailed("p", "declined"), 1),
                                          Timed(Create(CreateRequest("p", "u", 1, "s")), 2)])
  {
    var create := Create(CreateRequest("p", "u", 1, "s"));
    var calls := [Timed(create, 0), Timed(MarkFailed("p", "declined"), 1), Timed(create, 2)];
    var t1 := TableAfter(map[], create);
    var t2 := TableAfter(t1, MarkFailed("p", "declined"));
    assert t2["p"].reason == "declined";
    assert !StartsBlank(t2, create);
    assert calls[1..][1..] == [Timed(create, 2)];
    assert !BlankThroughout(t2, [Timed(create, 2)]);
    assert !BlankThroughout(t1, calls[1..]);
    assert !BlankThroughout(map[], calls);
    ReplayEqualsRepositoryIffCreatesStartBlank(calls);
  }
}
