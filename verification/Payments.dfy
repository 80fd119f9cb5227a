/** The payment aggregate of internal/payment: model, repository rows and service. */
module Payments {
  import opened Common
  import opened Events
  import opened EventStore

  /** The zero value `NoStatus` is Go's empty string. */
  datatype Status = NoStatus | Initialized | Pending | Rejected | Succeeded | Failed

  datatype Payment = Payment(id: string, userId: string, amount: int, service: string,
                             status: Status, reason: string, gatewayId: string)

  datatype CreateRequest = CreateRequest(paymentId: string, userId: string, amount: int, service: string)

  predicate ValidRequest(r: CreateRequest) {
    r.paymentId != "" && r.userId != "" && r.amount > 0 && r.service != ""
  }

  type Table = map<string, Payment>

  /** The record `Initialize` saves: an upsert, whatever stood there before. */
  function Fresh(r: CreateRequest): Payment {
    Payment(r.paymentId, r.userId, r.amount, r.service, Initialized, "", "")
  }

  /** A call of the payment service, or the payment half of the web handler's `Create`. */
  datatype Call =
    | Create(request: CreateRequest)
    | MarkPending(id: string)
    | MarkRejected(id: string, reason: string)
    | MarkSucceeded(id: string, gatewayId: string)
    | MarkFailed(id: string, reason: string)

  /** The payment a mark leaves: no mark looks at the old status. */
  function Marked(p: Payment, c: Call): Payment
    requires !c.Create?
  {
    match c
    case MarkPending(_) => p.(status := Pending)
    case MarkRejected(_, r) => p.(status := Rejected, reason := r)
    case MarkSucceeded(_, g) => p.(status := Succeeded, gatewayId := g)
    case MarkFailed(_, r) => p.(status := Failed, reason := r)
  }

  function MarkEvent(p: Payment, c: Call, now: int): Event
    requires !c.Create?
  {
    match c
    case MarkPending(id) => PaymentPending(id, p.userId, now)
    case MarkRejected(id, r) => PaymentRejected(id, p.userId, r, now)
    case MarkSucceeded(id, g) => PaymentSucceeded(id, p.userId, g, now)
    case MarkFailed(id, r) => PaymentFailed(id, p.userId, r, now)
  }

  function CreateEvents(r: CreateRequest, now: int): seq<Event> {
    [PaymentCreated(r.paymentId, r.userId, r.amount, r.service, now),
     PaymentInitialized(r.paymentId, r.userId, r.amount, r.service, now)]
  }

  predicate Accepted(t: Table, c: Call) {
    if c.Create? then ValidRequest(c.request) else c.id in t
  }

  function TableAfter(t: Table, c: Call): Table {
    if !Accepted(t, c) then t
    else if c.Create? then t[c.request.paymentId := Fresh(c.request)]
    else t[c.id := Marked(t[c.id], c)]
  }

  /** The events the call appends to the store and hands to the bus, in order. */
  function EventsOf(t: Table, c: Call, now: int): seq<Event> {
    if !Accepted(t, c) then []
    else if c.Create? then CreateEvents(c.request, now)
    else [MarkEvent(t[c.id], c, now)]
  }

  function RecordsOf(aggregateId: string, es: seq<Event>, now: int): seq<Record> {
    if es == [] then [] else [RecordOf(aggregateId, es[0], now)] + RecordsOf(aggregateId, es[1..], now)
  }

  function Subject(c: Call): string {
    if c.Create? then c.request.paymentId else c.id
  }

  function LogAfter(log: seq<Record>, t: Table, c: Call, now: int): seq<Record> {
    log + RecordsOf(Subject(c), EventsOf(t, c, now), now)
  }

  /** What handlers and services hand to the bus, in order. */
  class Publisher {
    var published: seq<Event>

    constructor ()
      ensures published == []
    {
      published := [];
    }

    method Publish(evt: Event)
      modifies this
      ensures published == old(published) + [evt]
    {
      published := published + [evt];
    }
  }

  /** One row of the mock client's payments table. */
  datatype Row = Row(paymentId: string, userId: string, amount: int, service: string,
                     status: Status, reason: string, gatewayId: string)

  function ToRow(p: Payment): Row {
    Row(p.id, p.userId, p.amount, p.service, p.status, p.reason, p.gatewayId)
  }

  function FromRow(r: Row): Payment {
    Payment(r.paymentId, r.userId, r.amount, r.service, r.status, r.reason, r.gatewayId)
  }

  /** The SQL repository over the mock client's typed statements; its upsert cannot fail. */
  class SQLRepository {
    var rows: map<string, Row>

    ghost predicate Valid()
      reads this
    {
      forall id :: id in rows ==> rows[id].paymentId == id
    }

    ghost function Contents(): Table
      reads this
    {
      map id | id in rows :: FromRow(rows[id])
    }

    constructor ()
      ensures Valid() && Contents() == map[]
    {
      rows := map[];
    }

    method Save(p: Payment)
      requires Valid()
      modifies this
      ensures Valid() && Contents() == old(Contents())[p.id := p]
    {
      rows := rows[p.id := ToRow(p)];
    }

    method Get(id: string) returns (r: Option<Payment>)
      requires Valid()
      ensures r == if id in Contents() then Some(Contents()[id]) else None
      ensures r.Some? ==> r.value.id == id
    {
      r := if id in rows then Some(FromRow(rows[id])) else None;
    }
  }

  class Service {
    const bus: Publisher
    const store: Store
    const repository: SQLRepository

    ghost predicate Valid()
      reads store, repository
    {
      && store.Valid() && repository.Valid()
      && forall id :: id in repository.Contents() ==> repository.Contents()[id].id == id
    }

    constructor (bus: Publisher, store: Store, repository: SQLRepository)
      ensures this.bus == bus && this.store == store && this.repository == repository
    {
      this.bus, this.store, this.repository := bus, store, repository;
    }

    method Initialize(req: CreateRequest) returns (r: Option<Payment>)
      requires Valid()
      modifies repository
      ensures Valid()
      ensures r.Some? <==> req.paymentId != "" && req.userId != "" && req.service != "" && req.amount > 0
      ensures r.Some? ==>
                r.value == Payment(req.paymentId, req.userId, req.amount, req.service, Initialized, "", "")
      ensures repository.Contents() == TableAfter(old(repository.Contents()), Create(req))
    {
      if !ValidRequest(req) {
        return None;
      }
      var p := Payment(req.paymentId, req.userId, req.amount, req.service, Initialized, "", "");
      repository.Save(p);
      r := Some(p);
    }

    /** `MarkPending`, `MarkRejected`, `MarkSucceeded` and `MarkFailed`: get, set, save, append, publish. */
    method Mark(c: Call, now: int) returns (ok: bool)
      requires Valid() && !c.Create?
      modifies repository, store, bus
      ensures Valid()
      ensures ok <==> c.id in old(repository.Contents())
      ensures repository.Contents() == TableAfter(old(repository.Contents()), c)
      ensures store.log == LogAfter(old(store.log), old(repository.Contents()), c, now)
      ensures bus.published == old(bus.published) + EventsOf(old(repository.Contents()), c, now)
    {
      var found := repository.Get(c.id);
      if found.None? {
        assert RecordsOf(c.id, [], now) == [];
        return false;
      }
      var p := found.value;
      match c {
        case MarkPending(_) => p := p.(status := Pending);
        case MarkRejected(_, reason) => p := p.(status := Rejected, reason := reason);
        case MarkSucceeded(_, gatewayId) => p := p.(status := Succeeded, gatewayId := gatewayId);
        case MarkFailed(_, reason) => p := p.(status := Failed, reason := reason);
      }
      repository.Save(p);
      var evt := MarkEvent(p, c, now);
      store.Append(c.id, evt, now, true);
      bus.Publish(evt);
      assert RecordsOf(c.id, [evt], now) == [RecordOf(c.id, evt, now)];
      ok := true;
    }

    method Get(id: string) returns (r: Option<Payment>)
      requires Valid()
      ensures r == if id in repository.Contents() then Some(repository.Contents()[id]) else None
    {
      r := repository.Get(id);
    }
  }

  /** The web handler's `Create`, after decoding and the health check: save, then append and publish twice. */
  method CreateHandler(service: Service, req: CreateRequest, now: int) returns (accepted: bool)
    requires service.Valid()
    modifies service.repository, service.store, service.bus
    ensures service.Valid()
    ensures accepted <==> req.paymentId != "" && req.userId != "" && req.service != "" && req.amount > 0
    ensures service.repository.Contents() == TableAfter(old(service.repository.Contents()), Create(req))
    ensures service.store.log == LogAfter(old(service.store.log), old(service.repository.Contents()), Create(req), now)
    ensures service.bus.published == old(service.bus.published)
            + EventsOf(old(service.repository.Contents()), Create(req), now)
  {
    var p := service.Initialize(req);
    assert RecordsOf(req.paymentId, [], now) == [];
    if p.None? {
      return false;
    }
    var created := PaymentCreated(p.value.id, p.value.userId, p.value.amount, p.value.service, now);
    service.store.Append(p.value.id, created, now, true);
    service.bus.Publish(created);
    var initialized := PaymentInitialized(p.value.id, p.value.userId, p.value.amount, p.value.service, now);
    service.store.Append(p.value.id, initialized, now, true);
    service.bus.Publish(initialized);
    assert CreateEvents(req, now)[1..] == [initialized];
    assert RecordsOf(req.paymentId, [initialized], now) == [RecordOf(req.paymentId, initialized, now)];
    accepted := true;
  }
}
