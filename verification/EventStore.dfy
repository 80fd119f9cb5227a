/** The append-only event store of kit/db/store.go and the payloads it keeps. */
module EventStore {
  import opened Common
  import opened Events

  /** A JSON payload, seen through the fields a replay reads; a field the event lacks has its zero value. */
  datatype Payload =
    | Malformed
    | Json(paymentId: string, userId: string, amount: int, service: string, reason: string, gatewayId: string, at: int)

  datatype Record = Record(aggregateId: string, name: Name, payload: Payload, occurredAt: int)

  /** What a record turns into on replay: an event, a name nobody projects, or an error. */
  datatype Decoded = Good(event: Event) | Skipped | Bad

  function Encode(e: Event): Payload {
    match e
    case PaymentCreated(id, u, a, s, at) => Json(id, u, a, s, "", "", at)
    case PaymentInitialized(id, u, a, s, at) => Json(id, u, a, s, "", "", at)
    case PaymentPending(id, u, at) => Json(id, u, 0, "", "", "", at)
    case PaymentRejected(id, u, r, at) => Json(id, u, 0, "", r, "", at)
    case PaymentSucceeded(id, u, g, at) => Json(id, u, 0, "", "", g, at)
    case PaymentFailed(id, u, r, at) => Json(id, u, 0, "", r, "", at)
    case PaymentChargeRequested(id, u, a, s, _, at) => Json(id, u, a, s, "", "", at)
    case PaymentChargeSucceeded(id, u, g, at) => Json(id, u, 0, "", "", g, at)
    case PaymentChargeFailed(id, u, r, _, _, at) => Json(id, u, 0, "", r, "", at)
    case RecoveryRequested(id, u, _, r, _, _, at) => Json(id, u, 0, "", r, "", at)
    case WalletCredited(u, a, at) => Json("", u, a, "", "", "", at)
    case WalletDebitRequested(id, u, a, _, at) => Json(id, u, a, "", "", "", at)
    case WalletDebitRejected(id, u, r, at) => Json(id, u, 0, "", r, "", at)
    case WalletDebited(id, u, a, at) => Json(id, u, a, "", "", "", at)
    case WalletRefundRequested(id, u, a, at) => Json(id, u, a, "", "", "", at)
    case WalletRefunded(id, u, a, at) => Json(id, u, a, "", "", "", at)
  }

  /** True of the nine event names a replay understands. */
  predicate Projected(n: Name) {
    n in {NamePaymentCreated, NamePaymentInitialized, NamePaymentPending, NamePaymentRejected, NamePaymentSucceeded,
          NamePaymentFailed, NameWalletCredited, NameWalletDebited, NameWalletRefunded}
  }

  function Decode(n: Name, p: Payload): Decoded {
    if !Projected(n) then Skipped
    else if p.Malformed? then Bad
    else match n
      case NamePaymentCreated => Good(PaymentCreated(p.paymentId, p.userId, p.amount, p.service, p.at))
      case NamePaymentInitialized => Good(PaymentInitialized(p.paymentId, p.userId, p.amount, p.service, p.at))
      case NamePaymentPending => Good(PaymentPending(p.paymentId, p.userId, p.at))
      case NamePaymentRejected => Good(PaymentRejected(p.paymentId, p.userId, p.reason, p.at))
      case NamePaymentSucceeded => Good(PaymentSucceeded(p.paymentId, p.userId, p.gatewayId, p.at))
      case NamePaymentFailed => Good(PaymentFailed(p.paymentId, p.userId, p.reason, p.at))
      case NameWalletCredited => Good(WalletCredited(p.userId, p.amount, p.at))
      case NameWalletDebited => Good(WalletDebited(p.paymentId, p.userId, p.amount, p.at))
      case _ => Good(WalletRefunded(p.paymentId, p.userId, p.amount, p.at))
  }

  /** Reading back what `Append` wrote gives the event itself, for every event a replay understands. */
  lemma DecodeEncode(e: Event)
    ensures Decode(NameOf(e), Encode(e)) == if Projected(NameOf(e)) then Good(e) else Skipped
  {
  }

  function RecordOf(aggregateId: string, e: Event, now: int): Record {
    Record(aggregateId, NameOf(e), Encode(e), now)
  }

  /** The records of one aggregate, in log order. */
  function Stream(log: seq<Record>, id: string): seq<Record> {
    if log == [] then []
    else Stream(log[..|log| - 1], id) + (if log[|log| - 1].aggregateId == id then [log[|log| - 1]] else [])
  }

  function At(streams: map<string, seq<Record>>, id: string): seq<Record> {
    if id in streams then streams[id] else []
  }

  /** The index agrees with the log. */
  ghost predicate Indexed(streams: map<string, seq<Record>>, log: seq<Record>) {
    forall id :: At(streams, id) == Stream(log, id)
  }

  lemma IndexedGrows(streams: map<string, seq<Record>>, log: seq<Record>, r: Record)
    requires Indexed(streams, log)
    ensures Indexed(streams[r.aggregateId := At(streams, r.aggregateId) + [r]], log + [r])
  {
    var grown := streams[r.aggregateId := At(streams, r.aggregateId) + [r]];
    forall id ensures At(grown, id) == Stream(log + [r], id) {
      assert (log + [r])[..|log|] == log;
      assert At(streams, id) == Stream(log, id);
    }
  }

  /** One line of the file. */
  datatype Line = Blank | Entry(record: Record) | Corrupt

  /** The records of the lines before the first corrupt one. */
  function Readable(lines: seq<Line>): seq<Record> {
    if lines == [] || lines[0].Corrupt? then []
    else (if lines[0].Entry? then [lines[0].record] else []) + Readable(lines[1..])
  }

  predicate Clean(lines: seq<Line>) {
    forall i :: 0 <= i < |lines| ==> !lines[i].Corrupt?
  }

  lemma {:induction false} ReadableConcat(a: seq<Line>, b: seq<Line>)
    requires Clean(a)
    ensures Readable(a + b) == Readable(a) + Readable(b)
  {
    if a == [] {
      assert a + b == b;
    } else {
      assert (a + b)[1..] == a[1..] + b;
      ReadableConcat(a[1..], b);
    }
  }

  /** What the next line adds to a clean prefix. */
  lemma {:induction false} ReadableNext(lines: seq<Line>, i: nat)
    requires i < |lines| && Clean(lines[..i])
    ensures lines[i].Corrupt? ==> Readable(lines) == Readable(lines[..i]) && !Clean(lines)
    ensures !lines[i].Corrupt? ==>
              && Clean(lines[..i + 1])
              && Readable(lines[..i + 1]) == Readable(lines[..i]) + if lines[i].Entry? then [lines[i].record] else []
  {
    if lines[i].Corrupt? {
      ReadableConcat(lines[..i], lines[i..]);
      assert lines[..i] + lines[i..] == lines;
    } else {
      var next := [lines[i]];
      ReadableConcat(lines[..i], next);
      assert lines[..i] + next == lines[..i + 1];
      assert Readable(next) == if next[0].Entry? then [next[0].record] else [];
    }
  }

  class Store {
    var streams: map<string, seq<Record>>
    var log: seq<Record>
    var file: Option<seq<Line>>

    ghost predicate Valid()
      reads this
    {
      Indexed(streams, log)
    }

    /** A store with no file. */
    constructor ()
      ensures Valid() && log == [] && file == None
    {
      streams, log, file := map[], [], None;
    }

    /** Adds a record to its stream and to the log. */
    method Remember(rec: Record)
      requires Valid()
      modifies this`streams, this`log
      ensures Valid() && log == old(log) + [rec]
    {
      IndexedGrows(streams, log, rec);
      streams := streams[rec.aggregateId := At(streams, rec.aggregateId) + [rec]];
      log := log + [rec];
    }

    /** Reads the file into the index; stops with an error at the first corrupt line. */
    method ReplayFromFile(lines: seq<Line>) returns (ok: bool)
      requires Valid()
      modifies this`streams, this`log
      ensures Valid()
      ensures ok <==> Clean(lines)
      ensures log == old(log) + Readable(lines)
    {
      var i := 0;
      while i < |lines|
        invariant 0 <= i <= |lines| && Valid() && Clean(lines[..i])
        invariant log == old(log) + Readable(lines[..i])
      {
        ReadableNext(lines, i);
        if lines[i].Corrupt? {
          return false;
        }
        if lines[i].Entry? {
          Remember(lines[i].record);
        }
        i := i + 1;
      }
      assert lines[..i] == lines;
      ok := true;
    }

    /** Appends to the index and the log, then to the file; a failed write is only logged. */
    method Append(aggregateId: string, evt: Event, now: int, writeOk: bool)
      requires Valid()
      modifies this
      ensures Valid()
      ensures log == old(log) + [RecordOf(aggregateId, evt, now)]
      ensures file == if old(file).Some? && writeOk
                      then Some(old(file).value + [Entry(RecordOf(aggregateId, evt, now))]) else old(file)
    {
      var rec := RecordOf(aggregateId, evt, now);
      Remember(rec);
      if file.Some? && writeOk {
        file := Some(file.value + [Entry(rec)]);
      }
    }

    method Load(aggregateId: string) returns (r: seq<Record>)
      requires Valid()
      ensures r == Stream(log, aggregateId)
    {
      r := At(streams, aggregateId);
    }

    method All() returns (r: seq<Record>)
      ensures r == log
    {
      r := log;
    }
  }
}
