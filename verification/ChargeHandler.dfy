/** The charge handler of cmd/consumers/handlers/payment_event.go: a bounded retry loop over the gateway. */
module ChargeHandler {
  import opened Events
  import opened Payments
  import opened Gateway

  const MAX_ATTEMPTS := 5

  predicate Retryable(a: Answer) {
    a.Refused? && (Timeout in a.error.sentinels || Server in a.error.sentinels ||
                   DeadlineExceeded in a.error.sentinels || CircuitOpen in a.error.sentinels)
  }

  predicate ClientError(a: Answer) {
    a.Refused? && Client in a.error.sentinels
  }

  /** The later classes win when an error wraps several sentinels. */
  function ErrorCode(e: Error): string {
    if Client in e.sentinels then "4xx"
    else if Server in e.sentinels then "5xx"
    else if Timeout in e.sentinels || DeadlineExceeded in e.sentinels then "408"
    else if CircuitOpen in e.sentinels then "cb_open"
    else ""
  }

  /** The handler sleeps and tries again after this answer. */
  predicate Retries(attempt: int, a: Answer) {
    Retryable(a) && attempt < MAX_ATTEMPTS
  }

  predicate AllRetried(attempt: int, heard: seq<Answer>) {
    heard == [] || (AllRetried(attempt, heard[..|heard| - 1]) && Retries(attempt + |heard| - 1, heard[|heard| - 1]))
  }

  /** `heard` are the answers of one run of the handler: every one but the last is retried. */
  predicate Complete(attempt: int, heard: seq<Answer>) {
    && heard != []
    && AllRetried(attempt, heard[..|heard| - 1])
    && !Retries(attempt + |heard| - 1, heard[|heard| - 1])
  }

  /** The attempt number of the last call. */
  function LastAttempt(attempt: int, heard: seq<Answer>): int {
    attempt + |heard| - 1
  }

  /** The event that ends a run whose last attempt got the answer `last`. */
  function Verdict(e: Event, attempt: int, last: Answer, now: int): Event
    requires e.PaymentChargeRequested?
  {
    match last
    case Charged(gatewayId) => PaymentChargeSucceeded(e.paymentId, e.userId, gatewayId, now)
    case Refused(error) =>
      if Retryable(last) && !ClientError(last) && attempt == MAX_ATTEMPTS
      then RecoveryRequested(e.paymentId, e.userId, ChargeAction, error.text, ErrorCode(error), MAX_ATTEMPTS, now)
      else PaymentChargeFailed(e.paymentId, e.userId, error.text, false, ErrorCode(error), now)
  }

  /** The one event a run publishes. */
  function ReplyTo(e: Event, heard: seq<Answer>, now: int): Event
    requires e.PaymentChargeRequested? && heard != []
  {
    Verdict(e, LastAttempt(e.attempt, heard), heard[|heard| - 1], now)
  }

  /** The answers a run hears from a given script, starting with the script's `k`-th. */
  function Heard(attempt: int, script: seq<Answer>, k: nat): (r: seq<Answer>)
    ensures r != []
    decreases if attempt < MAX_ATTEMPTS then MAX_ATTEMPTS - attempt else 0
  {
    var a := Scripted(script, k);
    if Retries(attempt, a) then [a] + Heard(attempt + 1, script, k + 1) else [a]
  }

  lemma {:induction false} RetriedCons(attempt: int, a: Answer, rest: seq<Answer>)
    requires Retries(attempt, a) && AllRetried(attempt + 1, rest)
    ensures AllRetried(attempt, [a] + rest)
    decreases |rest|
  {
    if rest == [] {
      assert [a] + rest == [a];
    } else {
      var n := |rest| - 1;
      RetriedCons(attempt, a, rest[..n]);
      assert ([a] + rest)[..n + 1] == [a] + rest[..n];
    }
  }

  /** What is heard from a script is a complete run over that script's answers. */
  lemma {:induction false} HeardIsComplete(attempt: int, script: seq<Answer>, k: nat)
    ensures Complete(attempt, Heard(attempt, script, k))
    ensures forall j :: 0 <= j < |Heard(attempt, script, k)| ==> Heard(attempt, script, k)[j] == Scripted(script, k + j)
    decreases if attempt < MAX_ATTEMPTS then MAX_ATTEMPTS - attempt else 0
  {
    var a := Scripted(script, k);
    if Retries(attempt, a) {
      HeardIsComplete(attempt + 1, script, k + 1);
      var rest := Heard(attempt + 1, script, k + 1);
      RetriedCons(attempt, a, rest[..|rest| - 1]);
      assert ([a] + rest)[..|rest|] == [a] + rest[..|rest| - 1];
    }
  }

  lemma {:induction false} RetriedHead(attempt: int, heard: seq<Answer>)
    requires heard != [] && AllRetried(attempt, heard)
    ensures Retries(attempt, heard[0]) && AllRetried(attempt + 1, heard[1..])
    decreases |heard|
  {
    var n := |heard| - 1;
    if n > 0 {
      RetriedHead(attempt, heard[..n]);
      assert heard[1..][..n - 1] == heard[..n][1..];
    }
  }

  /** A run is determined by its answers: hearing those answers again gives the same run. */
  lemma {:induction false} RunsAreDeterministic(attempt: int, heard: seq<Answer>, script: seq<Answer>, k: nat)
    requires Complete(attempt, heard)
    requires k + |heard| <= |script| && heard == script[k..k + |heard|]
    ensures Heard(attempt, script, k) == heard
    decreases |heard|
  {
    var n := |heard| - 1;
    assert heard[0] == script[k];
    if n == 0 {
      assert Heard(attempt, script, k) == [heard[0]];
    } else {
      RetriedHead(attempt, heard[..n]);
      assert heard[1..][..n - 1] == heard[..n][1..];
      RunsAreDeterministic(attempt + 1, heard[1..], script, k + 1);
    }
  }

  /** Milliseconds slept by a run that starts at attempt `first` and retries `n` times. */
  function Slept(first: int, n: nat): int {
    if n == 0 then 0 else Slept(first, n - 1) + 50 * (first + n - 1)
  }

  lemma {:induction false} SleptClosedForm(first: int, n: nat)
    ensures Slept(first, n) == 25 * ((first + n) * (first + n - 1) - first * (first - 1))
  {
    if n == 0 {
    } else {
      SleptClosedForm(first, n - 1);
    }
  }

  lemma Triangle(a: int, last: int)
    requires 1 <= a <= last <= MAX_ATTEMPTS
    ensures a * (a - 1) <= last * (last - 1) <= 20
  {
  }

  lemma {:induction false} SleptBound(first: int, n: nat)
    requires 1 <= first && first + n <= MAX_ATTEMPTS
    ensures 0 <= Slept(first, n) <= 25 * (20 - first * (first - 1))
  {
    SleptClosedForm(first, n);
    Triangle(first, first + n);
  }

  /** The breaker and the number of calls made behind it. */
  datatype Line = Line(breaker: Breaker, used: nat)

  /** One charge of a lone caller, its clock reading `before` on entry and `after` on return. */
  function ChargedOnce(c: Settings, line: Line, script: seq<Answer>, before: int, after: int): Line {
    if Admits(c, line.breaker, before)
    then Line(AfterCall(c, Before(c, line.breaker, before), Scripted(script, line.used), after), line.used + 1)
    else line.(breaker := Before(c, line.breaker, before))
  }

  /** The line as a lone caller finds it after `n` charges. */
  function LineAfter(c: Settings, line: Line, script: seq<Answer>, clock: nat -> int, n: nat): Line {
    if n == 0 then line
    else ChargedOnce(c, LineAfter(c, line, script, clock, n - 1), script, clock(2 * n - 2), clock(2 * n - 1))
  }

  /** The answer of the charge after `n` charges. */
  function AnswerAfter(c: Settings, line: Line, script: seq<Answer>, clock: nat -> int, n: nat): Answer {
    var now := LineAfter(c, line, script, clock, n);
    if Admits(c, now.breaker, clock(2 * n)) then Scripted(script, now.used) else CIRCUIT_OPEN
  }

  /** `heard` are the answers of the first charges of a lone caller. */
  ghost predicate HeardFrom(c: Settings, line: Line, script: seq<Answer>, clock: nat -> int, heard: seq<Answer>) {
    heard == [] || (HeardFrom(c, line, script, clock, heard[..|heard| - 1])
                    && heard[|heard| - 1] == AnswerAfter(c, line, script, clock, |heard| - 1))
  }

  /** One more answer either extends a run or ends it. */
  lemma {:induction false} OneMoreAnswer(c: Settings, line: Line, script: seq<Answer>, clock: nat -> int,
                                         attempt: int, heard: seq<Answer>, a: Answer)
    requires AllRetried(attempt, heard) && HeardFrom(c, line, script, clock, heard)
    requires a == AnswerAfter(c, line, script, clock, |heard|)
    ensures HeardFrom(c, line, script, clock, heard + [a])
    ensures if Retries(attempt + |heard|, a) then AllRetried(attempt, heard + [a]) else Complete(attempt, heard + [a])
  {
  }

  class PaymentEvent {
    const gateway: CircuitBreakerGateway
    const bus: Publisher

    ghost function Front(): Line
      reads gateway, gateway.next
    {
      Line(gateway.Contents(), gateway.next.calls)
    }

    constructor (gateway: CircuitBreakerGateway, bus: Publisher)
      ensures this.gateway == gateway && this.bus == bus
    {
      this.gateway, this.bus := gateway, bus;
    }

    /** The loop: charge, and while the answer is retried, sleep and charge again. */
    method ChargeUntilSettled(first: int, clock: nat -> int)
      returns (attempt: int, a: Answer, slept: int, ghost heard: seq<Answer>)
      modifies gateway, gateway.next
      ensures Complete(first, heard) && attempt == LastAttempt(first, heard) && a == heard[|heard| - 1]
      ensures HeardFrom(gateway.cfg, old(Front()), gateway.next.script, clock, heard)
      ensures Front()
           == LineAfter(gateway.cfg, old(Front()), gateway.next.script, clock, |heard|)
      ensures slept == Slept(first, |heard| - 1)
    {
      ghost var c, line, script := gateway.cfg, Front(), gateway.next.script;
      slept, heard, attempt := 0, [], first;
      var n := 0;
      a := Try(c, line, script, clock, 0);
      while Retryable(a) && attempt < MAX_ATTEMPTS
        invariant n == |heard| && attempt == first + n && AllRetried(first, heard)
        invariant a == AnswerAfter(c, line, script, clock, n) && HeardFrom(c, line, script, clock, heard)
        invariant Front() == LineAfter(c, line, script, clock, n + 1)
        invariant slept == Slept(first, n)
        decreases MAX_ATTEMPTS - attempt
      {
        OneMoreAnswer(c, line, script, clock, first, heard, a);
        heard := heard + [a];
        slept := slept + 50 * attempt;
        attempt := attempt + 1;
        n := n + 1;
        a := Try(c, line, script, clock, n);
      }
      OneMoreAnswer(c, line, script, clock, first, heard, a);
      heard := heard + [a];
      n := n + 1;
      assert n == |heard|;
    }

    /** `clock` gives the breaker its readings, two a charge; `slept` is in milliseconds. */
    method HandleChargeRequested(e: Event, clock: nat -> int, now: int)
      returns (ok: bool, slept: int, ghost heard: seq<Answer>)
      modifies gateway, gateway.next, bus
      ensures ok <==> e.PaymentChargeRequested?
      ensures !ok ==> bus.published == old(bus.published) && gateway.Contents() == old(gateway.Contents())
      ensures ok ==> Complete(e.attempt, heard)
      ensures ok ==> bus.published == old(bus.published) + [ReplyTo(e, heard, now)]
      ensures ok ==> HeardFrom(gateway.cfg, old(Front()), gateway.next.script, clock, heard)
      ensures ok ==> Front()
                     == LineAfter(gateway.cfg, old(Front()), gateway.next.script, clock, |heard|)
      ensures ok ==> slept == Slept(e.attempt, |heard| - 1)
    {
      slept, heard := 0, [];
      if !e.PaymentChargeRequested? {
        return false, slept, heard;
      }
      var attempt, a;
      attempt, a, slept, heard := ChargeUntilSettled(e.attempt, clock);
      Conclude(e, attempt, a, now);
      ok := true;
    }

    /** One charge of the loop, the `n`-th. */
    method Try(ghost c: Settings, ghost line: Line, ghost script: seq<Answer>, clock: nat -> int, n: nat)
      returns (a: Answer)
      requires c == gateway.cfg && script == gateway.next.script
      requires Front() == LineAfter(c, line, script, clock, n)
      modifies gateway, gateway.next
      ensures a == AnswerAfter(c, line, script, clock, n)
      ensures Front() == LineAfter(c, line, script, clock, n + 1)
    {
      a := gateway.Charge(clock(2 * n), clock(2 * n + 1));
    }

    /** The branches that end the loop. */
    method Conclude(e: Event, attempt: int, a: Answer, now: int)
      requires e.PaymentChargeRequested? && !Retries(attempt, a)
      modifies bus
      ensures bus.published == old(bus.published) + [Verdict(e, attempt, a, now)]
    {
      if a.Charged? {
        bus.Publish(PaymentChargeSucceeded(e.paymentId, e.userId, a.gatewayId, now));
        return;
      }
      var errorCode := "";
      if CircuitOpen in a.error.sentinels {
        errorCode := "cb_open";
      }
      if Timeout in a.error.sentinels || DeadlineExceeded in a.error.sentinels {
        errorCode := "408";
      }
      if Server in a.error.sentinels {
        errorCode := "5xx";
      }
      if Client in a.error.sentinels {
        errorCode := "4xx";
      }
      var reason := a.error.text;
      if ClientError(a) {
        bus.Publish(PaymentChargeFailed(e.paymentId, e.userId, reason, false, errorCode, now));
        return;
      }
      if Retryable(a) && attempt == MAX_ATTEMPTS {
        bus.Publish(RecoveryRequested(e.paymentId, e.userId, ChargeAction, reason, errorCode, attempt, now));
        return;
      }
      bus.Publish(PaymentChargeFailed(e.paymentId, e.userId, reason, false, errorCode, now));
    }
  }

  /**
   Whatever the gateway answers, a run ends after at most max(1, 6 - attempt) calls; it asks for
   recovery exactly when its last attempt is the fifth and that answer is retryable and not a client
   error; and for attempts 1 to 5 it sleeps at most 25 * (20 - attempt * (attempt - 1)) milliseconds.
   */
  lemma RunOutcome(e: Event, heard: seq<Answer>, now: int, slept: int)
    requires e.PaymentChargeRequested? && Complete(e.attempt, heard)
    requires slept == Slept(e.attempt, |heard| - 1)
    ensures |heard| <= if e.attempt < MAX_ATTEMPTS then MAX_ATTEMPTS + 1 - e.attempt else 1
    ensures ReplyTo(e, heard, now).RecoveryRequested? <==>
              LastAttempt(e.attempt, heard) == MAX_ATTEMPTS && Retryable(heard[|heard| - 1])
                  && !ClientError(heard[|heard| - 1])
    ensures ReplyTo(e, heard, now).PaymentChargeSucceeded? <==> heard[|heard| - 1].Charged?
    ensures 1 <= e.attempt <= MAX_ATTEMPTS ==> 0 <= slept <= 25 * (20 - e.attempt * (e.attempt - 1))
    ensures e.attempt > MAX_ATTEMPTS ==> |heard| == 1 && !ReplyTo(e, heard, now).RecoveryRequested?
  {
    var n := |heard|;
    if n > 1 {
      assert Retries(e.attempt + n - 2, heard[..n - 1][n - 2]);
    }
    if 1 <= e.attempt <= MAX_ATTEMPTS {
      SleptBound(e.attempt, n - 1);
    }
  }

  lemma {:induction false} RetriedAt(attempt: int, heard: seq<Answer>, k: nat)
    requires AllRetried(attempt, heard) && k < |heard|
    ensures Retries(attempt + k, heard[k])
    decreases |heard|
  {
    if k < |heard| - 1 {
      RetriedAt(attempt, heard[..|heard| - 1], k);
    }
  }

  /**
   Which answers are retried, in terms of the sentinels they wrap: every answer but the last is an error that
   wraps a timeout, a 5xx, an exceeded deadline or an open circuit, with the attempt below 5; the last is
   not. So an error that wraps only a 4xx, or nothing, ends the run.
   */
  lemma {:induction false} SentinelsDecideRetries(attempt: int, heard: seq<Answer>)
    requires Complete(attempt, heard)
    ensures forall k :: 0 <= k < |heard| ==>
              (k < |heard| - 1 <==>
                 heard[k].Refused? && heard[k].error.sentinels * {Timeout, Server, DeadlineExceeded, CircuitOpen} != {}
                 && attempt + k < 5)
  {
    forall k | 0 <= k < |heard|
      ensures k < |heard| - 1 <==>
                heard[k].Refused? && heard[k].error.sentinels * {Timeout, Server, DeadlineExceeded, CircuitOpen} != {}
                && attempt + k < 5 {
      if k < |heard| - 1 {
        RetriedAt(attempt, heard[..|heard| - 1], k);
      }
      if heard[k].Refused? {
        RetryableSentinels(heard[k].error);
      }
    }
  }

  lemma RetryableSentinels(e: Error)
    ensures Retryable(Refused(e)) <==> e.sentinels * {Timeout, Server, DeadlineExceeded, CircuitOpen} != {}
  {
    var wrapped := e.sentinels * {Timeout, Server, DeadlineExceeded, CircuitOpen};
    if Retryable(Refused(e)) {
      assert Timeout in wrapped || Server in wrapped || DeadlineExceeded in wrapped || CircuitOpen in wrapped;
    }
    if wrapped != {} {
      var x :| x in wrapped;
    }
  }

  /** The code a failure is published with: 4xx over 5xx over a timeout over an open circuit. */
  predicate CodeTells(code: string, sentinels: set<Sentinel>) {
    && (code == "4xx" <==> Client in sentinels)
    && (code == "5xx" <==> Server in sentinels && Client !in sentinels)
    && (code == "408" <==> sentinels * {Timeout, DeadlineExceeded} != {} && sentinels * {Server, Client} == {})
    && (code == "cb_open" <==>
        sentinels * {Timeout, DeadlineExceeded, Server, Client} == {} && CircuitOpen in sentinels)
    && (code == "" <==> sentinels == {})
  }

  lemma CodeOf(e: Error)
    ensures CodeTells(ErrorCode(e), e.sentinels)
  {
    assert e.sentinels == {} || Client in e.sentinels || Server in e.sentinels || Timeout in e.sentinels
           || DeadlineExceeded in e.sentinels || CircuitOpen in e.sentinels by {
      if e.sentinels != {} {
        var x :| x in e.sentinels;
        assert x.Client? || x.Server? || x.Timeout? || x.DeadlineExceeded? || x.CircuitOpen?;
      }
    }
    assert e.sentinels * {Timeout, DeadlineExceeded} != {} <==>
             Timeout in e.sentinels || DeadlineExceeded in e.sentinels by {
      assert Timeout in e.sentinels ==> Timeout in e.sentinels * {Timeout, DeadlineExceeded};
      assert DeadlineExceeded in e.sentinels ==> DeadlineExceeded in e.sentinels * {Timeout, DeadlineExceeded};
    }
    assert e.sentinels * {Server, Client} == {} <==> Server !in e.sentinels && Client !in e.sentinels by {
      assert Server in e.sentinels ==> Server in e.sentinels * {Server, Client};
      assert Client in e.sentinels ==> Client in e.sentinels * {Server, Client};
    }
  }

  /**
   What a run publishes, in terms of its last answer: the gateway's id; or recovery, when that answer was the
   fifth attempt's and wraps a retryable sentinel but no 4xx; or failure. The reason is the error's text.
   */
  lemma {:induction false} SentinelsDecideTheReply(e: Event, heard: seq<Answer>, now: int)
    requires e.PaymentChargeRequested? && Complete(e.attempt, heard)
    ensures var last, reply := heard[|heard| - 1], ReplyTo(e, heard, now);
            && reply.paymentId == e.paymentId && reply.userId == e.userId && reply.at == now
            && (last.Charged? <==> reply.PaymentChargeSucceeded?)
            && (last.Charged? ==> reply.gatewayId == last.gatewayId)
            && (last.Refused? ==>
                  && (reply.PaymentChargeFailed? || reply.RecoveryRequested?)
                  && reply.reason == last.error.text && CodeTells(reply.errorCode, last.error.sentinels)
                  && (reply.PaymentChargeFailed? ==> !reply.retryable)
                  && (reply.RecoveryRequested? ==> reply.action == ChargeAction && reply.attempts == 5)
                  && (reply.RecoveryRequested? <==>
                        e.attempt + |heard| - 1 == 5 && Client !in last.error.sentinels
                        && last.error.sentinels * {Timeout, Server, DeadlineExceeded, CircuitOpen} != {}))
  {
    var last := heard[|heard| - 1];
    if last.Refused? {
      RetryableSentinels(last.error);
      CodeOf(last.error);
    }
  }

  /** An error that wraps only a 4xx, or no sentinel, is charged once and fails the payment at once. */
  lemma {:induction false} PlainFailuresEndAtOnce(e: Event, heard: seq<Answer>, now: int)
    requires e.PaymentChargeRequested? && Complete(e.attempt, heard)
    requires heard[0].Refused? && heard[0].error.sentinels <= {Client}
    ensures |heard| == 1 && ReplyTo(e, heard, now).PaymentChargeFailed?
  {
    SentinelsDecideRetries(e.attempt, heard);
    SentinelsDecideTheReply(e, heard, now);
    assert heard[0].error.sentinels * {Timeout, Server, DeadlineExceeded, CircuitOpen} == {};
  }

  /**
   A first answer that is a client error is tried again if and only if it also wraps a retryable sentinel
   and attempts are left: the retry branch stands before the client branch.
   */
  lemma {:induction false} ClientErrorIsRetriedIff(attempt: int, heard: seq<Answer>)
    requires Complete(attempt, heard) && ClientError(heard[0])
    ensures |heard| > 1 <==> Retryable(heard[0]) && attempt < MAX_ATTEMPTS
  {
    if |heard| > 1 {
      RetriedHead(attempt, heard[..|heard| - 1]);
    }
  }

  /** A failure the breaker counts, that is no client error. */
  predicate Outage(a: Answer) {
    Counted(a) && !ClientError(a)
  }

  /** Under an outage the breaker counts the calls up to its threshold, then stays open. */
  lemma {:induction false} OutageState(c: Settings, line: Line, script: seq<Answer>, clock: nat -> int, n: nat)
    requires line.breaker.mode == Closed && 0 <= line.breaker.failures < c.failureThreshold
    requires forall i: nat :: line.used <= i < line.used + n ==> Outage(Scripted(script, i))
    requires var k := c.failureThreshold - line.breaker.failures;
             forall j: nat :: 2 * k <= j < 2 * n ==> clock(j) - clock(2 * k - 1) < c.openTimeout
    ensures var k := c.failureThreshold - line.breaker.failures;
            var s := LineAfter(c, line, script, clock, n);
            if n < k then s == Line(line.breaker.(failures := line.breaker.failures + n), line.used + n)
            else s.breaker.mode == Open && s.breaker.openedAt == clock(2 * k - 1) && s.used == line.used + k
  {
    if n == 0 {
    } else {
      OutageState(c, line, script, clock, n - 1);
    }
  }

  /**
   A lone caller at attempt 1 to 5 facing an outage behind a closed breaker with f failures, less than
   `openTimeout` passing after a trip: the inner gateway is called exactly min(6 - attempt, threshold - f)
   times, and one recovery request with attempts 5 is published, with code `cb_open` exactly when the
   breaker trips before the last attempt.
   */
  lemma {:induction false} OutageRun(c: Settings, line: Line, script: seq<Answer>, clock: nat -> int,
                                     e: Event, heard: seq<Answer>, now: int)
    requires e.PaymentChargeRequested? && 1 <= e.attempt <= MAX_ATTEMPTS
    requires line.breaker.mode == Closed && 0 <= line.breaker.failures < c.failureThreshold
    requires forall i: nat :: line.used <= i <= line.used + MAX_ATTEMPTS - e.attempt ==> Outage(Scripted(script, i))
    requires var k := c.failureThreshold - line.breaker.failures;
             forall j: nat :: 2 * k <= j < 2 * (MAX_ATTEMPTS + 1 - e.attempt) ==>
                   clock(j) - clock(2 * k - 1) < c.openTimeout
    requires Complete(e.attempt, heard) && HeardFrom(c, line, script, clock, heard)
    ensures var tries, k := MAX_ATTEMPTS + 1 - e.attempt, c.failureThreshold - line.breaker.failures;
            var reply := ReplyTo(e, heard, now);
            && |heard| == tries
            && LineAfter(c, line, script, clock, |heard|).used == line.used + (if tries <= k then tries else k)
            && reply.RecoveryRequested? && reply.attempts == MAX_ATTEMPTS
            && (reply.errorCode == "cb_open" <==> k < tries)
  {
    var n := |heard|;
    var k := c.failureThreshold - line.breaker.failures;
    if n > 1 {
      assert Retries(e.attempt + n - 2, heard[..n - 1][n - 2]);
    }
    OutageState(c, line, script, clock, n - 1);
    OutageState(c, line, script, clock, n);
    var last := heard[n - 1];
    assert last == AnswerAfter(c, line, script, clock, n - 1);
    assert last == if n - 1 < k then Scripted(script, line.used + (n - 1)) else CIRCUIT_OPEN;
    assert Retryable(last);
  }
}
