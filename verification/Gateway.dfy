/** The circuit breaker of kit/external_payment_gateway/gateway.go. */
module Gateway {
  import opened Common

  /** The sentinel errors `errors.Is` tells apart; one error may wrap several. */
  datatype Sentinel = Timeout | Server | Client | CircuitOpen | DeadlineExceeded

  datatype Error = Error(sentinels: set<Sentinel>, text: string)

  datatype Answer = Charged(gatewayId: string) | Refused(error: Error)

  const CIRCUIT_OPEN := Refused(Error({CircuitOpen}, "circuit open"))

  /** The default `IsFailure`. */
  predicate Counted(a: Answer) {
    a.Refused? && (Timeout in a.error.sentinels || Server in a.error.sentinels || DeadlineExceeded in a.error.sentinels)
  }

  datatype Mode = Closed | Open | HalfOpen

  datatype Config = Config(failureThreshold: int, successThreshold: int, openTimeout: int)

  /** The configuration after the constructor has replaced non-positive settings. */
  function Normal(c: Config): (r: Config)
    ensures r.failureThreshold > 0 && r.successThreshold > 0 && r.openTimeout > 0
  {
    Config(if c.failureThreshold <= 0 then 5 else c.failureThreshold,
           if c.successThreshold <= 0 then 1 else c.successThreshold,
           if c.openTimeout <= 0 then 2_000_000_000 else c.openTimeout)
  }

  type Settings = c: Config |
      c.failureThreshold > 0 && c.successThreshold > 0 && c.openTimeout > 0 witness Config(5, 1, 1)

  datatype Breaker = Breaker(mode: Mode, failures: int, successes: int, openedAt: int, halfInFlight: bool)

  const NEW_BREAKER := Breaker(Closed, 0, 0, 0, false)

  /** `beforeCall` lets the call through. */
  predicate Admits(c: Settings, b: Breaker, now: int) {
    b.mode == Closed || (b.mode == Open && now - b.openedAt >= c.openTimeout) || (b.mode == HalfOpen && !b.halfInFlight)
  }

  function Before(c: Settings, b: Breaker, now: int): Breaker {
    if b.mode == Open && now - b.openedAt >= c.openTimeout
    then b.(mode := HalfOpen, successes := 0, halfInFlight := true)
    else if b.mode == HalfOpen then b.(halfInFlight := true)
    else b
  }

  /** The breaker after tripping at `now`. */
  function Tripped(b: Breaker, failures: int, now: int): Breaker {
    b.(mode := Open, failures := failures, openedAt := now, successes := 0, halfInFlight := false)
  }

  function AfterCall(c: Settings, b: Breaker, a: Answer, now: int): Breaker {
    match b.mode
    case Closed =>
      if a.Charged? then b.(failures := 0)
      else if !Counted(a) then b
      else if b.failures + 1 >= c.failureThreshold then Tripped(b, b.failures + 1, now)
      else b.(failures := b.failures + 1)
    case Open => b
    case HalfOpen =>
      if a.Charged? then
        if b.successes + 1 >= c.successThreshold
        then b.(mode := Closed, failures := 0, successes := 0, halfInFlight := false)
        else b.(successes := b.successes + 1, halfInFlight := false)
      else if Counted(a) then Tripped(b, c.failureThreshold, now)
      else b.(halfInFlight := false)
  }

  /** The gateway behind the breaker: it answers from a script and counts its calls. */
  class ScriptedGateway {
    const script: seq<Answer>
    var calls: nat

    constructor (script: seq<Answer>)
      ensures this.script == script && calls == 0
    {
      this.script, calls := script, 0;
    }

    method Charge() returns (a: Answer)
      modifies this
      ensures calls == old(calls) + 1 && a == Scripted(script, old(calls))
    {
      a := Scripted(script, calls);
      calls := calls + 1;
    }
  }

  /** The `k`-th answer of a script; past its end, an error that wraps no sentinel. */
  function Scripted(script: seq<Answer>, k: nat): Answer {
    if k < |script| then script[k] else Refused(Error({}, "context canceled"))
  }

  class CircuitBreakerGateway {
    const next: ScriptedGateway
    const cfg: Settings
    var state: Mode
    var failures: int
    var successes: int
    var openedAt: int
    var halfInFlight: bool

    ghost function Contents(): Breaker
      reads this
    {
      Breaker(state, failures, successes, openedAt, halfInFlight)
    }

    constructor (next: ScriptedGateway, cfg: Config)
      ensures this.next == next && Contents() == Breaker(Closed, 0, 0, 0, false)
      ensures this.cfg.failureThreshold == if cfg.failureThreshold <= 0 then 5 else cfg.failureThreshold
      ensures this.cfg.successThreshold == if cfg.successThreshold <= 0 then 1 else cfg.successThreshold
      ensures this.cfg.openTimeout == if cfg.openTimeout <= 0 then 2_000_000_000 else cfg.openTimeout
    {
      this.next, this.cfg := next, Normal(cfg);
      state, failures, successes, openedAt, halfInFlight := Closed, 0, 0, 0, false;
    }

    method BeforeCall(now: int) returns (ok: bool)
      modifies this
      ensures ok <==> Admits(cfg, old(Contents()), now)
      ensures Contents() == Before(cfg, old(Contents()), now)
    {
      if state == Closed {
        return true;
      }
      if state == Open {
        if now - openedAt >= cfg.openTimeout {
          state := HalfOpen;
          successes := 0;
          halfInFlight := false;
        } else {
          return false;
        }
      }
      if halfInFlight {
        return false;
      }
      halfInFlight := true;
      ok := true;
    }

    method After(a: Answer, now: int)
      modifies this
      ensures Contents() == AfterCall(cfg, old(Contents()), a, now)
    {
      if state == HalfOpen {
        halfInFlight := false;
      }
      if a.Charged? {
        match state {
          case Closed => failures := 0;
          case HalfOpen =>
            successes := successes + 1;
            if successes >= cfg.successThreshold {
              state := Closed;
              failures := 0;
              successes := 0;
            }
          case Open =>
        }
        return;
      }
      if !Counted(a) {
        return;
      }
      match state {
        case Closed =>
          failures := failures + 1;
          if failures >= cfg.failureThreshold {
            state := Open;
            openedAt := now;
            successes := 0;
            halfInFlight := false;
          }
        case HalfOpen =>
          state := Open;
          openedAt := now;
          failures := cfg.failureThreshold;
          successes := 0;
          halfInFlight := false;
        case Open =>
      }
    }

    /** One charge of a lone caller: the clock reads `before` on entry and `after` on return. */
    method Charge(before: int, after: int) returns (a: Answer)
      modifies this, next
      ensures Admits(cfg, old(Contents()), before) ==>
                && a == Scripted(next.script, old(next.calls)) && next.calls == old(next.calls) + 1
                && Contents() == AfterCall(cfg, Before(cfg, old(Contents()), before), a, after)
      ensures !Admits(cfg, old(Contents()), before) ==>
                && a == CIRCUIT_OPEN && next.calls == old(next.calls)
                && Contents() == Before(cfg, old(Contents()), before)
    {
      var ok := BeforeCall(before);
      if !ok {
        return CIRCUIT_OPEN;
      }
      a := next.Charge();
      After(a, after);
    }
  }
}
