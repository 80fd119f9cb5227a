/**
 The circuit breaker shared by any number of concurrent callers. `beforeCall` and `afterCall` are two
 separate atomic steps, so calls admitted in one mode may return in another. The clock never goes back.
 */
module BreakerRuns {
  import opened Gateway

  /** A call in flight: admitted while closed, or as a probe of a half-open episode. */
  datatype Ticket = Plain | Probe(episode: nat)

  /** A call that returned: the mode it found, the mode it left, its answer and when. */
  datatype Return = Return(found: Mode, left: Mode, answer: Answer, at: int)

  datatype State = State(
    breaker: Breaker,
    now: int,
    calls: map<nat, Ticket>,    // calls in flight
    history: seq<Return>,       // every call that returned
    trips: nat,
    episode: nat,               // half-open episodes so far
    earlier: nat,               // calls in flight when the episode began
    admitted: nat,              // calls admitted in the episode
    completed: nat,             // calls of any age that returned in the episode
    late: nat,                  // those of them admitted before it began
    asked: bool)                // a probe was let in since the last return

  datatype Step = Call(id: nat, now: int) | Finish(id: nat, answer: Answer, now: int)

  function Initial(now: int): State {
    State(NEW_BREAKER, now, map[], [], 0, 0, 0, 0, 0, 0, false)
  }

  predicate Enabled(s: State, t: Step) {
    t.now >= s.now && if t.Call? then t.id !in s.calls else t.id in s.calls
  }

  function Next(c: Settings, s: State, t: Step): State
    requires Enabled(s, t)
  {
    match t
    case Call(id, now) =>
      var b := Before(c, s.breaker, now);
      var begun := if s.breaker.mode == Open && b.mode == HalfOpen
                   then s.(episode := s.episode + 1, earlier := |s.calls|, admitted := 0, completed := 0, late := 0)
                   else s;
      var u := begun.(breaker := b, now := now);
      if !Admits(c, s.breaker, now) then u
      else if b.mode == HalfOpen
      then u.(calls := u.calls[id := Probe(u.episode)], admitted := u.admitted + 1, asked := true)
      else u.(calls := u.calls[id := Plain])
    case Finish(id, a, now) =>
      var b := AfterCall(c, s.breaker, a, now);
      var u := s.(breaker := b, now := now, calls := s.calls - {id},
                  history := s.history + [Return(s.breaker.mode, b.mode, a, now)], asked := false,
                  trips := if s.breaker.mode != Open && b.mode == Open then s.trips + 1 else s.trips);
      if s.breaker.mode != HalfOpen then u
      else u.(completed := u.completed + 1, late := if s.calls[id] == Probe(s.episode) then u.late else u.late + 1)
  }

  predicate Reaches(c: Settings, s: State, steps: seq<Step>, t: State)
    decreases |steps|
  {
    if steps == [] then s == t else Enabled(s, steps[0]) && Reaches(c, Next(c, s, steps[0]), steps[1..], t)
  }

  /** The calls in flight that were admitted in the current episode. */
  function Probes(s: State): set<nat> {
    set id | id in s.calls && s.calls[id] == Probe(s.episode)
  }

  /** The other calls in flight. */
  function Stragglers(s: State): set<nat> {
    set id | id in s.calls && s.calls[id] != Probe(s.episode)
  }

  /** A timeout, a 5xx or an exceeded deadline. */
  predicate Failed(a: Answer) {
    a.Refused? && a.error.sentinels * {Timeout, Server, DeadlineExceeded} != {}
  }

  lemma FailedIsCounted(a: Answer)
    ensures Failed(a) <==> Counted(a)
  {
    if a.Refused? {
      var wrapped := a.error.sentinels * {Timeout, Server, DeadlineExceeded};
      if Counted(a) {
        assert Timeout in wrapped || Server in wrapped || DeadlineExceeded in wrapped;
      }
      if wrapped != {} {
        var x :| x in wrapped;
      }
    }
  }

  /** Failed returns found closed since the last charged return found closed and since the last closing. */
  function Failures(h: seq<Return>): nat {
    if h == [] then 0
    else
      var r := h[|h| - 1];
      if r.found == Closed && r.answer.Charged? then 0
      else if r.found == HalfOpen && r.left == Closed then 0
      else Failures(h[..|h| - 1]) + if r.found == Closed && Failed(r.answer) then 1 else 0
  }

  /** The counters agree with the history of returned calls. */
  predicate Counters(c: Settings, s: State) {
    && (s.breaker.mode == Closed ==>
        s.breaker.failures == Failures(s.history) && s.breaker.failures < c.failureThreshold)
    && (s.breaker.mode != Closed ==> s.breaker.failures == c.failureThreshold)
    && (s.breaker.halfInFlight ==> s.breaker.mode == HalfOpen)
    && (s.breaker.mode == HalfOpen ==> 0 <= s.breaker.successes < c.successThreshold)
    && (s.breaker.mode != HalfOpen ==> s.breaker.successes == 0)
  }

  predicate Episode(s: State) {
    && (forall id :: id in s.calls && s.calls[id].Probe? ==> s.calls[id].episode <= s.episode)
    && (s.breaker.mode == HalfOpen ==>
          && |Probes(s)| + s.completed == s.admitted + s.late
          && s.admitted <= s.completed + (if s.breaker.halfInFlight then 1 else 0)
          && s.late + |Stragglers(s)| == s.earlier)
  }

  predicate Timing(c: Settings, start: int, s: State) {
    && start <= s.now
    && (s.trips == 0 ==> s.breaker.mode == Closed)
    && (s.trips > 0 ==>
          && start + (s.trips - 1) * c.openTimeout <= s.breaker.openedAt <= s.now
          && (s.breaker.mode != Open ==> s.breaker.openedAt + c.openTimeout <= s.now))
  }

  lemma {:induction false} StepCounters(c: Settings, s: State, t: Step)
    requires Counters(c, s) && Enabled(s, t)
    ensures Counters(c, Next(c, s, t))
  {
    if t.Finish? {
      assert Next(c, s, t).history[..|s.history|] == s.history;
      FailedIsCounted(t.answer);
    }
  }

  /** A probe joins the probes of its episode. */
  lemma {:induction false} Joining(s: State, id: nat, u: State)
    requires id !in s.calls && u.calls == s.calls[id := Probe(s.episode)] && u.episode == s.episode
    ensures |Probes(u)| == |Probes(s)| + 1 && |Stragglers(u)| == |Stragglers(s)|
  {
    assert Probes(u) == Probes(s) + {id};
    assert Stragglers(u) == Stragglers(s);
  }

  /** A new episode starts with its first probe; every earlier call is a straggler. */
  lemma {:induction false} Beginning(s: State, id: nat, u: State)
    requires id !in s.calls && u.calls == s.calls[id := Probe(u.episode)] && u.episode == s.episode + 1
    requires forall x :: x in s.calls && s.calls[x].Probe? ==> s.calls[x].episode <= s.episode
    ensures |Probes(u)| == 1 && |Stragglers(u)| == |s.calls|
  {
    assert Probes(u) == {id};
    assert Stragglers(u) == s.calls.Keys;
  }

  lemma {:induction false} CallEpisode(c: Settings, s: State, t: Step)
    requires Counters(c, s) && Episode(s) && Enabled(s, t) && t.Call?
    ensures Episode(Next(c, s, t))
  {
    var u := Next(c, s, t);
    if u.breaker.mode == HalfOpen {
      if s.breaker.mode == Open {
        Beginning(s, t.id, u);
      } else if Admits(c, s.breaker, t.now) {
        Joining(s, t.id, u);
      } else {
        assert u.calls == s.calls;
        assert Probes(u) == Probes(s) && Stragglers(u) == Stragglers(s);
      }
    }
  }

  /** A call leaves the probes or the stragglers, and only those. */
  lemma {:induction false} Leaving(s: State, id: nat, u: State)
    requires id in s.calls && u.calls == s.calls - {id} && u.episode == s.episode
    ensures |Probes(u)| == |Probes(s)| - if s.calls[id] == Probe(s.episode) then 1 else 0
    ensures |Stragglers(u)| == |Stragglers(s)| - if s.calls[id] == Probe(s.episode) then 0 else 1
  {
    assert Probes(u) == Probes(s) - {id};
    assert Stragglers(u) == Stragglers(s) - {id};
  }

  lemma {:induction false} FinishEpisode(c: Settings, s: State, t: Step)
    requires Counters(c, s) && Episode(s) && Enabled(s, t) && t.Finish?
    ensures Episode(Next(c, s, t))
  {
    Leaving(s, t.id, Next(c, s, t));
  }

  lemma {:induction false} StepEpisode(c: Settings, s: State, t: Step)
    requires Counters(c, s) && Episode(s) && Enabled(s, t)
    ensures Episode(Next(c, s, t))
  {
    if t.Call? { CallEpisode(c, s, t); } else { FinishEpisode(c, s, t); }
  }

  lemma StepTiming(c: Settings, start: int, s: State, t: Step)
    requires Timing(c, start, s) && Enabled(s, t)
    ensures Timing(c, start, Next(c, s, t))
  {
  }

  lemma {:induction false} RunInvariants(c: Settings, start: int, s: State, steps: seq<Step>, t: State)
    requires Reaches(c, s, steps, t)
    requires Counters(c, s) && Episode(s) && Timing(c, start, s)
    ensures Counters(c, t) && Episode(t) && Timing(c, start, t)
    decreases |steps|
  {
    if steps == [] {
    } else {
      StepCounters(c, s, steps[0]);
      StepEpisode(c, s, steps[0]);
      StepTiming(c, start, s, steps[0]);
      RunInvariants(c, start, Next(c, s, steps[0]), steps[1..], t);
    }
  }

  /**
   In every reachable state the counters refine the history: closed means fewer counted failures than
   the threshold since the last success or closing; open and half-open mean exactly the threshold; a
   probe flag means half-open.
   */
  lemma CountersRefineHistory(c: Settings, start: int, steps: seq<Step>, t: State)
    requires Reaches(c, Initial(start), steps, t)
    ensures t.breaker.mode == Closed ==> t.breaker.failures == Failures(t.history) < c.failureThreshold
    ensures t.breaker.mode != Closed ==> t.breaker.failures == c.failureThreshold
    ensures t.breaker.halfInFlight ==> t.breaker.mode == HalfOpen
  {
    RunInvariants(c, start, Initial(start), steps, t);
  }

  /**
   Within one half-open episode at most one more call is admitted than returns, so the episode's calls
   in flight exceed by at most one the returns of calls admitted before it began; when no such call was
   outstanding there is at most one probe.
   */
  lemma ProbesAreBounded(c: Settings, start: int, steps: seq<Step>, t: State)
    requires Reaches(c, Initial(start), steps, t) && t.breaker.mode == HalfOpen
    ensures t.admitted <= 1 + t.completed
    ensures |Probes(t)| <= 1 + t.late <= 1 + t.earlier
    ensures t.earlier == 0 ==> |Probes(t)| <= 1
  {
    RunInvariants(c, start, Initial(start), steps, t);
  }

  /**
   No call is admitted before `openTimeout` has passed since the last trip, so a run of length T trips
   at most 1 + T / openTimeout times.
   */
  lemma TripsAreSpaced(c: Settings, start: int, steps: seq<Step>, t: State)
    requires Reaches(c, Initial(start), steps, t)
    ensures forall now :: now >= t.now && t.trips > 0 && Admits(c, t.breaker, now) ==>
              now >= t.breaker.openedAt + c.openTimeout
    ensures t.trips <= 1 + (t.now - start) / c.openTimeout
  {
    RunInvariants(c, start, Initial(start), steps, t);
    if t.trips > 0 {
      QuotientBound(t.trips - 1, c.openTimeout, t.now - start);
    }
  }

  lemma MulMonotone(a: int, b: int, d: int)
    requires a <= b && d > 0
    ensures a * d <= b * d
  {
  }

  lemma QuotientBound(k: nat, d: int, x: int)
    requires d > 0 && k * d <= x
    ensures k <= x / d
  {
    var q := x / d;
    assert x < (q + 1) * d;
    if q < k {
      MulMonotone(q + 1, k, d);
    }
  }

  lemma {:induction false} OneMoreStep(c: Settings, s: State, steps: seq<Step>, t: State, step: Step)
    requires Reaches(c, s, steps, t) && Enabled(t, step)
    ensures Reaches(c, s, steps + [step], Next(c, t, step))
    decreases |steps|
  {
    var longer := steps + [step];
    if steps == [] {
      assert longer[1..] == [];
    } else {
      OneMoreStep(c, Next(c, s, steps[0]), steps[1..], t, step);
      assert longer[0] == steps[0] && longer[1..] == steps[1..] + [step];
    }
  }

  const TIGHT: Settings := Config(1, 1, 10)
  const FAILED := Refused(Error({Server}, "gateway 5xx"))
  const REJECTED := Refused(Error({Client}, "gateway 4xx"))

  /** Two calls admitted while closed; the first fails and trips the breaker, the second is still out. */
  lemma {:induction false} TrippedWithAStraggler() returns (steps: seq<Step>, t: State)
    ensures Reaches(TIGHT, Initial(0), steps, t)
    ensures t.breaker == Breaker(Open, 1, 0, 0, false) && t.now == 0 && t.calls == map[2 := Plain] && t.episode == 0
  {
    var s0 := Initial(0);
    var s1 := Next(TIGHT, s0, Call(1, 0));
    OneMoreStep(TIGHT, s0, [], s0, Call(1, 0));
    var s2 := Next(TIGHT, s1, Call(2, 0));
    OneMoreStep(TIGHT, s0, [] + [Call(1, 0)], s1, Call(2, 0));
    t := Next(TIGHT, s2, Finish(1, FAILED, 0));
    OneMoreStep(TIGHT, s0, [] + [Call(1, 0)] + [Call(2, 0)], s2, Finish(1, FAILED, 0));
    steps := [] + [Call(1, 0)] + [Call(2, 0)] + [Finish(1, FAILED, 0)];
  }

  /** After the timeout a probe goes out while the straggler is still in flight. */
  lemma {:induction false} ProbingWithAStraggler() returns (steps: seq<Step>, t: State)
    ensures Reaches(TIGHT, Initial(0), steps, t)
    ensures t.breaker == Breaker(HalfOpen, 1, 0, 0, true) && t.now == 10 && t.calls == map[2 := Plain, 3 := Probe(1)]
            && t.episode == 1
  {
    var first, s3 := TrippedWithAStraggler();
    OneMoreStep(TIGHT, Initial(0), first, s3, Call(3, 10));
    steps, t := first + [Call(3, 10)], Next(TIGHT, s3, Call(3, 10));
  }

  /** The bound is reached: the straggler returns during the episode and lets a second probe in. */
  lemma {:induction false} StragglerAdmitsASecondProbe()
    ensures exists steps, t :: Reaches(TIGHT, Initial(0), steps, t) && t.breaker.mode == HalfOpen && |Probes(t)| == 2
  {
    var steps, s4 := ProbingWithAStraggler();
    var s5 := Next(TIGHT, s4, Finish(2, REJECTED, 10));
    OneMoreStep(TIGHT, Initial(0), steps, s4, Finish(2, REJECTED, 10));
    assert s5.breaker == Breaker(HalfOpen, 1, 0, 0, false) && s5.calls == map[3 := Probe(1)];
    var s6 := Next(TIGHT, s5, Call(4, 10));
    OneMoreStep(TIGHT, Initial(0), steps + [Finish(2, REJECTED, 10)], s5, Call(4, 10));
    assert Probes(s6) == {3, 4};
  }
}
