/**
 What the circuit breaker does, told by the history of the calls that returned: which return trips it,
 which closes it, and when the next call is let in. Answers are told apart by the sentinels they wrap.
 */
module BreakerHistory {
  import opened Gateway
  import opened BreakerRuns

  /** Charged returns found half-open since the last trip. */
  function Successes(h: seq<Return>): nat {
    if h == [] || h[|h| - 1].left == Open then 0
    else Successes(h[..|h| - 1]) + if h[|h| - 1].found == HalfOpen && h[|h| - 1].answer.Charged? then 1 else 0
  }

  /** When the breaker last tripped. */
  function TrippedAt(h: seq<Return>): int {
    if h == [] then 0
    else
      var r := h[|h| - 1];
      if r.found != Open && r.left == Open then r.at else TrippedAt(h[..|h| - 1])
  }

  /** The mode the last return left; a breaker starts closed. */
  function Left(h: seq<Return>): Mode {
    if h == [] then Closed else h[|h| - 1].left
  }

  /**
   The mode a return leaves, given the history before it: half-open, the success that reaches the threshold
   closes and a failure trips; closed, the failure that reaches the threshold trips; nothing else changes it.
   */
  predicate Lawful(c: Settings, h: seq<Return>, r: Return) {
    && (r.left == Closed <==>
          || (r.found == HalfOpen && r.answer.Charged? && Successes(h) + 1 == c.successThreshold)
          || (r.found == Closed && !(Failed(r.answer) && Failures(h) + 1 == c.failureThreshold)))
    && (r.left == Open <==>
          || r.found == Open
          || (r.found == HalfOpen && Failed(r.answer))
          || (r.found == Closed && Failed(r.answer) && Failures(h) + 1 == c.failureThreshold))
    // what it finds is what the return before it left, or half-open after an open one
    && (r.found == Left(h) || (r.found == HalfOpen && Left(h) == Open))
  }

  predicate AllLawful(c: Settings, h: seq<Return>) {
    forall k :: 0 <= k < |h| ==> Lawful(c, h[..k], h[k])
  }

  /** The breaker's fields are what the history says. */
  predicate Tells(c: Settings, h: seq<Return>, b: Breaker) {
    && (b.mode == Left(h) || (b.mode == HalfOpen && Left(h) == Open))
    && (b.mode == Closed ==> b.failures == Failures(h) < c.failureThreshold)
    && (b.mode == HalfOpen ==> b.successes == Successes(h) < c.successThreshold)
    && (b.mode == Open ==> b.openedAt == TrippedAt(h))
    && (b.halfInFlight ==> b.mode == HalfOpen)
  }

  predicate Told(c: Settings, s: State) {
    AllLawful(c, s.history) && Tells(c, s.history, s.breaker) && s.breaker.halfInFlight == s.asked
  }

  lemma HistoryGrows(c: Settings, h: seq<Return>, r: Return)
    requires AllLawful(c, h) && Lawful(c, h, r)
    ensures AllLawful(c, h + [r])
  {
    var longer := h + [r];
    forall k | 0 <= k < |longer| ensures Lawful(c, longer[..k], longer[k]) {
      if k < |h| {
        assert longer[..k] == h[..k];
      } else {
        assert longer[..k] == h;
      }
    }
  }

  lemma OneMoreReturn(h: seq<Return>, r: Return)
    ensures Left(h + [r]) == r.left
    ensures Successes(h + [r])
            == if r.left == Open then 0 else Successes(h) + if r.found == HalfOpen && r.answer.Charged? then 1 else 0
    ensures Failures(h + [r])
            == if (r.found == Closed && r.answer.Charged?) || (r.found == HalfOpen && r.left == Closed) then 0
               else Failures(h) + if r.found == Closed && Failed(r.answer) then 1 else 0
    ensures TrippedAt(h + [r]) == if r.found != Open && r.left == Open then r.at else TrippedAt(h)
  {
    assert (h + [r])[..|h|] == h;
  }

  /** One return, whatever was found. */
  lemma {:induction false} ReturnTells(c: Settings, h: seq<Return>, b: Breaker, a: Answer, now: int)
    requires Tells(c, h, b)
    ensures var r := Return(b.mode, AfterCall(c, b, a, now).mode, a, now);
            Lawful(c, h, r) && Tells(c, h + [r], AfterCall(c, b, a, now)) && !AfterCall(c, b, a, now).halfInFlight
  {
    FailedIsCounted(a);
    OneMoreReturn(h, Return(b.mode, AfterCall(c, b, a, now).mode, a, now));
  }

  lemma {:induction false} FinishTold(c: Settings, s: State, t: Step)
    requires Told(c, s) && Enabled(s, t) && t.Finish?
    ensures Told(c, Next(c, s, t))
  {
    ReturnTells(c, s.history, s.breaker, t.answer, t.now);
    HistoryGrows(c, s.history, Return(s.breaker.mode, AfterCall(c, s.breaker, t.answer, t.now).mode, t.answer, t.now));
  }

  lemma {:induction false} CallTold(c: Settings, s: State, t: Step)
    requires Told(c, s) && Enabled(s, t) && t.Call?
    ensures Told(c, Next(c, s, t))
  {
  }

  lemma {:induction false} RunTold(c: Settings, s: State, steps: seq<Step>, t: State)
    requires Told(c, s) && Reaches(c, s, steps, t)
    ensures Told(c, t)
    decreases |steps|
  {
    if steps == [] {
    } else {
      if steps[0].Call? { CallTold(c, s, steps[0]); } else { FinishTold(c, s, steps[0]); }
      RunTold(c, Next(c, s, steps[0]), steps[1..], t);
    }
  }

  /**
   In every run, for any number of concurrent callers, every return leaves the mode that the history before
   it calls for.
   */
  lemma {:induction false} EveryReturnIsLawful(c: Settings, start: int, steps: seq<Step>, t: State)
    requires Reaches(c, Initial(start), steps, t)
    ensures AllLawful(c, t.history)
    ensures t.breaker.mode == HalfOpen ==> t.breaker.successes == Successes(t.history)
    ensures t.breaker.mode == Closed ==> t.breaker.failures == Failures(t.history)
  {
    RunTold(c, Initial(start), steps, t);
  }

  /**
   In every reachable state a call is let in exactly when the breaker is closed; or open, and the timeout
   has passed since the return that tripped it; or half-open with no probe let in since the last return.
   It is then a probe unless the breaker is closed; a call that is not let in changes nothing.
   */
  lemma {:induction false} CallsAreLetInExactlyWhen(c: Settings, start: int, steps: seq<Step>, t: State, id: nat,
                                                    now: int)
    requires Reaches(c, Initial(start), steps, t) && Enabled(t, Call(id, now))
    ensures var u := Next(c, t, Call(id, now));
            var due := t.breaker.mode == Open && now >= TrippedAt(t.history) + c.openTimeout;
            && (id in u.calls <==>
                  t.breaker.mode == Closed || due || (t.breaker.mode == HalfOpen && !t.asked))
            && (id in u.calls ==>
                  && u.breaker.mode == (if t.breaker.mode == Closed then Closed else HalfOpen)
                  && u.calls[id] == (if t.breaker.mode == Closed then Plain else Probe(u.episode))
                  && u.asked == (t.breaker.mode != Closed))
            && (id !in u.calls ==> u == t.(now := now))
  {
    RunTold(c, Initial(start), steps, t);
  }
}
