/** The circuit breaker in front of the model: credence/modelgw/gateway.py.  Times are in an
    arbitrary unit of the monotonic clock. */
module Breaker {
  import opened Tables

  datatype Circuit = Circuit(threshold: int, reset: int, failures: int, openedAt: Option<int>)

  predicate IsOpen(c: Circuit, now: int) { c.openedAt.Some? && now - c.openedAt.value < c.reset }

  function Failed(c: Circuit, now: int): Circuit {
    var failures := c.failures + 1;
    c.(failures := failures, openedAt := if failures >= c.threshold then Some(now) else c.openedAt)
  }

  function Succeeded(c: Circuit): Circuit { c.(failures := 0, openedAt := None) }

  /** What one request to the model comes to.  Uncaught stands for an exception that neither
      except clause of `_chat` names, such as the TypeError of a body without a message. */
  datatype Attempt = Reply | Transport | Malformed | Uncaught

  datatype Answer = Rejected | Unsent | Answered(attempt: nat) | Unavailable(attempt: nat) | Raised(attempt: nat)

  /** The first attempt that is not a transport error, or the number of attempts. */
  function FirstSettled(attempts: seq<Attempt>): (i: nat)
    ensures i <= |attempts|
    ensures forall k :: 0 <= k < i ==> attempts[k] == Transport
    ensures i < |attempts| ==> attempts[i] != Transport
  {
    if attempts == [] || attempts[0] != Transport then 0 else 1 + FirstSettled(attempts[1..])
  }

  class CircuitBreaker {
    const threshold: int
    const reset: int
    var failures: int
    var openedAt: Option<int>

    function Now(): Circuit
      reads this
    {
      Circuit(threshold, reset, failures, openedAt)
    }

    constructor (threshold: int, reset: int)
      ensures Now() == Circuit(threshold, reset, 0, None)
    {
      this.threshold, this.reset, failures, openedAt := threshold, reset, 0, None;
    }

    /** `before_call`: whether the call may go out. */
    method BeforeCall(now: int) returns (admitted: bool)
      ensures admitted <==> !IsOpen(Now(), now)
    {
      if openedAt.None? {
        return true;
      }
      return now - openedAt.value >= reset;
    }

    method RecordSuccess()
      modifies this
      ensures Now() == Succeeded(old(Now()))
    {
      failures := 0;
      openedAt := None;
    }

    method RecordFailure(now: int)
      modifies this
      ensures Now() == Failed(old(Now()), now)
    {
      failures := failures + 1;
      if failures >= threshold {
        openedAt := Some(now);
      }
    }

    /** `_chat`: only transport errors are retried, a reply closes the circuit, transport errors
        throughout or a malformed reply count as one failure, and an exception that is not caught
        leaves the breaker as it was. */
    method Chat(token: bool, attempts: seq<Attempt>, start: int, end: int) returns (r: Answer)
      modifies this
      ensures Now() == After(old(Now()), Call(start, end, EndingOf(token, attempts)))
      ensures var c, i := old(Now()), FirstSettled(attempts);
        if IsOpen(c, start) then r == Rejected && Now() == c
        else if !token then r == Unsent && Now() == c
        else if i < |attempts| && attempts[i] == Reply then r == Answered(i) && Now() == Succeeded(c)
        else if i < |attempts| && attempts[i] == Uncaught then r == Raised(i) && Now() == c
        else r == Unavailable(i) && Now() == Failed(c, end)
    {
      var admitted := BeforeCall(start);
      if !admitted {
        return Rejected;
      }
      if !token {
        return Unsent;
      }
      var i := 0;
      while i < |attempts| && attempts[i] == Transport
        invariant 0 <= i <= |attempts|
        invariant forall k :: 0 <= k < i ==> attempts[k] == Transport
      {
        i := i + 1;
      }
      if i < |attempts| && attempts[i] == Reply {
        RecordSuccess();
        return Answered(i);
      }
      if i < |attempts| && attempts[i] == Uncaught {
        return Raised(i);
      }
      RecordFailure(end);
      return Unavailable(i);
    }
  }

  // ----- Calls -----

  /** How a call ends once admitted: the model replied, it failed, or the breaker was not told,
      because no token could be minted or an exception was not caught. */
  datatype Ending = Replied | Failing | Uncounted

  function EndingOf(token: bool, attempts: seq<Attempt>): Ending {
    var i := FirstSettled(attempts);
    if !token || (i < |attempts| && attempts[i] == Uncaught) then Uncounted
    else if i < |attempts| && attempts[i] == Reply then Replied
    else Failing
  }

  /** A call that asks at `start` and, when admitted, ends at `end`. */
  datatype Call = Call(start: int, end: int, ending: Ending)

  function After(c: Circuit, call: Call): Circuit {
    if IsOpen(c, call.start) then c
    else
      match call.ending
      case Replied => Succeeded(c)
      case Failing => Failed(c, call.end)
      case Uncounted => c
  }

  function RunCalls(c: Circuit, calls: seq<Call>): Circuit {
    if calls == [] then c else After(RunCalls(c, calls[..|calls| - 1]), calls[|calls| - 1])
  }

  /** The calls of a run that got through and were counted as failures. */
  function Failures(c: Circuit, calls: seq<Call>): seq<Call> {
    if calls == [] then []
    else
      var n := |calls| - 1;
      Failures(c, calls[..n])
      + if calls[n].ending == Failing && !IsOpen(RunCalls(c, calls[..n]), calls[n].start) then [calls[n]] else []
  }

  /** One caller: a call starts after the one before it has ended. */
  predicate OneAtATime(calls: seq<Call>) {
    && (forall i :: 0 <= i < |calls| ==> calls[i].start <= calls[i].end)
    && (forall i, k :: 0 <= i < k < |calls| ==> calls[i].end <= calls[k].start)
  }

  /** Failures in order of time, and a cool-down apart once the threshold is reached. */
  predicate Spread(f: seq<Call>, threshold: int, reset: int) {
    && (forall i :: 0 < i < |f| ==> f[i - 1].end <= f[i].end)
    && (forall i :: 0 < i < |f| && i >= threshold ==> f[i - 1].end + reset <= f[i].end)
  }

  /** The circuit `c` that a streak of failures `f`, over by `until`, has made of `c0`. */
  predicate Streak(c0: Circuit, c: Circuit, f: seq<Call>, until: int) {
    && c.threshold == c0.threshold && c.reset == c0.reset && c.failures == c0.failures + |f|
    && (f != [] && c.failures >= c.threshold ==> c.openedAt == Some(f[|f| - 1].end))
    && (f != [] ==> f[|f| - 1].end <= until)
    && Spread(f, c.threshold, c.reset)
  }

  lemma StreakGoesOn(c0: Circuit, c: Circuit, f: seq<Call>, until: int, call: Call)
    requires c0.failures >= 0 && Streak(c0, c, f, until) && until <= call.start <= call.end && call.ending != Replied
    ensures Streak(c0, After(c, call), f + if call.ending == Failing && !IsOpen(c, call.start) then [call] else [],
                   call.end)
  {
    assert f + [] == f;
  }

  /** Without a reply in between, failures that get through are spread out, whatever the circuit
      was like before. */
  lemma {:induction false} FailuresSpread(c: Circuit, calls: seq<Call>)
    requires c.failures >= 0 && OneAtATime(calls) && forall call :: call in calls ==> call.ending != Replied
    ensures calls != [] ==> Streak(c, RunCalls(c, calls), Failures(c, calls), calls[|calls| - 1].end)
  {
    if calls != [] {
      var n := |calls| - 1;
      FailuresSpread(c, calls[..n]);
      StreakGoesOn(c, RunCalls(c, calls[..n]), Failures(c, calls[..n]),
                   if n == 0 then calls[0].start else calls[n - 1].end, calls[n]);
    }
  }

  lemma {:induction false} SpreadOut(f: seq<Call>, threshold: int, reset: int)
    requires f != [] && threshold >= 1 && reset >= 0
    requires Spread(f, threshold, reset)
    ensures f[|f| - 1].end - f[0].end >= (if |f| > threshold then (|f| - threshold) * reset else 0)
  {
    var n := |f| - 1;
    if n > 0 {
      SpreadOut(f[..n], threshold, reset);
      assert n >= threshold ==> (n + 1 - threshold) * reset == (n - threshold) * reset + reset;
    }
  }

  lemma Quotient(span: int, count: nat, reset: int)
    requires reset > 0 && span >= count * reset
    ensures count <= span / reset
  {
    var q := span / reset;
    assert span == reset * q + span % reset;
    assert q < count ==> reset * q <= reset * (count - 1);
  }

  /** The calls of a run that got through, whatever came of them. */
  function Admitted(c: Circuit, calls: seq<Call>): seq<Call> {
    if calls == [] then []
    else
      var n := |calls| - 1;
      Admitted(c, calls[..n]) + if IsOpen(RunCalls(c, calls[..n]), calls[n].start) then [] else [calls[n]]
  }

  /** No call the breaker is not told about gets through. */
  predicate UncountedBlocked(c: Circuit, calls: seq<Call>) {
    forall k :: 0 <= k < |calls| && calls[k].ending == Uncounted ==> IsOpen(RunCalls(c, calls[..k]), calls[k].start)
  }

  lemma BlockedSplits(c: Circuit, calls: seq<Call>)
    requires calls != []
    ensures var n := |calls| - 1;
      UncountedBlocked(c, calls) <==>
        && UncountedBlocked(c, calls[..n])
        && (calls[n].ending == Uncounted ==> IsOpen(RunCalls(c, calls[..n]), calls[n].start))
  {
    var n := |calls| - 1;
    forall k | 0 <= k < n ensures calls[..n][..k] == calls[..k] && calls[..n][k] == calls[k] {
    }
    if UncountedBlocked(c, calls) {
      forall k | 0 <= k < n && calls[..n][k].ending == Uncounted
        ensures IsOpen(RunCalls(c, calls[..n][..k]), calls[..n][k].start)
      {
        assert calls[k].ending == Uncounted;
      }
    }
    if UncountedBlocked(c, calls[..n]) {
      forall k | 0 <= k < n && calls[k].ending == Uncounted ensures IsOpen(RunCalls(c, calls[..k]), calls[k].start) {
        assert calls[..n][k].ending == Uncounted;
      }
    }
  }

  lemma {:induction false} CountedAreAll(c: Circuit, calls: seq<Call>)
    requires forall call :: call in calls ==> call.ending != Replied
    ensures |Failures(c, calls)| <= |Admitted(c, calls)|
    ensures Admitted(c, calls) == Failures(c, calls) <==> UncountedBlocked(c, calls)
  {
    if calls != [] {
      var n := |calls| - 1;
      assert calls[n] in calls;
      CountedAreAll(c, calls[..n]);
      BlockedSplits(c, calls);
      var a, f := Admitted(c, calls[..n]), Failures(c, calls[..n]);
      assert a + [] == a && f + [] == f;
      assert a + [calls[n]] == f + [calls[n]] ==> a == f by {
        assert a == (a + [calls[n]])[..|a|] && f == (f + [calls[n]])[..|f|];
      }
    }
  }

  /** Between two replies one caller gets at most threshold + floor(T / reset) counted failures
      through in a span of length T; and these are all the calls that get through if and only if no
      call it is not told about does. */
  lemma FailingCallsBounded(c: Circuit, calls: seq<Call>)
    requires c.failures >= 0 && c.threshold >= 1 && c.reset > 0
    requires OneAtATime(calls) && forall call :: call in calls ==> call.ending != Replied
    ensures var f := Failures(c, calls);
      f != [] ==> |f| <= c.threshold + (f[|f| - 1].end - f[0].end) / c.reset
    ensures Admitted(c, calls) == Failures(c, calls) <==> UncountedBlocked(c, calls)
  {
    CountedAreAll(c, calls);
    FailuresSpread(c, calls);
    var f := Failures(c, calls);
    if f != [] {
      SpreadOut(f, c.threshold, c.reset);
      Quotient(f[|f| - 1].end - f[0].end, if |f| > c.threshold then |f| - c.threshold else 0, c.reset);
    }
  }

  /** Calls the breaker is not told about are not bounded: while it is closed they all get
      through, however many there are. */
  lemma {:induction false} UncountedCallsUnbounded(c: Circuit, calls: seq<Call>)
    requires c.openedAt == None && forall call :: call in calls ==> call.ending == Uncounted
    ensures RunCalls(c, calls) == c && Admitted(c, calls) == calls
  {
    if calls != [] {
      var n := |calls| - 1;
      assert calls[n] in calls;
      UncountedCallsUnbounded(c, calls[..n]);
      assert calls == calls[..n] + [calls[n]];
    }
  }

  /** The state a closed circuit with no failures reaches by calls none of which is answered. */
  lemma {:induction false} FailuresCount(c: Circuit, calls: seq<Call>)
    requires c.failures == 0 && c.openedAt == None && c.threshold >= 1
    requires forall call :: call in calls ==> call.ending != Replied
    ensures var f := Failures(c, calls);
      RunCalls(c, calls) == c.(failures := |f|, openedAt := if |f| >= c.threshold then Some(f[|f| - 1].end) else None)
  {
    if |calls| > 0 {
      FailuresCount(c, calls[..|calls| - 1]);
    }
  }

  /** The circuit is open exactly from the threshold-th failure since the last reply on, for the
      cool-down after the latest of them: a reply that gets through forgets every failure before it,
      fewer failures leave it closed, and calls it is not told about do not count. */
  lemma OpenExactlyWhen(c: Circuit, before: seq<Call>, reply: Call, after: seq<Call>, now: int)
    requires c.threshold >= 1 && reply.ending == Replied && !IsOpen(RunCalls(c, before), reply.start)
    requires forall call :: call in after ==> call.ending != Replied
    ensures var closed := Circuit(c.threshold, c.reset, 0, None);
      var f := Failures(closed, after);
      IsOpen(RunCalls(RunCalls(c, before + [reply]), after), now)
      <==> |f| >= c.threshold && now < f[|f| - 1].end + c.reset
  {
    assert (before + [reply])[..|before|] == before;
    RunKeepsSettings(c, before);
    FailuresCount(Circuit(c.threshold, c.reset, 0, None), after);
  }

  lemma {:induction false} RunKeepsSettings(c: Circuit, calls: seq<Call>)
    ensures RunCalls(c, calls).threshold == c.threshold && RunCalls(c, calls).reset == c.reset
  {
    if |calls| > 0 {
      RunKeepsSettings(c, calls[..|calls| - 1]);
    }
  }
}
