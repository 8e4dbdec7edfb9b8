/** The per-resource deletion state machine of
    xrally_docker/common/cleanup/manager.py, `SeekAndDestroy._delete_single_resource`,
    with the retry helper it uses.

    The resource's `delete()` and `is_deleted()` are scripted: the n-th
    call's outcome is `deleteOk(n)` / `probe(n)`.  Time is counted in ticks:
    every `is_deleted()` call takes one tick and every sleep `interval`
    ticks; the poll budget starts when the delete request has succeeded. */
module Deletion {
  import opened Wrappers
  import opened Seqs
  import Resources

  /** Outcome of one `is_deleted()` call: True, False, or it raised. */
  datatype Probe = Gone | Present | Broken

  /** Log levels the engine writes at. */
  datatype Level = Debug | Warning | Exception

  /** Scripted behaviour of one resource's `delete()` and `is_deleted()`. */
  datatype Behaviour = Behaviour(deleteOk: nat -> bool, probe: nat -> Probe)

  /** How the attempt on one resource ended. */
  datatype Outcome =
    | Deleted                          // is_deleted() returned True
    | RequestFailed                    // every delete() call raised
    | Unconfirmed                      // polling ended by timeout or by broken checks
    | Raised(error: Resources.Error)   // reading the id or names for the log message raised

  /** Everything observable about one `_delete_single_resource` call. */
  datatype Trace = Trace(deleteCalls: nat, probeCalls: nat, sleeps: nat, elapsed: nat,
                         log: seq<Level>, outcome: Outcome)

  // ---------------------------------------------------------------------
  // rutils.retry(times, f): call f up to `times` times, stop at the first
  // call that returns, re-raise the last error after `times` failures.

  /** Index of the first successful call, if one of the `times` succeeds. */
  function FirstSuccess(ok: nat -> bool, times: nat): Option<nat>
  {
    FirstWhere(ok, 0, times)
  }

  /** Number of calls the retry makes. */
  function RetryCalls(ok: nat -> bool, times: nat): (n: nat)
    ensures n <= times
  {
    match FirstSuccess(ok, times)
    case Some(k) => k + 1
    case None => times
  }

  /** The retry raises only when there was at least one call and all failed;
      with `times` = 0 it makes no call and returns normally. */
  predicate RetryRaises(ok: nat -> bool, times: nat)
  {
    times > 0 && FirstSuccess(ok, times).None?
  }

  method Retry(ok: nat -> bool, times: nat) returns (calls: nat, raised: bool)
    ensures calls == RetryCalls(ok, times)
    ensures raised == RetryRaises(ok, times)
    ensures !raised && calls > 0 ==> ok(calls - 1)
  {
    calls, raised := 0, false;
    while calls < times
      invariant calls <= times
      invariant times == 0 || calls < times
      invariant FirstWhere(ok, calls, times) == FirstSuccess(ok, times)
    {
      if ok(calls) {
        calls := calls + 1;
        return;
      }
      calls := calls + 1;
      if calls == times {
        raised := true;
        return;
      }
    }
  }

  // ---------------------------------------------------------------------
  // The poll loop (manager.py:85-107).

  /** State of the poll loop when it stops. */
  datatype PollResult = PollResult(calls: nat, sleeps: nat, elapsed: nat, failures: nat, confirmed: bool)

  /** The poll loop from a given state: while the elapsed ticks are below the
      timeout, call `is_deleted()`, then sleep.  True ends the loop at once;
      a raise counts a failure and ends the loop once the failures exceed
      `maxAttempts`. */
  function Poll(k: Resources.Kind, probe: nat -> Probe, calls: nat, sleeps: nat, elapsed: nat, failures: nat): PollResult
    decreases k.timeout - elapsed
  {
    if elapsed >= k.timeout then PollResult(calls, sleeps, elapsed, failures, false)
    else
      var p := probe(calls);
      var next := elapsed + 1 + k.interval;
      if p == Gone then PollResult(calls + 1, sleeps + 1, next, failures, true)
      else if p == Broken && failures + 1 > k.maxAttempts then
        PollResult(calls + 1, sleeps + 1, next, failures + 1, false)
      else
        Poll(k, probe, calls + 1, sleeps + 1, next, if p == Broken then failures + 1 else failures)
  }

  /** Number of broken checks among calls [from, to). */
  function BrokenBetween(probe: nat -> Probe, from: nat, to: nat): nat
    decreases to - from
  {
    if from >= to then 0 else (if probe(from) == Broken then 1 else 0) + BrokenBetween(probe, from + 1, to)
  }

  /** What a poll run does, in terms of its calls: a sleep of `interval`
      follows every check; a failure is counted for every broken check and
      for nothing else; the loop ends confirmed exactly when some check
      returned True, and that check is the last one; at most `maxAttempts`+1
      failures accumulate; every check started inside the budget. */
  lemma {:induction false} PollFacts(k: Resources.Kind, probe: nat -> Probe, calls: nat, sleeps: nat, elapsed: nat, failures: nat)
    requires failures <= k.maxAttempts
    ensures var r := Poll(k, probe, calls, sleeps, elapsed, failures);
      && r.calls >= calls
      && r.sleeps - sleeps == r.calls - calls
      && r.elapsed == elapsed + (r.calls - calls) * (1 + k.interval)
      && r.failures == failures + BrokenBetween(probe, calls, r.calls)
      && r.failures <= k.maxAttempts + 1
      && (r.confirmed <==> exists j :: calls <= j < r.calls && probe(j) == Gone)
      && (r.confirmed ==> probe(r.calls - 1) == Gone)
      && (r.calls > calls ==> r.elapsed - (1 + k.interval) < k.timeout)
      && (!r.confirmed && r.failures <= k.maxAttempts ==> r.elapsed >= k.timeout)
    decreases k.timeout - elapsed
  {
    var r := Poll(k, probe, calls, sleeps, elapsed, failures);
    if elapsed < k.timeout {
      var p := probe(calls);
      var next := elapsed + 1 + k.interval;
      assert BrokenBetween(probe, calls + 1, calls + 1) == 0;
      if p == Gone || (p == Broken && failures + 1 > k.maxAttempts) {
        assert r.calls == calls + 1;
      } else {
        var f := if p == Broken then failures + 1 else failures;
        PollFacts(k, probe, calls + 1, sleeps + 1, next, f);
        assert r == Poll(k, probe, calls + 1, sleeps + 1, next, f);
        assert r.elapsed == next + (r.calls - calls - 1) * (1 + k.interval);
        assert (r.calls - calls) * (1 + k.interval) == (1 + k.interval) + (r.calls - calls - 1) * (1 + k.interval);
        if r.confirmed {
          assert probe(r.calls - 1) == Gone;
        }
      }
    }
  }

  // ---------------------------------------------------------------------
  // The whole state machine.

  /** Reads the id and the names that go into the log message; either may
      raise before anything else happens. */
  function MessageFields(r: Resources.Resource): Result<(Resources.Value, Resources.Value), Resources.Error>
  {
    match Resources.Id(r)
    case Failure(e) => Failure(e)
    case Success(id) =>
      match Resources.Names(r)
      case Failure(e) => Failure(e)
      case Success(names) => Success((id, names))
  }

  /** `_delete_single_resource` as a function of the resource, its scripted
      behaviour and whether debug logging is on. */
  function Deletion(r: Resources.Resource, b: Behaviour, debug: bool): Trace
  {
    if MessageFields(r).Failure? then Trace(0, 0, 0, 0, [], Raised(MessageFields(r).error))
    else
      var k := r.kind;
      var calls := RetryCalls(b.deleteOk, k.maxAttempts);
      if RetryRaises(b.deleteOk, k.maxAttempts) then
        Trace(calls, 0, 0, 0, [Debug, if debug then Exception else Warning], RequestFailed)
      else
        var p := Poll(k, b.probe, 0, 0, 0, 0);
        Trace(calls, p.calls, p.sleeps, p.elapsed,
              [Debug] + Repeat(Exception, p.failures) + (if p.confirmed then [] else [Warning]),
              if p.confirmed then Deleted else Unconfirmed)
  }

  method DeleteSingleResource(r: Resources.Resource, b: Behaviour, debug: bool) returns (t: Trace)
    ensures t == Deletion(r, b, debug)
  {
    var fields := MessageFields(r);
    if fields.Failure? {
      return Trace(0, 0, 0, 0, [], Raised(fields.error));
    }
    var log := [Debug];
    var k := r.kind;
    var calls, raised := Retry(b.deleteOk, k.maxAttempts);
    if raised {
      log := log + [if debug then Exception else Warning];
      return Trace(calls, 0, 0, 0, log, RequestFailed);
    }
    ghost var final := Poll(k, b.probe, 0, 0, 0, 0);
    var probes, sleeps, elapsed, failures := 0, 0, 0, 0;
    while elapsed < k.timeout
      invariant Poll(k, b.probe, probes, sleeps, elapsed, failures) == final
      invariant log == [Debug] + Repeat(Exception, failures)
      decreases k.timeout - elapsed
    {
      var p := b.probe(probes);
      probes := probes + 1;
      elapsed := elapsed + 1;
      if p == Gone {
        sleeps, elapsed := sleeps + 1, elapsed + k.interval;   // the `finally` sleep
        assert final == PollResult(probes, sleeps, elapsed, failures, true);
        return Trace(calls, probes, sleeps, elapsed, log, Deleted);
      }
      if p == Broken {
        log := log + [Exception];
        failures := failures + 1;
        assert Repeat(Exception, failures) == Repeat(Exception, failures - 1) + [Exception];
        if failures > k.maxAttempts {
          sleeps, elapsed := sleeps + 1, elapsed + k.interval;
          assert final == PollResult(probes, sleeps, elapsed, failures, false);
          break;
        }
      }
      sleeps, elapsed := sleeps + 1, elapsed + k.interval;
    }
    log := log + [Warning];
    t := Trace(calls, probes, sleeps, elapsed, log, Unconfirmed);
  }

  // ---------------------------------------------------------------------
  // Properties of the poll loop.

  lemma MulSucc(n: nat, step: nat)
    ensures (n + 1) * step == step + n * step
  {
  }

  /** Checks that return False until one returns True, all inside the
      budget: the loop ends confirmed on that check with no failure added. */
  lemma {:induction false} PollReachesGone(k: Resources.Kind, probe: nat -> Probe, calls: nat, sleeps: nat,
                                           elapsed: nat, failures: nat, g: nat)
    requires calls <= g && probe(g) == Gone
    requires forall j :: calls <= j < g ==> probe(j) == Present
    requires elapsed + (g - calls) * (1 + k.interval) < k.timeout
    ensures var r := Poll(k, probe, calls, sleeps, elapsed, failures);
      r.calls == g + 1 && r.confirmed && r.failures == failures
    decreases g - calls
  {
    var step := 1 + k.interval;
    if calls < g {
      var m: nat := g - calls;
      var m': nat := m - 1;
      MulSucc(m', step);
      assert elapsed + step + m' * step < k.timeout;
      assert elapsed < k.timeout && probe(calls) == Present;
      assert Poll(k, probe, calls, sleeps, elapsed, failures)
          == Poll(k, probe, calls + 1, sleeps + 1, elapsed + step, failures);
      PollReachesGone(k, probe, calls + 1, sleeps + 1, elapsed + step, failures, g);
    }
  }

  /** Checks that always raise, with the budget large enough: the loop makes
      exactly enough calls to push the failures past `maxAttempts`. */
  lemma {:induction false} PollAllBroken(k: Resources.Kind, probe: nat -> Probe, calls: nat, sleeps: nat,
                                         elapsed: nat, failures: nat)
    requires failures <= k.maxAttempts
    requires forall j :: calls <= j <= calls + (k.maxAttempts - failures) ==> probe(j) == Broken
    requires elapsed + (k.maxAttempts - failures) * (1 + k.interval) < k.timeout
    ensures var r := Poll(k, probe, calls, sleeps, elapsed, failures);
      r.calls == calls + (k.maxAttempts - failures) + 1 && r.failures == k.maxAttempts + 1 && !r.confirmed
    decreases k.maxAttempts - failures
  {
    if failures < k.maxAttempts {
      MulSucc(k.maxAttempts - (failures + 1), 1 + k.interval);
      PollAllBroken(k, probe, calls + 1, sleeps + 1, elapsed + 1 + k.interval, failures + 1);
    }
  }

  // ---------------------------------------------------------------------
  // Properties of the state machine.

  /** Every delete call raises: `delete()` is called `maxAttempts` times,
      `is_deleted()` never, and exactly one warning (one exception record
      in debug mode) follows the debug line. */
  lemma AllDeletesFail(r: Resources.Resource, b: Behaviour, debug: bool)
    requires MessageFields(r).Success?
    requires r.kind.maxAttempts > 0
    requires forall i :: 0 <= i < r.kind.maxAttempts ==> !b.deleteOk(i)
    ensures var t := Deletion(r, b, debug);
      && t.deleteCalls == r.kind.maxAttempts && t.probeCalls == 0 && t.sleeps == 0
      && t.log == [Debug, if debug then Exception else Warning]
      && t.outcome == RequestFailed
  {
    assert FirstSuccess(b.deleteOk, r.kind.maxAttempts).None?;
  }

  /** The first successful delete is call `k` and checks return False until
      check `g` returns True inside the budget: `delete()` is called k+1
      times, `is_deleted()` g+1 times, and nothing but the debug line is
      logged. */
  lemma DeletedWithoutWarnings(r: Resources.Resource, b: Behaviour, debug: bool, k: nat, g: nat)
    requires MessageFields(r).Success?
    requires k < r.kind.maxAttempts && b.deleteOk(k) && forall i :: 0 <= i < k ==> !b.deleteOk(i)
    requires b.probe(g) == Gone && forall j :: 0 <= j < g ==> b.probe(j) == Present
    requires g * (1 + r.kind.interval) < r.kind.timeout
    ensures var t := Deletion(r, b, debug);
      && t.deleteCalls == k + 1 && t.probeCalls == g + 1
      && t.log == [Debug] && t.outcome == Deleted
  {
    assert FirstSuccess(b.deleteOk, r.kind.maxAttempts) == Some(k);
    PollReachesGone(r.kind, b.probe, 0, 0, 0, 0, g);
  }

  /** The log of a completed poll phase: the debug line, one exception
      record per failure, and a warning when the poll was not confirmed. */
  lemma PollLogCounts(failures: nat, confirmed: bool)
    ensures var log := [Debug] + Repeat(Exception, failures) + (if confirmed then [] else [Warning]);
      && Count(log, Warning) == (if confirmed then 0 else 1)
      && Count(log, Exception) == failures
      && Count(log, Debug) == 1
  {
    var tail: seq<Level> := if confirmed then [] else [Warning];
    forall x: Level ensures Count([Debug] + Repeat(Exception, failures) + tail, x)
                         == Count([Debug], x) + Count(Repeat(Exception, failures), x) + Count(tail, x) {
      CountConcat([Debug], Repeat(Exception, failures), x);
      CountConcat([Debug] + Repeat(Exception, failures), tail, x);
    }
    assert Count([Debug], Warning) == 0 && Count([Debug], Exception) == 0 && Count([Debug], Debug) == 1;
    assert Count([Warning], Warning) == 1 && Count([Warning], Exception) == 0 && Count([Warning], Debug) == 0;
    CountRepeat(Exception, failures, Warning);
    CountRepeat(Exception, failures, Exception);
    CountRepeat(Exception, failures, Debug);
  }

  /** Once the delete request has gone through: one exception record per
      broken check, and exactly one warning when, and only when, polling
      ended without a check returning True (by timeout or by the cap on
      broken checks). */
  lemma WarningIffUnconfirmed(r: Resources.Resource, b: Behaviour, debug: bool)
    requires MessageFields(r).Success?
    requires !RetryRaises(b.deleteOk, r.kind.maxAttempts)
    ensures var t := Deletion(r, b, debug);
      && (t.outcome == Deleted <==> exists j :: 0 <= j < t.probeCalls && b.probe(j) == Gone)
      && t.outcome in {Deleted, Unconfirmed}
      && Count(t.log, Warning) == (if t.outcome == Deleted then 0 else 1)
      && Count(t.log, Exception) == BrokenBetween(b.probe, 0, t.probeCalls)
      && Count(t.log, Debug) == 1
  {
    var p := Poll(r.kind, b.probe, 0, 0, 0, 0);
    PollFacts(r.kind, b.probe, 0, 0, 0, 0);
    PollLogCounts(p.failures, p.confirmed);
  }

  /** `is_deleted()` raises every time and the budget allows
      `maxAttempts`+1 checks: it is called exactly `maxAttempts`+1 times,
      each call is logged as an exception, and one warning closes the
      attempt. */
  lemma BrokenCheckStopsAfterCap(r: Resources.Resource, b: Behaviour, debug: bool)
    requires MessageFields(r).Success?
    requires !RetryRaises(b.deleteOk, r.kind.maxAttempts)
    requires forall j :: 0 <= j <= r.kind.maxAttempts ==> b.probe(j) == Broken
    requires r.kind.maxAttempts * (1 + r.kind.interval) < r.kind.timeout
    ensures var t := Deletion(r, b, debug);
      && t.probeCalls == r.kind.maxAttempts + 1
      && t.log == [Debug] + Repeat(Exception, r.kind.maxAttempts + 1) + [Warning]
      && t.outcome == Unconfirmed
  {
    PollAllBroken(r.kind, b.probe, 0, 0, 0, 0);
  }

  /** A sleep of `interval` follows every `is_deleted()` check, the last
      one included, so the poll phase lasts checks * (1 + interval) ticks;
      the last check starts inside the budget, and a poll that gave up
      without reaching the failure cap has used the whole budget. */
  lemma SleepAfterEveryCheck(r: Resources.Resource, b: Behaviour, debug: bool)
    ensures var t := Deletion(r, b, debug);
      && t.sleeps == t.probeCalls
      && t.elapsed == t.probeCalls * (1 + r.kind.interval)
      && (t.probeCalls > 0 ==> (t.probeCalls - 1) * (1 + r.kind.interval) < r.kind.timeout)
      && (t.outcome == Unconfirmed && BrokenBetween(b.probe, 0, t.probeCalls) <= r.kind.maxAttempts ==>
            t.elapsed >= r.kind.timeout)
  {
    if MessageFields(r).Success? && !RetryRaises(b.deleteOk, r.kind.maxAttempts) {
      PollFacts(r.kind, b.probe, 0, 0, 0, 0);
      var t := Deletion(r, b, debug);
      assert t.probeCalls * (1 + r.kind.interval) == (t.probeCalls - 1) * (1 + r.kind.interval) + (1 + r.kind.interval)
        by { if t.probeCalls > 0 { } }
    }
  }

  // ---------------------------------------------------------------------
  // The three scenarios of the unit tests, with one tick per millisecond.

  const TestRaw: Resources.RawObject := map["Id" := Resources.Str("id"), "Name" := Resources.Str("name")]

  function TestResource(maxAttempts: nat, timeout: nat, interval: nat): Resources.Resource
  {
    Resources.Resource(Resources.Kind("Fake", "fake", 0, timeout, maxAttempts, interval, 1, Resources.NameField),
                       TestRaw, Resources.Client({}))
  }

  /** delete raises, raises, returns; is_deleted False, False, True. */
  lemma RetriedDeleteThenDeleted(debug: bool)
    ensures var t := Deletion(TestResource(3, 10000, 10),
                              Behaviour(i => i >= 2, j => if j < 2 then Present else Gone), debug);
      t.deleteCalls == 3 && t.probeCalls == 3 && t.log == [Debug] && t.outcome == Deleted
  {
    var r := TestResource(3, 10000, 10);
    assert MessageFields(r).Success?;
    DeletedWithoutWarnings(r, Behaviour(i => i >= 2, j => if j < 2 then Present else Gone), debug, 2, 2);
  }

  /** Timeout of 20 ticks, interval of 25: one check, one warning. */
  lemma TimeoutAfterOneCheck(debug: bool)
    ensures var t := Deletion(TestResource(1, 20, 25),
                              Behaviour(i => true, j => if j < 2 then Present else Gone), debug);
      t.deleteCalls == 1 && t.probeCalls == 1 && t.log == [Debug, Warning] && t.outcome == Unconfirmed
  {
    var r := TestResource(1, 20, 25);
    assert MessageFields(r).Success?;
    assert FirstSuccess(i => true, 1) == Some(0);
  }

  /** is_deleted raises every time, maxAttempts 3, interval 0: four checks,
      four exception records, one warning. */
  lemma BrokenCheckFourTimes(debug: bool)
    ensures var t := Deletion(TestResource(3, 10000, 0), Behaviour(i => true, j => Broken), debug);
      && t.deleteCalls == 1 && t.probeCalls == 4
      && Count(t.log, Exception) == 4 && Count(t.log, Warning) == 1
  {
    var r := TestResource(3, 10000, 0);
    var b := Behaviour(i => true, j => Broken);
    assert MessageFields(r).Success?;
    assert FirstSuccess(b.deleteOk, 3) == Some(0);
    BrokenCheckStopsAfterCap(r, b, debug);
    WarningIffUnconfirmed(r, b, debug);
    var t := Deletion(r, b, debug);
    assert BrokenBetween(b.probe, 0, 4) == 4;
  }
}
