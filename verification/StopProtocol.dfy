/** The SIGTERM then SIGKILL stop sequence for a registered daemon (litehive/daemon/termination.py). */
module StopProtocol {

  datatype Signal = Sigterm | Sigkill

  datatype Delivery = Delivered | NoSuchProcess | Forbidden

  /** What the protocol does to or learns from the host, in order. */
  datatype Event =
    | Probe(alive: bool)
    | Kill(signal: Signal, delivery: Delivery, at: real)
    | Sleep(seconds: real)
    | Unregister

  datatype Outcome = Stopped | SignalRefused | StillAlive

  datatype DaemonConfig = DaemonConfig(stopGracePeriod: real, forceKillTimeout: real, exitPollInterval: real)

  /** Config loading rejects non-positive daemon timings. */
  predicate Positive(config: DaemonConfig) {
    config.stopGracePeriod > 0.0 && config.forceKillTimeout > 0.0 && config.exitPollInterval > 0.0
  }

  /** The ceiling of timeout over poll: the least number of polls that covers the timeout. */
  function Polls(timeout: real, poll: real): (n: nat)
    requires poll > 0.0
    ensures timeout <= 0.0 ==> n == 0
    ensures timeout > 0.0 ==> timeout / poll <= n as real < timeout / poll + 1.0
  {
    if timeout <= 0.0 then 0
    else
      var q := timeout / poll;
      assert q >= 0.0;
      if q.Floor as real == q then q.Floor else q.Floor + 1
  }

  /** The time that many full polls take. */
  function Span(k: nat, poll: real): real {
    k as real * poll
  }

  lemma SpanGrows(k: nat, poll: real)
    ensures Span(0, poll) == 0.0 && Span(k + 1, poll) == Span(k, poll) + poll
  {
  }

  lemma PollsCover(k: nat, timeout: real, poll: real)
    requires poll > 0.0
    requires Span(k, poll) < timeout
    ensures k < Polls(timeout, poll)
  {
    var q := timeout / poll;
    assert q * poll == timeout;
    Cancel(k as real, q, poll);
  }

  lemma Cancel(a: real, b: real, factor: real)
    requires factor > 0.0 && a * factor < b * factor
    ensures a < b
  {}

  // ----- traces -------------------------------------------------------------------------

  function Sleeps(t: seq<Event>): nat {
    if t == [] then 0 else Sleeps(t[..|t| - 1]) + if t[|t| - 1].Sleep? then 1 else 0
  }

  function Clears(t: seq<Event>): nat {
    if t == [] then 0 else Clears(t[..|t| - 1]) + if t[|t| - 1].Unregister? then 1 else 0
  }

  /** Rounds of seeing the process alive and sleeping at most one interval. */
  predicate PollTrace(t: seq<Event>, poll: real) {
    t == [] || (
      var n := |t|;
      && n >= 2
      && t[n - 2] == Probe(true)
      && t[n - 1].Sleep? && 0.0 < t[n - 1].seconds <= poll
      && PollTrace(t[..n - 2], poll))
  }

  /** Such rounds, then the probe that ends the wait. */
  predicate WaitTrace(t: seq<Event>, poll: real, gone: bool) {
    t != [] && t[|t| - 1] == Probe(!gone) && PollTrace(t[..|t| - 1], poll)
  }

  predicate Sent(e: Event, signal: Signal, delivery: Delivery) {
    e.Kill? && e.signal == signal && e.delivery == delivery
  }

  /** One signal that was enough: the process was seen gone and then unregistered. */
  predicate GoneTrace(t: seq<Event>, signal: Signal, poll: real) {
    || t == [Probe(false), Unregister]
    || (|t| == 3 && t[0] == Probe(true) && Sent(t[1], signal, NoSuchProcess) && t[2] == Unregister)
    || (&& |t| >= 3 && t[0] == Probe(true) && Sent(t[1], signal, Delivered) && t[|t| - 1] == Unregister
        && WaitTrace(t[2..|t| - 1], poll, true))
  }

  /** One delivered signal the process outlived. */
  predicate OutlivedTrace(t: seq<Event>, signal: Signal, poll: real) {
    |t| >= 2 && t[0] == Probe(true) && Sent(t[1], signal, Delivered) && WaitTrace(t[2..], poll, false)
  }

  predicate RefusedTrace(t: seq<Event>, signal: Signal) {
    |t| == 2 && t[0] == Probe(true) && Sent(t[1], signal, Forbidden)
  }

  /** A process is given up only when, at the end, the whole timeout has passed since its SIGKILL. */
  predicate ForceTrace(t: seq<Event>, poll: real, timeout: real, end: real, outcome: Outcome) {
    match outcome
    case Stopped => GoneTrace(t, Sigkill, poll)
    case SignalRefused => RefusedTrace(t, Sigkill)
    case StillAlive => OutlivedTrace(t, Sigkill, poll) && end >= t[1].at + timeout
  }

  /** No signal of the trace was sent before this time. */
  predicate SignalsFrom(t: seq<Event>, time: real) {
    forall i :: 0 <= i < |t| && t[i].Kill? ==> t[i].at >= time
  }

  /** The first signal was outlived for the whole grace period, and force followed. */
  predicate EscalatedTrace(
    a: seq<Event>, b: seq<Event>, poll: real, grace: real, timeout: real, end: real, outcome: Outcome)
  {
    OutlivedTrace(a, Sigterm, poll) && ForceTrace(b, poll, timeout, end, outcome) && SignalsFrom(b, a[1].at + grace)
  }

  /** SIGTERM was enough or could not be sent, or it was outlived and force followed. */
  predicate StopTrace(t: seq<Event>, config: DaemonConfig, end: real, outcome: Outcome) {
    || (outcome == Stopped && GoneTrace(t, Sigterm, config.exitPollInterval))
    || (outcome == SignalRefused && RefusedTrace(t, Sigterm))
    || exists k | 0 <= k <= |t| :: Escalated(t[..k], t[k..], config, end, outcome)
  }

  predicate Escalated(a: seq<Event>, b: seq<Event>, config: DaemonConfig, end: real, outcome: Outcome) {
    EscalatedTrace(a, b, config.exitPollInterval, config.stopGracePeriod, config.forceKillTimeout, end, outcome)
  }

  lemma {:induction false} SleepsOfConcat(a: seq<Event>, b: seq<Event>)
    ensures Sleeps(a + b) == Sleeps(a) + Sleeps(b)
    ensures Clears(a + b) == Clears(a) + Clears(b)
  {
    if b == [] {
      assert a + b == a;
    } else {
      var n := |b| - 1;
      SleepsOfConcat(a, b[..n]);
      assert (a + b)[..|a| + n] == a + b[..n];
    }
  }

  lemma OneEvent(e: Event)
    ensures Sleeps([e]) == if e.Sleep? then 1 else 0
    ensures Clears([e]) == if e.Unregister? then 1 else 0
  {
    assert [e][..0] == [];
  }

  lemma TwoEvents(d: Event, e: Event)
    ensures Sleeps([d, e]) == Sleeps([d]) + Sleeps([e])
    ensures Clears([d, e]) == Clears([d]) + Clears([e])
  {
    SleepsOfConcat([d], [e]);
    assert [d] + [e] == [d, e];
  }

  lemma NothingYet(poll: real)
    ensures PollTrace([], poll) && Sleeps([]) == 0
  {}

  lemma PollAgain(done: seq<Event>, poll: real, pause: real)
    requires PollTrace(done, poll) && 0.0 < pause <= poll
    ensures PollTrace(done + [Probe(true), Sleep(pause)], poll)
    ensures Sleeps(done + [Probe(true), Sleep(pause)]) == Sleeps(done) + 1
  {
    var t := done + [Probe(true), Sleep(pause)];
    assert t[..|t| - 2] == done;
    SleepsOfConcat(done, [Probe(true), Sleep(pause)]);
    TwoEvents(Probe(true), Sleep(pause));
    OneEvent(Probe(true));
    OneEvent(Sleep(pause));
  }

  lemma WaitEnds(done: seq<Event>, poll: real, alive: bool)
    requires PollTrace(done, poll)
    ensures WaitTrace(done + [Probe(alive)], poll, !alive)
    ensures Sleeps(done + [Probe(alive)]) == Sleeps(done)
  {
    var t := done + [Probe(alive)];
    assert t[..|t| - 1] == done;
  }

  /** A delivered signal, the wait after it, and the unregistering when the wait saw the process go. */
  lemma SignalThenWait(signal: Signal, at: real, waited: seq<Event>, poll: real, gone: bool)
    requires WaitTrace(waited, poll, gone)
    ensures
      var t := [Probe(true), Kill(signal, Delivered, at)] + waited;
      && Sleeps(t) == Sleeps(t + [Unregister]) == Sleeps(waited)
      && (if gone then GoneTrace(t + [Unregister], signal, poll) else OutlivedTrace(t, signal, poll))
  {
    var t := [Probe(true), Kill(signal, Delivered, at)] + waited;
    assert t[2..] == waited;
    assert (t + [Unregister])[2..|t|] == waited;
    SleepsOfConcat([Probe(true), Kill(signal, Delivered, at)], waited);
    SleepsOfConcat(t, [Unregister]);
    OneEvent(Unregister);
    OneEvent(Probe(true));
    OneEvent(Kill(signal, Delivered, at));
    TwoEvents(Probe(true), Kill(signal, Delivered, at));
  }

  lemma ShortTraces(signal: Signal, delivery: Delivery, at: real)
    ensures Sleeps([Probe(false), Unregister]) == 0
    ensures Sleeps([Probe(true), Kill(signal, delivery, at)]) == 0
    ensures Sleeps([Probe(true), Kill(signal, delivery, at), Unregister]) == 0
    ensures Clears([Probe(false), Unregister]) == 1
    ensures Clears([Probe(true), Kill(signal, delivery, at)]) == 0
    ensures Clears([Probe(true), Kill(signal, delivery, at), Unregister]) == 1
  {
    TwoEvents(Probe(false), Unregister);
    TwoEvents(Probe(true), Kill(signal, delivery, at));
    OneEvent(Probe(false));
    OneEvent(Probe(true));
    OneEvent(Unregister);
    OneEvent(Kill(signal, delivery, at));
    SleepsOfConcat([Probe(true), Kill(signal, delivery, at)], [Unregister]);
    assert [Probe(true), Kill(signal, delivery, at)] + [Unregister] ==
      [Probe(true), Kill(signal, delivery, at), Unregister];
  }

  // ----- what a trace of the protocol tells ---------------------------------------------

  lemma {:induction false} WaitingClearsNothing(t: seq<Event>, poll: real)
    requires PollTrace(t, poll)
    ensures Clears(t) == 0
    ensures forall i :: 0 <= i < |t| ==> t[i].Probe? || t[i].Sleep?
  {
    if t != [] {
      var n := |t|;
      WaitingClearsNothing(t[..n - 2], poll);
      assert t[..n - 1][..n - 2] == t[..n - 2];
    }
  }

  lemma WaitClearsNothing(t: seq<Event>, poll: real, gone: bool)
    requires WaitTrace(t, poll, gone)
    ensures Clears(t) == 0 && t != [] && t[|t| - 1] == Probe(!gone)
    ensures forall i :: 0 <= i < |t| ==> t[i].Probe? || t[i].Sleep?
  {
    WaitingClearsNothing(t[..|t| - 1], poll);
  }

  /** The last thing learned before unregistering is that the process is gone. */
  predicate SeenGone(e: Event) {
    e == Probe(false) || (e.Kill? && e.delivery == NoSuchProcess)
  }

  lemma GoneClearsOnce(t: seq<Event>, signal: Signal, poll: real)
    requires GoneTrace(t, signal, poll)
    ensures Clears(t) == 1 && |t| >= 2 && t[|t| - 1] == Unregister && SeenGone(t[|t| - 2])
    ensures forall i :: 0 <= i < |t| && t[i].Kill? ==> t[i].signal == signal && i == 1 && t[0] == Probe(true)
  {
    hide Clears, Sleeps, WaitTrace;
    if t == [Probe(false), Unregister] {
      ShortTraces(signal, NoSuchProcess, 0.0);
    } else if Sent(t[1], signal, NoSuchProcess) {
      ShortTraces(signal, NoSuchProcess, t[1].at);
      assert t == [Probe(true), Kill(signal, NoSuchProcess, t[1].at), Unregister];
    } else {
      var n, waited, start := |t| - 1, t[2..|t| - 1], [Probe(true), Kill(signal, Delivered, t[1].at)];
      WaitClearsNothing(waited, poll, true);
      assert t == start + waited + [Unregister];
      ShortTraces(signal, Delivered, t[1].at);
      OneEvent(Unregister);
      SleepsOfConcat(start, waited);
      SleepsOfConcat(start + waited, [Unregister]);
      assert t[n - 1] == waited[|waited| - 1];
      assert forall i :: 2 <= i < n ==> t[i] == waited[i - 2];
    }
  }

  lemma OutlivedClearsNothing(t: seq<Event>, signal: Signal, poll: real)
    requires OutlivedTrace(t, signal, poll)
    ensures Clears(t) == 0 && t[|t| - 1] == Probe(true) && |t| >= 3
    ensures forall i :: 0 <= i < |t| && t[i].Kill? ==> t[i].signal == signal && i == 1
  {
    hide Clears, Sleeps, WaitTrace;
    var waited, start := t[2..], [Probe(true), Kill(signal, Delivered, t[1].at)];
    WaitClearsNothing(waited, poll, false);
    assert t == start + waited;
    ShortTraces(signal, Delivered, t[1].at);
    SleepsOfConcat(start, waited);
    assert t[|t| - 1] == waited[|waited| - 1];
    assert forall i :: 2 <= i < |t| ==> t[i] == waited[i - 2];
  }

  lemma RefusedClearsNothing(t: seq<Event>, signal: Signal)
    requires RefusedTrace(t, signal)
    ensures Clears(t) == 0
  {
    ShortTraces(signal, Forbidden, t[1].at);
    assert t == [Probe(true), Kill(signal, Forbidden, t[1].at)];
  }

  lemma ForceSafety(t: seq<Event>, poll: real, timeout: real, end: real, outcome: Outcome)
    requires ForceTrace(t, poll, timeout, end, outcome)
    ensures Clears(t) == if outcome == Stopped then 1 else 0
    ensures outcome == Stopped ==> |t| >= 2 && t[|t| - 1] == Unregister && SeenGone(t[|t| - 2])
    ensures outcome == StillAlive ==>
      |t| >= 2 && t[|t| - 1] == Probe(true) && Sent(t[1], Sigkill, Delivered) && end >= t[1].at + timeout
    ensures forall i :: 0 <= i < |t| && t[i].Kill? ==> t[i].signal == Sigkill && i == 1 && t[0] == Probe(true)
  {
    hide GoneTrace, Clears, WaitTrace;
    match outcome
    case Stopped => GoneClearsOnce(t, Sigkill, poll);
    case SignalRefused => RefusedClearsNothing(t, Sigkill);
    case StillAlive => OutlivedClearsNothing(t, Sigkill, poll);
  }

  /**
    * A normal return means the process was seen gone and only then unregistered, once; any error leaves the
    * registration untouched; SIGKILL is sent only right after the process was seen alive, and no sooner than the
    * whole grace period after a SIGTERM was delivered; and the process is given up only after a delivered SIGKILL
    * and the whole kill timeout.
    */
  predicate Safe(t: seq<Event>, grace: real, timeout: real, end: real, outcome: Outcome) {
    && Clears(t) == (if outcome == Stopped then 1 else 0)
    && (outcome == Stopped ==> |t| >= 2 && t[|t| - 1] == Unregister && SeenGone(t[|t| - 2]))
    && (outcome == StillAlive ==>
          t != [] && t[|t| - 1] == Probe(true) && exists i :: 0 <= i < |t| && KilledInTime(t[i], timeout, end))
    && forall i :: 0 <= i < |t| && t[i].Kill? && t[i].signal == Sigkill ==> Escalates(t, i, grace)
  }

  predicate KilledInTime(e: Event, timeout: real, end: real) {
    Sent(e, Sigkill, Delivered) && end >= e.at + timeout
  }

  predicate Escalates(t: seq<Event>, i: nat, grace: real)
    requires i < |t| && t[i].Kill?
  {
    i > 2 && t[i - 1] == Probe(true) && Sent(t[1], Sigterm, Delivered) && t[i].at >= t[1].at + grace
  }

  lemma StopSafety(t: seq<Event>, config: DaemonConfig, end: real, outcome: Outcome)
    requires StopTrace(t, config, end, outcome)
    ensures Safe(t, config.stopGracePeriod, config.forceKillTimeout, end, outcome)
  {
    hide GoneTrace, EscalatedTrace, RefusedTrace, Safe;
    var poll, grace, timeout := config.exitPollInterval, config.stopGracePeriod, config.forceKillTimeout;
    if outcome == Stopped && GoneTrace(t, Sigterm, poll) {
      SigtermSafety(t, poll, grace, timeout, end);
    } else if outcome == SignalRefused && RefusedTrace(t, Sigterm) {
      RefusalSafety(t, grace, timeout, end);
    } else {
      var k :| 0 <= k <= |t| && Escalated(t[..k], t[k..], config, end, outcome);
      EscalationSafety(t[..k], t[k..], poll, grace, timeout, end, outcome);
      assert t == t[..k] + t[k..];
    }
  }

  lemma SigtermSafety(t: seq<Event>, poll: real, grace: real, timeout: real, end: real)
    requires GoneTrace(t, Sigterm, poll)
    ensures Safe(t, grace, timeout, end, Stopped)
  {
    hide GoneTrace, Clears;
    GoneClearsOnce(t, Sigterm, poll);
  }

  lemma RefusalSafety(t: seq<Event>, grace: real, timeout: real, end: real)
    requires RefusedTrace(t, Sigterm)
    ensures Safe(t, grace, timeout, end, SignalRefused)
  {
    hide Clears;
    RefusedClearsNothing(t, Sigterm);
  }

  lemma EscalationSafety(
    a: seq<Event>, b: seq<Event>, poll: real, grace: real, timeout: real, end: real, outcome: Outcome)
    requires EscalatedTrace(a, b, poll, grace, timeout, end, outcome)
    ensures Safe(a + b, grace, timeout, end, outcome)
  {
    OutlivedClearsNothing(a, Sigterm, poll);
    assert Sent(a[1], Sigterm, Delivered);
    ForceSafety(b, poll, timeout, end, outcome);
    SleepsOfConcat(a, b);
    hide GoneTrace, OutlivedTrace, ForceTrace, Clears;
    var t := a + b;
    forall i | 0 <= i < |t| && t[i].Kill? && t[i].signal == Sigkill ensures Escalates(t, i, grace) {
      assert i >= |a|;
      assert t[i] == b[i - |a|] && t[i - 1] == b[i - |a| - 1];
    }
    if outcome == StillAlive {
      assert t[|a| + 1] == b[1];
      assert KilledInTime(t[|a| + 1], timeout, end);
    }
  }

  // ----- the host -----------------------------------------------------------------------

  /** An uncontrolled host: probes and signals may answer anything, and time only moves forward. */
  class Host {
    var now: real
    var log: seq<Event>

    constructor ()
      ensures log == []
    {
      now, log := 0.0, [];
    }

    method Clock() returns (t: real)
      modifies this
      ensures t == now >= old(now) && log == old(log)
    {
      var elapsed: real := *;
      if elapsed > 0.0 { now := now + elapsed; }
      t := now;
    }

    method Alive() returns (alive: bool)
      modifies this
      ensures now >= old(now) && log == old(log) + [Probe(alive)]
    {
      alive := *;
      log := log + [Probe(alive)];
    }

    method Send(signal: Signal) returns (delivery: Delivery)
      modifies this
      ensures now >= old(now) && log == old(log) + [Kill(signal, delivery, now)]
    {
      delivery := *;
      log := log + [Kill(signal, delivery, now)];
    }

    /** A sleep lasts at least as long as requested. */
    method Pause(seconds: real)
      requires seconds >= 0.0
      modifies this
      ensures now >= old(now) + seconds && log == old(log) + [Sleep(seconds)]
    {
      var extra: real := *;
      now := now + seconds + if extra > 0.0 then extra else 0.0;
      log := log + [Sleep(seconds)];
    }

    method ClearRegistration()
      modifies this
      ensures now >= old(now) && log == old(log) + [Unregister]
    {
      log := log + [Unregister];
    }

    /** Polls until the process is gone or the deadline has passed. */
    method WaitForPidExit(timeout: real, poll: real) returns (gone: bool)
      requires poll > 0.0
      modifies this
      ensures now >= old(now) && (!gone ==> now >= old(now) + timeout)
      ensures old(log) <= log
      ensures WaitTrace(log[|old(log)|..], poll, gone)
      ensures Sleeps(log[|old(log)|..]) <= Polls(timeout, poll)
    {
      hide Polls, PollTrace, Sleeps, WaitTrace, Span;
      NothingYet(poll);
      SpanGrows(0, poll);
      var t := Clock();
      ghost var start := t;
      var deadline := t + if timeout > 0.0 then timeout else 0.0;
      ghost var sleeps: nat := 0;
      ghost var done: seq<Event> := [];
      while true
        invariant now >= old(now)
        invariant log == old(log) + done
        invariant PollTrace(done, poll) && Sleeps(done) == sleeps <= Polls(timeout, poll)
        invariant now >= deadline || now >= start + Span(sleeps, poll)
        decreases Polls(timeout, poll) - sleeps
      {
        var alive := Alive();
        if !alive {
          WaitEnds(done, poll, alive);
          assert log[|old(log)|..] == done + [Probe(alive)];
          return true;
        }
        t := Clock();
        var remaining := deadline - t;
        if remaining <= 0.0 {
          WaitEnds(done, poll, alive);
          assert log[|old(log)|..] == done + [Probe(alive)];
          return false;
        }
        PollsCover(sleeps, timeout, poll);
        var pause := if remaining < poll then remaining else poll;
        Pause(pause);
        SpanGrows(sleeps, poll);
        PollAgain(done, poll, pause);
        done := done + [Probe(true), Sleep(pause)];
        sleeps := sleeps + 1;
      }
    }

    method ForceKillRecordedDaemon(config: DaemonConfig) returns (outcome: Outcome)
      requires Positive(config)
      modifies this
      ensures old(log) <= log
      ensures ForceTrace(log[|old(log)|..], config.exitPollInterval, config.forceKillTimeout, now, outcome)
      ensures SignalsFrom(log[|old(log)|..], old(now))
      ensures Sleeps(log[|old(log)|..]) <= Polls(config.forceKillTimeout, config.exitPollInterval)
    {
      hide Polls, WaitTrace, Sleeps, GoneTrace, OutlivedTrace, RefusedTrace, SignalsFrom;
      ghost var from, poll := log, config.exitPollInterval;
      var alive := Alive();
      if !alive {
        ClearRegistration();
        assert log == from + [Probe(false), Unregister];
        Since(from, [Probe(false), Unregister]);
        AlreadyGone(Sigkill, poll, old(now));
        return Stopped;
      }
      var delivery := Send(Sigkill);
      ghost var at := now;
      if delivery == NoSuchProcess {
        ClearRegistration();
        assert log == from + [Probe(true), Kill(Sigkill, NoSuchProcess, at), Unregister];
        Since(from, [Probe(true), Kill(Sigkill, NoSuchProcess, at), Unregister]);
        JustGone(Sigkill, poll, at, old(now));
        return Stopped;
      }
      if delivery == Forbidden {
        assert log == from + [Probe(true), Kill(Sigkill, Forbidden, at)];
        Since(from, [Probe(true), Kill(Sigkill, Forbidden, at)]);
        Refused(Sigkill, at, old(now));
        return SignalRefused;
      }
      ghost var start := [Probe(true), Kill(Sigkill, Delivered, at)];
      assert log == from + start;
      var gone := WaitForPidExit(config.forceKillTimeout, config.exitPollInterval);
      ghost var waited := Rest(from + start, log);
      Regroup(from, start, waited);
      SignalThenWait(Sigkill, at, waited, poll, gone);
      OneSignal(Sigkill, at, waited, poll, gone, old(now));
      if !gone {
        Since(from, start + waited);
        return StillAlive;
      }
      ClearRegistration();
      Regroup(from, start + waited, [Unregister]);
      Since(from, start + waited + [Unregister]);
      return Stopped;
    }

    method TerminateRecordedDaemon(config: DaemonConfig) returns (outcome: Outcome)
      requires Positive(config)
      modifies this
      ensures old(log) <= log
      ensures StopTrace(log[|old(log)|..], config, now, outcome)
      ensures Sleeps(log[|old(log)|..]) <=
        Polls(config.stopGracePeriod, config.exitPollInterval) + Polls(config.forceKillTimeout, config.exitPollInterval)
    {
      hide Polls, WaitTrace, Sleeps, ForceTrace, GoneTrace, OutlivedTrace, RefusedTrace, SignalsFrom, StopTrace;
      ghost var from, poll, grace := log, config.exitPollInterval, config.stopGracePeriod;
      var alive := Alive();
      if !alive {
        ClearRegistration();
        assert log == from + [Probe(false), Unregister];
        Since(from, [Probe(false), Unregister]);
        AlreadyGone(Sigterm, poll, old(now));
        GentleStop(log[|from|..], config, now);
        return Stopped;
      }
      var delivery := Send(Sigterm);
      ghost var at := now;
      if delivery == NoSuchProcess {
        ClearRegistration();
        assert log == from + [Probe(true), Kill(Sigterm, NoSuchProcess, at), Unregister];
        Since(from, [Probe(true), Kill(Sigterm, NoSuchProcess, at), Unregister]);
        JustGone(Sigterm, poll, at, old(now));
        GentleStop(log[|from|..], config, now);
        return Stopped;
      }
      if delivery == Forbidden {
        assert log == from + [Probe(true), Kill(Sigterm, Forbidden, at)];
        Since(from, [Probe(true), Kill(Sigterm, Forbidden, at)]);
        Refused(Sigterm, at, old(now));
        RefusedStop(log[|from|..], config, now);
        return SignalRefused;
      }
      ghost var start := [Probe(true), Kill(Sigterm, Delivered, at)];
      assert log == from + start;
      var gone := WaitForPidExit(config.stopGracePeriod, config.exitPollInterval);
      ghost var waited := Rest(from + start, log);
      Regroup(from, start, waited);
      SignalThenWait(Sigterm, at, waited, poll, gone);
      ghost var first := start + waited;
      if gone {
        ClearRegistration();
        Regroup(from, first, [Unregister]);
        Since(from, first + [Unregister]);
        GentleStop(first + [Unregister], config, now);
        return Stopped;
      }
      ghost var later := now;
      outcome := ForceKillRecordedDaemon(config);
      ghost var forced := Rest(from + first, log);
      Regroup(from, first, forced);
      Since(from, first + forced);
      SleepsOfConcat(first, forced);
      EarlierBound(forced, later, at + grace);
      ForcedStop(first, forced, config, now, outcome);
    }
  }

  lemma Since(from: seq<Event>, events: seq<Event>)
    ensures (from + events)[|from|..] == events
  {
  }

  lemma Rest(from: seq<Event>, log: seq<Event>) returns (events: seq<Event>)
    requires from <= log
    ensures log == from + events && log[|from|..] == events
  {
    events := log[|from|..];
  }

  lemma Regroup(a: seq<Event>, b: seq<Event>, c: seq<Event>)
    ensures a + b + c == a + (b + c)
  {
  }

  // The traces of the branches that do not wait.

  lemma AlreadyGone(signal: Signal, poll: real, time: real)
    ensures
      var t := [Probe(false), Unregister];
      GoneTrace(t, signal, poll) && Sleeps(t) == 0 && SignalsFrom(t, time)
  {
    ShortTraces(signal, Delivered, time);
  }

  lemma JustGone(signal: Signal, poll: real, at: real, time: real)
    requires time <= at
    ensures
      var t := [Probe(true), Kill(signal, NoSuchProcess, at), Unregister];
      GoneTrace(t, signal, poll) && Sleeps(t) == 0 && SignalsFrom(t, time)
  {
    ShortTraces(signal, NoSuchProcess, at);
  }

  lemma Refused(signal: Signal, at: real, time: real)
    requires time <= at
    ensures
      var t := [Probe(true), Kill(signal, Forbidden, at)];
      RefusedTrace(t, signal) && Sleeps(t) == 0 && SignalsFrom(t, time)
  {
    ShortTraces(signal, Forbidden, at);
  }

  /** Waiting sends no signal. */
  lemma OneSignal(signal: Signal, at: real, waited: seq<Event>, poll: real, gone: bool, time: real)
    requires WaitTrace(waited, poll, gone) && time <= at
    ensures
      var t := [Probe(true), Kill(signal, Delivered, at)] + waited;
      SignalsFrom(t, time) && SignalsFrom(t + [Unregister], time)
  {
    hide WaitTrace;
    WaitClearsNothing(waited, poll, gone);
  }

  lemma RefusedStop(t: seq<Event>, config: DaemonConfig, end: real)
    requires RefusedTrace(t, Sigterm)
    ensures StopTrace(t, config, end, SignalRefused)
  {
  }

  lemma GentleStop(t: seq<Event>, config: DaemonConfig, end: real)
    requires GoneTrace(t, Sigterm, config.exitPollInterval)
    ensures StopTrace(t, config, end, Stopped)
  {
  }

  lemma ForcedStop(a: seq<Event>, b: seq<Event>, config: DaemonConfig, end: real, outcome: Outcome)
    requires OutlivedTrace(a, Sigterm, config.exitPollInterval)
    requires ForceTrace(b, config.exitPollInterval, config.forceKillTimeout, end, outcome)
    requires |a| > 1 && a[1].Kill? && SignalsFrom(b, a[1].at + config.stopGracePeriod)
    ensures StopTrace(a + b, config, end, outcome)
  {
    var t := a + b;
    assert t[..|a|] == a && t[|a|..] == b;
    assert Escalated(t[..|a|], t[|a|..], config, end, outcome);
  }

  lemma EarlierBound(t: seq<Event>, time: real, earlier: real)
    requires SignalsFrom(t, time) && earlier <= time
    ensures SignalsFrom(t, earlier)
  {
  }
}
