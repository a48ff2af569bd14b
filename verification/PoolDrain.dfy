/** The pool's drain loop (litehive/cli/pool.py). */
module PoolDrain {
  import opened Common

  const CONSECUTIVE_TASK_FAILURE: string := "consecutive_task_failures"

  datatype Iteration = Iteration(
    exitCode: int, poolStopReason: Option<string>, ranTask: bool, finalStage: Option<PipelineState>)

  /** What the callbacks answer in each round; `dirty` is None without a checker. */
  datatype World = World(dirty: Option<nat -> bool>, runOnce: nat -> Iteration)

  datatype Settings = Settings(stopOnFailure: bool, limit: Option<int>, stopOnDirtyGit: bool)

  datatype Stop =
    | DirtyGit
    | RunnerError(code: int)
    | ConsecutiveFailure
    | NothingRan
    | FailureDetected
    | MaxTasksReached

  // ----- one round ----------------------------------------------------------------------

  predicate SeesDirty(w: World, s: Settings, round: nat) {
    s.stopOnDirtyGit && w.dirty.Some? && (w.dirty.value)(round)
  }

  /** How a round ends the loop, if it does; `tasks` is the number of tasks run before it. */
  function Verdict(w: World, s: Settings, round: nat, tasks: nat): Option<Stop> {
    var it := w.runOnce(round);
    if SeesDirty(w, s, round) then Some(DirtyGit)
    else if it.exitCode != 0 then Some(RunnerError(it.exitCode))
    else if it.poolStopReason == Some(CONSECUTIVE_TASK_FAILURE) then Some(ConsecutiveFailure)
    else if !it.ranTask then Some(NothingRan)
    else if s.stopOnFailure && it.finalStage != Some(Done) then Some(FailureDetected)
    else if s.limit.Some? && tasks + 1 >= s.limit.value then Some(MaxTasksReached)
    else None
  }

  function WrittenReason(stop: Stop): Option<string> {
    match stop
    case DirtyGit => Some("dirty_git_state")
    case FailureDetected => Some("failure_detected")
    case MaxTasksReached => Some("max_tasks_reached")
    case _ => None
  }

  // ----- the loop -----------------------------------------------------------------------

  class PoolService {
    var poolStopReason: Option<string>
    var ran: seq<Iteration>

    constructor ()
      ensures poolStopReason == None && ran == []
    {
      poolStopReason, ran := None, [];
    }

    method StopFor(reason: string)
      modifies this`poolStopReason
      ensures poolStopReason == Some(reason)
    {
      poolStopReason := Some(reason);
    }

    /**
     * Returns only if some round stops the loop; `halt` names such a round when there is no limit.
     * `ran` records what the run_once callback answered, in order.
     */
    method Run(w: World, s: Settings, ghost halt: nat) returns (code: int, stop: Stop)
      requires s.limit.Some? || Verdict(w, s, halt, halt).Some?
      modifies this
      ensures old(ran) <= ran
      ensures Drained(w, s, ran[|old(ran)|..], stop)
      ensures Reports(s, ran[|old(ran)|..], stop, code, old(poolStopReason), poolStopReason)
    {
      hide Reports;
      ghost var from, before := ran, poolStopReason;
      var tasksRun: nat := 0;
      ghost var done: seq<Iteration> := [];
      assert Rounds(w, s, done);
      while true
        invariant ran == from + done && |done| == tasksRun
        invariant poolStopReason == before
        invariant Rounds(w, s, done)
        invariant s.limit.None? ==> tasksRun <= halt
        decreases if s.limit.Some? then s.limit.value - tasksRun else halt - tasksRun
      {
        hide Rounds;
        if s.stopOnDirtyGit && w.dirty.Some? {
          var dirty := (w.dirty.value)(tasksRun);
          if dirty {
            StopFor("dirty_git_state");
            DirtyEnd(w, s, done, before);
            Since(from, done);
            return 0, DirtyGit;
          }
        }
        assert !SeesDirty(w, s, tasksRun);
        hide Drained, SeesDirty;
        var iteration := w.runOnce(tasksRun);
        ran := ran + [iteration];
        assert ran == from + (done + [iteration]);
        Since(from, done + [iteration]);
        if Verdict(w, s, tasksRun, tasksRun).Some? {
          Ends(w, s, done, iteration, Verdict(w, s, tasksRun, tasksRun).value, before);
        } else {
          Continues(w, s, done, iteration);
        }
        done := done + [iteration];
        if iteration.exitCode != 0 {
          return iteration.exitCode, RunnerError(iteration.exitCode);
        }
        if iteration.poolStopReason == Some(CONSECUTIVE_TASK_FAILURE) {
          return 0, ConsecutiveFailure;
        }
        if !iteration.ranTask {
          return 0, NothingRan;
        }
        tasksRun := tasksRun + 1;
        if s.stopOnFailure && iteration.finalStage != Some(Done) {
          StopFor("failure_detected");
          return 0, FailureDetected;
        }
        if s.limit.Some? && tasksRun >= s.limit.value {
          StopFor("max_tasks_reached");
          return 0, MaxTasksReached;
        }
      }
    }
  }

  lemma Since(from: seq<Iteration>, its: seq<Iteration>)
    ensures (from + its)[|from|..] == its
  {
  }

  /** The exit code and the reason left behind, by the kind of stop and by the callbacks' answers. */
  predicate Reports(
    s: Settings, its: seq<Iteration>, stop: Stop, code: int, before: Option<string>, after: Option<string>)
  {
    && code == (if stop.RunnerError? then stop.code else 0) == ExitCode(its)
    && after == (if WrittenReason(stop).Some? then WrittenReason(stop) else before)
    && after == (if StopText(s, its).Some? then StopText(s, its) else before)
  }

  /** The callback's answers so far, none of which ended the loop. */
  predicate Rounds(w: World, s: Settings, its: seq<Iteration>) {
    forall i :: 0 <= i < |its| ==> its[i] == w.runOnce(i) && Verdict(w, s, i, i).None?
  }

  /** The answers of a whole run: every round but the last lets the loop continue, the last one stops it. */
  predicate Drained(w: World, s: Settings, its: seq<Iteration>, stop: Stop) {
    if stop == DirtyGit then Rounds(w, s, its) && SeesDirty(w, s, |its|)
    else
      var n := |its| - 1;
      && n >= 0
      && Rounds(w, s, its[..n])
      && its[n] == w.runOnce(n)
      && Verdict(w, s, n, n) == Some(stop)
  }

  lemma Ends(w: World, s: Settings, done: seq<Iteration>, it: Iteration, stop: Stop, before: Option<string>)
    requires Rounds(w, s, done) && it == w.runOnce(|done|)
    requires Verdict(w, s, |done|, |done|) == Some(stop) && stop != DirtyGit
    ensures Drained(w, s, done + [it], stop)
    ensures Reports(s, done + [it], stop, if stop.RunnerError? then stop.code else 0, before,
                    if WrittenReason(stop).Some? then WrittenReason(stop) else before)
  {
    assert (done + [it])[..|done|] == done;
    hide Verdict;
    TextMatches(w, s, done + [it], stop);
  }

  lemma DirtyEnd(w: World, s: Settings, done: seq<Iteration>, before: Option<string>)
    requires Rounds(w, s, done) && SeesDirty(w, s, |done|)
    ensures Drained(w, s, done, DirtyGit)
    ensures Reports(s, done, DirtyGit, 0, before, Some("dirty_git_state"))
  {
    hide Verdict, Rounds;
    TextMatches(w, s, done, DirtyGit);
  }

  lemma Continues(w: World, s: Settings, done: seq<Iteration>, it: Iteration)
    requires Rounds(w, s, done) && it == w.runOnce(|done|) && Verdict(w, s, |done|, |done|).None?
    ensures Rounds(w, s, done + [it])
  {}

  // ----- what a run guarantees ----------------------------------------------------------

  /** Where a run ends is fixed by the answers: there is only one possible stop. */
  lemma RunIsDetermined(w: World, s: Settings, a: seq<Iteration>, stopA: Stop, b: seq<Iteration>, stopB: Stop)
    requires Drained(w, s, a, stopA) && Drained(w, s, b, stopB)
    ensures a == b && stopA == stopB
  {
    var n := if stopA == DirtyGit then |a| else |a| - 1;
    var m := if stopB == DirtyGit then |b| else |b| - 1;
    assert Verdict(w, s, n, n) == Some(stopA) && Verdict(w, s, m, m) == Some(stopB);
    assert forall i :: 0 <= i < n ==> a[i] == w.runOnce(i) && Verdict(w, s, i, i).None?;
    assert forall i :: 0 <= i < m ==> b[i] == w.runOnce(i) && Verdict(w, s, i, i).None?;
    assert n == m;
  }

  function Max(a: int, b: int): int { if a >= b then a else b }

  /**
   * What every run guarantees: the callback never runs in a round whose checker answers dirty; with a limit it runs
   * at most max(1, limit) times; only the last answer can be other than a task that ran, and with stop-on-failure
   * every task before the last ended DONE.
   */
  lemma DrainGuarantees(w: World, s: Settings, its: seq<Iteration>, stop: Stop)
    requires Drained(w, s, its, stop)
    ensures s.stopOnDirtyGit && w.dirty.Some? ==> forall i :: 0 <= i < |its| ==> !(w.dirty.value)(i)
    ensures s.limit.Some? ==> |its| <= Max(1, s.limit.value)
    ensures forall i :: 0 <= i < |its| - 1 ==> its[i].ranTask && its[i].exitCode == 0
    ensures s.stopOnFailure ==> forall i :: 0 <= i < |its| - 1 ==> its[i].finalStage == Some(Done)
  {
    var n := if stop == DirtyGit then |its| else |its| - 1;
    forall i | 0 <= i < n
      ensures its[i] == w.runOnce(i) && Verdict(w, s, i, i).None? && !SeesDirty(w, s, i)
    {
      assert stop != DirtyGit ==> its[..n][i] == its[i];
    }
    if s.stopOnDirtyGit && w.dirty.Some? {
      forall i | 0 <= i < |its| ensures !(w.dirty.value)(i) {
        assert !SeesDirty(w, s, i);
      }
    }
    if n > 0 {
      assert its[n - 1] == w.runOnce(n - 1);
    }
  }

  // ----- what is written ----------------------------------------------------------------

  /** The callback ran a task and asked for no stop of its own. */
  predicate RanTask(it: Iteration) {
    it.exitCode == 0 && it.poolStopReason != Some("consecutive_task_failures") && it.ranTask
  }

  /** The reason a run leaves behind, told from the callbacks' answers alone; None where it writes nothing. */
  function StopText(s: Settings, its: seq<Iteration>): Option<string> {
    if its == [] then Some("dirty_git_state")
    else
      var last := its[|its| - 1];
      if !RanTask(last) then None
      else if s.stopOnFailure && last.finalStage != Some(Done) then Some("failure_detected")
      else if s.limit.Some? && |its| >= s.limit.value then Some("max_tasks_reached")
      else Some("dirty_git_state")
  }

  /** The last callback's exit code, when it is an error. */
  function ExitCode(its: seq<Iteration>): int {
    if its == [] then 0 else its[|its| - 1].exitCode
  }

  lemma TextMatches(w: World, s: Settings, its: seq<Iteration>, stop: Stop)
    requires Drained(w, s, its, stop)
    ensures WrittenReason(stop) == StopText(s, its)
    ensures ExitCode(its) == if stop.RunnerError? then stop.code else 0
  {
    if stop == DirtyGit && its != [] {
      assert its[|its| - 1] == w.runOnce(|its| - 1);
    }
  }

  lemma TextsDiffer()
    ensures "dirty_git_state" != "failure_detected" && "failure_detected" != "max_tasks_reached"
    ensures "dirty_git_state" != "max_tasks_reached"
  {
    assert "dirty_git_state"[0] == 'd' && "failure_detected"[0] == 'f' && "max_tasks_reached"[0] == 'm';
  }

  /**
   * When each reason is written: for dirt exactly when the checker answers so before a round; for a failure exactly
   * when stop-on-failure is set and the last callback ran a task that did not end DONE; for the limit exactly when
   * max(1, limit) tasks ran and the last is no such failure; and none exactly when the last callback returned an
   * error, asked to stop for consecutive failures, or ran no task.
   */
  lemma ReasonMatchesLastRound(w: World, s: Settings, its: seq<Iteration>, stop: Stop)
    requires Drained(w, s, its, stop)
    ensures WrittenReason(stop) == Some("dirty_git_state") ==>
      s.stopOnDirtyGit && w.dirty.Some? && (w.dirty.value)(|its|)
    ensures WrittenReason(stop) == Some("dirty_git_state") <==> Rounds(w, s, its) && SeesDirty(w, s, |its|)
    ensures
      var failed := its != [] && RanTask(its[|its| - 1]) && s.stopOnFailure && its[|its| - 1].finalStage != Some(Done);
      && (WrittenReason(stop) == Some("failure_detected") <==> failed)
      && (WrittenReason(stop) == Some("max_tasks_reached") <==>
            its != [] && RanTask(its[|its| - 1]) && !failed && s.limit.Some? && |its| == Max(1, s.limit.value))
    ensures WrittenReason(stop) == None <==> its != [] && !RanTask(its[|its| - 1])
  {
    TextMatches(w, s, its, stop);
    DrainGuarantees(w, s, its, stop);
    TextsDiffer();
  }
}
