/** Runs of the program that show what it does not promise, and where reports can take a task. */
module WitnessRuns {
  import opened Common
  import opened Events
  import opened TaskStates
  import opened Rules
  import opened Runner
  import opened Runs
  import opened RecoveryRuns
  import opened BoundedRuns
  import opened EndlessRuns

  /** From every launch, one crash and one recovery report lead to any place a report can name. */
  lemma ResumesTo(s: TaskState, target: PipelineState) returns (events: seq<Event>)
    requires Fresh(s) && ReportableTarget(target)
    ensures events == FIRST_CRASH + [RecoverySucceeded(Some(target), ResumeHint)]
    ensures Answered(s, events) && Run(s, events).value.stage == EntryOf(target)
    ensures
      var ms := Journal(s, events);
      ms != [] && ms[|ms| - 1] == Move(Recovering, RecoverySucceeded(Some(target), ResumeHint), EntryOf(target))
  {
    hide Advance, Honest, Answers, Run, Journal, Answered;
    events := OneRecoveryCanLastForever(s, 0);
    var resume := RecoverySucceeded(Some(target), ResumeHint);
    Extend(s, events, resume, EntryOf(target));
    events := events + [resume];
  }

  /** One way to recover without a trigger: the recovery agent names recovery itself. */
  lemma SelfResumeHasNoTrigger(s: TaskState) returns (events: seq<Event>)
    requires Fresh(s)
    ensures Answered(s, events)
    ensures Run(s, events).value.stage == Recovering && Run(s, events).value.trigger == None
  {
    hide Advance, Honest, Answers, Answered, Run, Journal, Entered, SelfResumes;
    events := ResumesTo(s, Recovering);
    AnsweredGrows(s, events);
    TriggerActiveExactlyWhileRecovering(s, events);
  }

  /** The other way: the launch resumes a task that was parked while recovering. */
  lemma LaunchIntoRecoveryHasNoTrigger(s: TaskState) returns (events: seq<Event>)
    requires Fresh(s) && s.entryStage == Some(Recovering)
    ensures events == [CleanState, PLAIN_PASS] && Answered(s, events)
    ensures Run(s, events).value.stage == Recovering && Run(s, events).value.trigger == None
  {
    hide Advance, Honest, Answers, Answered, Run, Journal, Entered, SelfResumes;
    EmptyRun(s);
    events := [];
    Extend(s, events, CleanState, WorktreeSync);
    events := events + [CleanState];
    Extend(s, events, PLAIN_PASS, Recovering);
    events := events + [PLAIN_PASS];
    AnsweredGrows(s, events);
    TriggerActiveExactlyWhileRecovering(s, events);
  }
}
