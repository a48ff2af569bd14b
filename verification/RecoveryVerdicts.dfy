/** From a recovery report to an event (litehive/domain/reports.py, litehive/roles/recovery.py). */
module RecoveryVerdicts {
  import opened Common
  import opened Recovery
  import opened Events
  import opened TaskStates
  import opened Runs
  import Text

  /** Target spellings an activity entry accepts: work stages, two pipeline states and the status buckets. */
  const ACCEPTED_TARGETS: set<string> := {
    "grooming", "implementing", "testing", "accepting", "commit_to_git", "merge_resolving", "recovering",
    "backlog", "done", "flagged" }

  datatype Verdict =
    | Resume(target: string)
    | Advance(target: string)
    | DoneVerdict
    | BudgetHit
    | Other(reason: string)

  /** What the report command lets through; for the other verdicts it admits no target at all. */
  predicate Submitted(v: Verdict) {
    v.Resume? || v.Advance? ==> v.target in ACCEPTED_TARGETS
  }

  /** The enum lookup; None where the source raises on an unknown spelling. */
  ghost function Canonical(s: string): Option<PipelineState> {
    if p: PipelineState :| Name(p) == s then Some(p) else None
  }

  lemma CanonicalInvertsName(p: PipelineState)
    ensures Canonical(Name(p)) == Some(p)
  {
    hide Name;
    var q := Canonical(Name(p)).value;
    NamesAreDistinct(p, q);
  }

  ghost function Target(target: string, hint: DispositionHint): Option<Event> {
    var stripped := Text.Strip(target);
    if stripped == "" then Some(RecoveryFailed("missing target_stage"))
    else
      match Canonical(stripped)
      case None => None
      case Some(p) => Some(RecoverySucceeded(Some(p), hint))
  }

  /** The event of a verdict; None where the translation raises out of the runner. */
  ghost function VerdictToEvent(v: Verdict): Option<Event> {
    match v
    case Resume(target) => Target(target, ResumeHint)
    case Advance(target) => Target(target, AdvanceHint)
    case DoneVerdict => Some(RecoverySucceeded(Some(Done), DoneHint))
    case BudgetHit => Some(RecoveryBudgetHit)
    case Other(reason) => Some(RecoveryFailed(if reason != "" then reason else "recovery_failed"))
  }

  // ----- which reports resume -----------------------------------------------------------

  lemma TrimmedStays(s: string)
    requires s != "" && !Text.IsSpace(s[0]) && !Text.IsSpace(s[|s| - 1])
    ensures Text.Strip(s) == s
  {
    hide Text.IsSpace;
    assert Text.StripLeft(s) == s;
    assert Text.StripRight(s) == s;
  }

  /** Accepted spellings that name a status bucket or work phase, but no pipeline state. */
  const BUCKETS: set<string> := {"commit_to_git", "backlog", "flagged"}

  lemma BucketsNameNothing(p: PipelineState)
    ensures Name(p) !in BUCKETS
  {
    var name := Name(p);
    assert name[0] == 'c' ==> |name| == 6;
    assert name[0] == 'b' ==> |name| > 7;
    assert name[0] == 'f' ==> |name| == 6;
  }

  lemma AcceptedNames(target: string) returns (p: PipelineState)
    requires target in ACCEPTED_TARGETS - BUCKETS
    ensures ReportableTarget(p) && Name(p) == target
  {
    p := if target == "grooming" then Grooming else if target == "implementing" then Implementing
         else if target == "testing" then Testing else if target == "accepting" then Accepting
         else if target == "merge_resolving" then MergeResolving else if target == "recovering" then Recovering
         else Done;
  }

  lemma AcceptedIsTrimmed(target: string)
    requires target in ACCEPTED_TARGETS
    ensures Text.Strip(target) == target != ""
  {
    assert target != "" && 'a' <= target[0] <= 'z' && 'a' <= target[|target| - 1] <= 'z';
    TrimmedStays(target);
  }

  /**
    * An accepted target resumes the task exactly when it spells a pipeline state, and then at that
    * state; otherwise the translation raises.
    */
  lemma AcceptedTargetResumesExactly(target: string, hint: DispositionHint)
    requires target in ACCEPTED_TARGETS
    ensures Target(target, hint).Some? <==> exists p :: Name(p) == target
    ensures Target(target, hint).Some? <==> target !in BUCKETS
    ensures Target(target, hint).Some? ==>
      exists p :: ReportableTarget(p) && Name(p) == target
        && Target(target, hint) == Some(RecoverySucceeded(Some(p), hint))
  {
    hide Name, Text.Strip;
    AcceptedIsTrimmed(target);
    if target in BUCKETS {
      forall p ensures Name(p) != target {
        BucketsNameNothing(p);
      }
    } else {
      var p := AcceptedNames(target);
      CanonicalInvertsName(p);
    }
  }

  /** Every target the model lets recovery name can be reported. */
  lemma ReportableTargetsAreAccepted(p: PipelineState, hint: DispositionHint)
    requires ReportableTarget(p)
    ensures Name(p) in ACCEPTED_TARGETS && Target(Name(p), hint) == Some(RecoverySucceeded(Some(p), hint))
  {
    assert Name(p) in ACCEPTED_TARGETS;
    hide Name, Text.Strip;
    AcceptedIsTrimmed(Name(p));
    CanonicalInvertsName(p);
  }

  /** Whatever a submitted verdict translates to is an answer of the recovery node. */
  lemma VerdictsAreAnswers(s: TaskState, v: Verdict)
    requires s.stage == Recovering && Submitted(v) && VerdictToEvent(v).Some?
    ensures Answers(s, VerdictToEvent(v).value)
  {
    hide Target, Name;
    if v.Resume? {
      AcceptedTargetResumesExactly(v.target, ResumeHint);
    } else if v.Advance? {
      AcceptedTargetResumesExactly(v.target, AdvanceHint);
    }
  }

  /** The failing input: the report that asks to resume at commit is accepted, and then raises. */
  lemma CommitReportRaises()
    ensures Submitted(Resume("commit_to_git")) && VerdictToEvent(Resume("commit_to_git")) == None
  {
    hide Target, Name;
    AcceptedTargetResumesExactly("commit_to_git", ResumeHint);
  }
}
