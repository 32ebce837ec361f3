/** What a task's status says of its submissions, and when a task is settled for good. */
module EvidenceOutcome {
  import opened Wrappers
  import opened EvidenceGrading

  // ----------------------------------------------------------- status and verdicts

  predicate Shows(s: State, outcome: Outcome) {
    exists e <- s.evidence :: s.evidence[e] == Some(outcome)
  }

  predicate Covering(s: State) {
    forall j <- s.jobs :: Active(s.jobs[j]) ==> s.jobs[j].graded != {} && s.jobs[j].graded <= s.evidence.Keys
  }

  /** A task that passed, failed or needs more has a submission with that verdict. */
  predicate VerdictShown(s: State) {
    && (s.status == Passed ==> Shows(s, Pass))
    && (s.status == FailedTask ==> Shows(s, Fail))
    && (s.status == NeedsMoreWork ==> Shows(s, NeedsMore))
  }

  lemma WriteShows(s: State, job: nat)
    requires Covering(s) && Enabled(s, Write(job))
    ensures var t := Apply(s, Write(job));
            && Covering(t) && Shows(t, s.jobs[job].outcome)
            && (t.status == Passed <==> s.jobs[job].outcome == Pass)
            && (t.status == FailedTask <==> s.jobs[job].outcome == Fail)
            && (t.status == NeedsMoreWork <==> s.jobs[job].outcome == NeedsMore)
  {
    var t := Apply(s, Write(job));
    var e :| e in s.jobs[job].graded;
    assert t.evidence[e] == Some(s.jobs[job].outcome);
    assert t.evidence.Keys == s.evidence.Keys;
  }

  lemma OtherStepKeepsShown(s: State, step: Step)
    requires Covering(s) && VerdictShown(s) && Enabled(s, step) && !step.Write?
    ensures Covering(Apply(s, step)) && VerdictShown(Apply(s, step))
  {
    var t := Apply(s, step);
    assert s.evidence.Keys <= t.evidence.Keys;
    forall outcome | Shows(s, outcome) ensures Shows(t, outcome) {
      var e :| e in s.evidence && s.evidence[e] == Some(outcome);
      assert e in t.evidence && t.evidence[e] == Some(outcome);
    }
  }

  lemma {:induction false} RunsKeepShown(s: State, steps: seq<Step>)
    requires Covering(s) && VerdictShown(s) && Run(s, steps).Some?
    ensures Covering(Run(s, steps).value) && VerdictShown(Run(s, steps).value)
    decreases |steps|
  {
    if steps != [] {
      if steps[0].Write? {
        WriteShows(s, steps[0].job);
      } else {
        OtherStepKeepsShown(s, steps[0]);
      }
      hide Covering, Apply, Enabled, Shows;
      RunsKeepShown(Apply(s, steps[0]), steps[1..]);
    }
  }

  /** Over every run: a task is marked passed, failed or in need of more only with a
      submission whose verdict is that one; and the recording of a verdict marks it so. */
  lemma StatusIsAVerdict(steps: seq<Step>, job: nat)
    requires Run(START, steps).Some?
    ensures var s := Run(START, steps).value;
            && VerdictShown(s)
            && (Enabled(s, Write(job)) ==>
                  var t := Apply(s, Write(job));
                  && VerdictShown(t)
                  && (t.status == Passed <==> s.jobs[job].outcome == Pass)
                  && (t.status == FailedTask <==> s.jobs[job].outcome == Fail)
                  && (t.status == NeedsMoreWork <==> s.jobs[job].outcome == NeedsMore))
  {
    RunsKeepShown(START, steps);
    var s := Run(START, steps).value;
    if Enabled(s, Write(job)) {
      WriteShows(s, job);
    }
  }

  // ------------------------------------------------------------------ settled tasks

  lemma SpentStep(s: State, step: Step)
    requires s.attempts >= 3 && ActiveJobs(s) == {} && Enabled(s, step)
    ensures var t := Apply(s, step);
            && t.attempts == s.attempts && t.charges == s.charges
            && t.evidence == s.evidence && t.writes == s.writes && ActiveJobs(t) == {}
  {
    assert forall j <- s.jobs :: Active(s.jobs[j]) ==> j in ActiveJobs(s);
    ActiveAfter(s, Apply(s, step), step.job, Apply(s, step).jobs[step.job]);
  }

  /** Three attempts charged and nothing being graded: whatever is delivered, uploaded
      or fails later, no submission is taken or graded and nothing is charged. */
  lemma {:induction false} SpentTaskIsSettled(s: State, steps: seq<Step>)
    requires s.attempts >= 3 && ActiveJobs(s) == {} && Run(s, steps).Some?
    ensures var t := Run(s, steps).value;
            && t.attempts == s.attempts && t.charges == s.charges
            && t.evidence == s.evidence && t.writes == s.writes && ActiveJobs(t) == {}
    decreases |steps|
  {
    if steps != [] {
      SpentStep(s, steps[0]);
      hide Apply, Enabled, ActiveJobs;
      SpentTaskIsSettled(Apply(s, steps[0]), steps[1..]);
    }
  }

  /** Passed, with every submission graded and no delivery at work. */
  predicate AtRest(s: State) {
    && s.status == Passed && Pending(s) == {}
    && forall j <- s.jobs :: s.jobs[j].Delivered? || s.jobs[j] == Done
  }

  /** A passed task stays as it is, whatever is delivered again, as long as no delivery
      raises. */
  lemma {:induction false} PassedStaysPassed(s: State, steps: seq<Step>)
    requires AtRest(s) && Run(s, steps).Some? && forall step <- steps :: !step.Raise?
    ensures var t := Run(s, steps).value;
            AtRest(t) && t.(jobs := s.jobs) == s
    decreases |steps|
  {
    if steps != [] {
      assert steps[0] in steps && forall step <- steps[1..] :: step in steps;
      var t := Apply(s, steps[0]);
      assert Pending(t) == Pending(s);
      PassedStaysPassed(t, steps[1..]);
    }
  }

  /** And a delivery that raises reopens it, before it has looked at anything. */
  lemma RaisingDeliveryReopens(s: State, job: nat)
    requires job !in s.jobs
    ensures var steps := [Deliver(job), Raise(job), Release(job)];
            Run(s, steps) == Some(s.(jobs := s.jobs[job := Done], status := Open))
  {
    var delivered := Apply(s, Deliver(job));
    var raised := Apply(delivered, Raise(job));
    var end := Apply(raised, Release(job));
    assert end == s.(jobs := s.jobs[job := Done], status := Open) by {
      assert delivered.jobs[job := Failing({})][job := Done] == s.jobs[job := Done];
    }
    assert [Deliver(job), Raise(job), Release(job)][1..] == [Raise(job), Release(job)];
    assert [Raise(job), Release(job)][1..] == [Release(job)];
    assert [Release(job)][1..] == [];
    assert Run(end, []) == Some(end);
    assert Run(raised, [Release(job)]) == Some(end);
    assert Run(delivered, [Raise(job), Release(job)]) == Some(end);
  }
}
