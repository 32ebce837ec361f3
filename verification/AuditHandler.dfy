/** `run_audit_async` as one delivery executes it from top to bottom: what each
    failure leaves on the row, what is billed and what escapes to the queue, and
    that each such execution is a run of the protocol in `AuditRuns`. */
module AuditHandler {
  import opened Wrappers
  import opened AuditRuns

  /** Where this execution raises, and whether the profile exists. The last two
      are the side effects after the report is stored. */
  datatype World = World(
    claimRaises: bool, profile: bool, preparingRaises: bool, scoringRaises: bool,
    recordingRaises: bool, storingRaises: bool, tasksRaise: bool, emailRaises: bool)

  /** `_record_failure`: best effort. */
  method RecordFailure(run: AuditRun, w: World)
    modifies run
    ensures run.View() == if w.recordingRaises then old(run.View()) else old(run.View()).(status := Failed)
  {
    if !w.recordingRaises {
      run.MarkFailed();
    }
  }

  /** A pass is billed once the claim is won and everything before it went well. */
  predicate Bills(row: Row, now: int, p: Policy, w: World) {
    !w.claimRaises && Claimable(row, now, p) && w.profile && !w.preparingRaises
  }

  function FailedUnless(row: Row, unrecorded: bool): Row {
    if unrecorded then row else row.(status := Failed)
  }

  function FinalRow(row: Row, job: nat, now: int, p: Policy, w: World): Row {
    if w.claimRaises then FailedUnless(row, w.recordingRaises)
    else if !Claimable(row, now, p) then row
    else
      var claimed := Claimed(row, now);
      if !w.profile then claimed.(status := Failed)
      else if w.preparingRaises || w.scoringRaises then FailedUnless(claimed, w.recordingRaises)
      else if w.storingRaises then claimed
      else claimed.(status := Succeeded, report := Some(job))
  }

  /** The result: whether a scoring pass was billed, and whether an exception
      reached the queue, which would deliver the job again by itself. */
  method RunAudit(run: AuditRun, job: nat, now: int, p: Policy, w: World) returns (billed: bool, escaped: bool)
    modifies run
    ensures run.View() == FinalRow(old(run.View()), job, now, p, w)
    ensures billed == Bills(old(run.View()), now, p, w)
    // Exactly a failure to store a finished report escapes; side effects never do.
    ensures escaped <==> Bills(old(run.View()), now, p, w) && !w.scoringRaises && w.storingRaises
    ensures escaped ==> run.status == Running
    ensures billed && !w.scoringRaises && !escaped ==> run.status == Succeeded && run.report == Some(job)
    // A run won is left marked running exactly when its report or its failure could not be stored.
    ensures !w.claimRaises && Claimable(old(run.View()), now, p) ==>
              (run.status == Running <==>
                 || escaped
                 || (w.profile && (w.preparingRaises || w.scoringRaises) && w.recordingRaises))
    ensures !billed ==> !escaped && run.report == old(run.report)
  {
    billed, escaped := false, false;
    // The `try` block: any exception in it records the failure and stops.
    if w.claimRaises {
      RecordFailure(run, w);
      return;
    }
    var won := run.Claim(now, p);
    if !won {
      return;
    }
    if !w.profile {
      run.MarkFailed();
      return;
    }
    if w.preparingRaises {
      RecordFailure(run, w);
      return;
    }
    billed := true;
    if w.scoringRaises {
      RecordFailure(run, w);
      return;
    }
    // Outside the `try`.
    if w.storingRaises {
      return true, true;
    }
    run.MarkSucceeded(job);
    // `_generate_readiness_tasks` and `_email_report` swallow what they raise.
    if w.tasksRaise || w.emailRaises {
      return;
    }
  }

  // ----------------------------------------------------- executions are runs

  /** What a failure becomes in the protocol: recorded, or the job gone without a word. */
  function Ending(id: nat, w: World): Step {
    if w.recordingRaises then Die(id) else Step.RecordFailure(id)
  }

  /** The protocol's steps, in the order the handler takes them. */
  function Trace(s: State, id: nat, p: Policy, w: World): seq<Step> {
    if w.claimRaises then [ClaimRaises(id), Ending(id, w)]
    else if !Claimable(s.row, s.now, p) then [Claim(id)]
    else if !w.profile then [Claim(id), ProfileMissing(id)]
    else if w.preparingRaises then [Claim(id), Raise(id), Ending(id, w)]
    else if w.scoringRaises then [Claim(id), StartScoring(id), Raise(id), Ending(id, w)]
    else if w.storingRaises then [Claim(id), StartScoring(id), FinishScoring(id), Die(id)]
    else [Claim(id), StartScoring(id), FinishScoring(id), Store(id), Notify(id)]
  }

  lemma NoSteps(s: State, p: Policy)
    ensures Run(s, [], p) == Some(s)
  {
  }

  lemma EndingRuns(from: State, steps: seq<Step>, s: State, id: nat, p: Policy, w: World)
    returns (longer: seq<Step>, end: State)
    requires Run(from, steps, p) == Some(s)
    requires id in s.jobs && s.jobs[id].phase.Failing?
    ensures longer == steps + [Ending(id, w)] && Run(from, longer, p) == Some(end)
    ensures end.row == FailedUnless(s.row, w.recordingRaises) && end.billed == s.billed
    ensures end.jobs == s.jobs[id := Job(s.jobs[id].since, Done)]
  {
    hide Run, Courteous;
    longer, end := Then(from, steps, s, Ending(id, w), p);
  }

  lemma ScoredRuns(from: State, steps: seq<Step>, s: State, id: nat, p: Policy)
    returns (longer: seq<Step>, end: State)
    requires Run(from, steps, p) == Some(s) && In(s, id, Held)
    ensures longer == steps + [StartScoring(id)] + [FinishScoring(id)] && Run(from, longer, p) == Some(end)
    ensures end == s.(jobs := s.jobs[id := Job(s.jobs[id].since, Scored)], billed := s.billed + [id])
  {
    hide Run, Courteous;
    longer, end := Then(from, steps, s, StartScoring(id), p);
    longer, end := Then(from, longer, end, FinishScoring(id), p);
  }

  /** Every execution of the handler is a run of the protocol that ends this
      delivery, leaves the row the handler leaves and bills what it bills. */
  lemma ExecutionIsARun(s: State, id: nat, p: Policy, w: World) returns (end: State)
    requires In(s, id, Delivered)
    ensures Run(s, Trace(s, id, p, w), p) == Some(end)
    ensures end.row == FinalRow(s.row, id, s.now, p, w) && In(end, id, Done)
    ensures end.billed == if Bills(s.row, s.now, p, w) then s.billed + [id] else s.billed
  {
    hide Run, Courteous;
    NoSteps(s, p);
    var steps;
    if w.claimRaises {
      steps, end := Then(s, [], s, ClaimRaises(id), p);
      steps, end := EndingRuns(s, steps, end, id, p, w);
      assert steps == Trace(s, id, p, w);
      return;
    }
    steps, end := Then(s, [], s, Claim(id), p);
    assert steps == [Claim(id)];
    if !Claimable(s.row, s.now, p) {
      return;
    }
    if !w.profile {
      steps, end := Then(s, steps, end, ProfileMissing(id), p);
    } else if w.preparingRaises {
      steps, end := Then(s, steps, end, Raise(id), p);
      steps, end := EndingRuns(s, steps, end, id, p, w);
    } else if w.scoringRaises {
      steps, end := Then(s, steps, end, StartScoring(id), p);
      steps, end := Then(s, steps, end, Raise(id), p);
      steps, end := EndingRuns(s, steps, end, id, p, w);
    } else {
      steps, end := ScoredRuns(s, steps, end, id, p);
      if w.storingRaises {
        steps, end := Then(s, steps, end, Die(id), p);
      } else {
        steps, end := Then(s, steps, end, Store(id), p);
        steps, end := Then(s, steps, end, Notify(id), p);
      }
    }
    assert steps == Trace(s, id, p, w);
  }
}
