/** What an audit is billed over every run of the protocol in `AuditRuns`, foreign
    writes, short leases and raising claims included. */
module AuditBilling {
  import opened Wrappers
  import opened AuditRuns

  // ------------------------------------------------------- passes against claims

  /** The jobs that have won a claim and not begun their pass. */
  function HeldJobs(s: State): set<nat> {
    set id | id in s.jobs && s.jobs[id].phase == Held
  }

  /** Every claim won is billed, came to nothing, or is about to begin. */
  predicate Balanced(s: State) {
    s.row.attempts == |s.billed| + s.idle + |HeldJobs(s)|
  }

  lemma HeldAfter(s: State, t: State, id: nat)
    requires id in t.jobs && t.jobs == s.jobs[id := t.jobs[id]]
    ensures HeldJobs(t) == if t.jobs[id].phase == Held then HeldJobs(s) + {id} else HeldJobs(s) - {id}
    ensures |HeldJobs(t)| ==
            |HeldJobs(s)| + (if t.jobs[id].phase == Held then 1 else 0) - (if id in HeldJobs(s) then 1 else 0)
  {
    var held := HeldJobs(s);
    assert HeldJobs(t) == if t.jobs[id].phase == Held then held + {id} else held - {id};
    assert id in held ==> held + {id} == held;
    assert id !in held ==> held - {id} == held;
  }

  predicate OfAJob(step: Step) {
    !step.ReadFailed? && !step.Rewrite? && !step.Tick?
  }

  lemma HeldMeansIn(s: State, id: nat)
    ensures id in HeldJobs(s) <==> In(s, id, Held)
  {
  }

  lemma JobStepCounts(s: State, step: Step, p: Policy)
    requires Enabled(s, step, p) && OfAJob(step)
    ensures var t, id := Apply(s, step, p), step.id;
            && id in t.jobs && t.jobs == s.jobs[id := t.jobs[id]]
            && t.row.attempts - |t.billed| - t.idle == s.row.attempts - |s.billed| - s.idle
                 + (if t.jobs[id].phase == Held then 1 else 0) - (if In(s, id, Held) then 1 else 0)
  {
  }

  lemma OtherStepCounts(s: State, step: Step, p: Policy)
    requires Balanced(s) && Enabled(s, step, p) && !OfAJob(step)
    ensures Balanced(Apply(s, step, p))
  {
    assert Apply(s, step, p).jobs == s.jobs;
  }

  lemma StepKeepsBalanced(s: State, step: Step, p: Policy)
    requires Balanced(s) && Enabled(s, step, p)
    ensures Balanced(Apply(s, step, p))
  {
    hide HeldJobs, Apply, Enabled;
    if OfAJob(step) {
      JobStepCounts(s, step, p);
      HeldAfter(s, Apply(s, step, p), step.id);
      HeldMeansIn(s, step.id);
    } else {
      OtherStepCounts(s, step, p);
    }
  }

  lemma {:induction false} RunsAreBalanced(s: State, steps: seq<Step>, p: Policy)
    requires Balanced(s) && Run(s, steps, p).Some?
    ensures Balanced(Run(s, steps, p).value)
    decreases |steps|
  {
    if steps != [] {
      StepKeepsBalanced(s, steps[0], p);
      hide Balanced, Apply, Enabled;
      RunsAreBalanced(Apply(s, steps[0], p), steps[1..], p);
    }
  }

  /** For any overlapping deliveries under any policy, the passes billed are exactly
      the claims won, less those that ended before their pass and those that hold
      the run without having begun it; so they never exceed the claims. */
  lemma PassesNeverExceedClaims(steps: seq<Step>, p: Policy)
    requires Run(START, steps, p).Some?
    ensures var s := Run(START, steps, p).value;
            && |s.billed| == s.row.attempts - s.idle - |HeldJobs(s)|
            && |s.billed| <= s.row.attempts
  {
    assert HeldJobs(START) == {};
    RunsAreBalanced(START, steps, p);
  }

  // --------------------------------------------------------------- at most one pass

  /** What may reopen a run: a claim of a failed row, a claim of a row past its
      lease, a resubmission that writes `queued`. */
  datatype Reopening = Reopening(failed: bool, expired: bool, requeued: bool)

  predicate Allowed(s: State, step: Step, p: Policy, r: Reopening) {
    && (step.Claim? && Claimable(s.row, s.now, p) ==>
          s.row.status == Queued || (if s.row.status == Failed then r.failed else r.expired))
    && (step.Rewrite? && step.to == Queued ==> r.requeued)
  }

  predicate Within(s: State, steps: seq<Step>, p: Policy, r: Reopening)
    decreases |steps|
  {
    steps != [] && Enabled(s, steps[0], p) ==>
      Allowed(s, steps[0], p, r) && Within(Apply(s, steps[0], p), steps[1..], p, r)
  }

  const NEVER := Reopening(false, false, false)

  lemma {:induction false} ClaimedOnce(s: State, steps: seq<Step>, p: Policy)
    requires s.row.attempts <= 1 && (s.row.status == Queued ==> s.row.attempts == 0)
    requires Run(s, steps, p).Some? && Within(s, steps, p, NEVER)
    ensures Run(s, steps, p).value.row.attempts <= 1
    decreases |steps|
  {
    if steps != [] {
      ClaimedOnce(Apply(s, steps[0], p), steps[1..], p);
    }
  }

  /** A run made one step longer. */
  lemma {:induction false} Then(from: State, steps: seq<Step>, s: State, step: Step, p: Policy, r: Reopening)
    returns (longer: seq<Step>, next: State)
    requires Run(from, steps, p) == Some(s) && Within(from, steps, p, r)
    requires Enabled(s, step, p) && Allowed(s, step, p, r)
    ensures longer == steps + [step] && next == Apply(s, step, p)
    ensures Run(from, longer, p) == Some(next) && Within(from, longer, p, r)
    decreases |steps|
  {
    longer, next := steps + [step], Apply(s, step, p);
    if steps == [] {
      assert longer[1..] == [];
    } else {
      var inner, _ := Then(Apply(from, steps[0], p), steps[1..], s, step, p, r);
      assert longer[1..] == inner;
    }
  }

  lemma NothingYet(p: Policy, r: Reopening)
    ensures Run(START, [], p) == Some(START) && Within(START, [], p, r)
  {
  }

  /** A delivery that wins its claim and bills a pass. */
  lemma Bills(from: State, steps: seq<Step>, s: State, id: nat, p: Policy, r: Reopening)
    returns (longer: seq<Step>, next: State)
    requires Run(from, steps, p) == Some(s) && Within(from, steps, p, r)
    requires id !in s.jobs && Claimable(s.row, s.now, p)
    requires s.row.status == Queued || (if s.row.status == Failed then r.failed else r.expired)
    ensures Run(from, longer, p) == Some(next) && Within(from, longer, p, r)
    ensures next.jobs == s.jobs[id := Job(s.now, Scoring)] && next.billed == s.billed + [id]
    ensures next.row == Claimed(s.row, s.now) && next.now == s.now && next.requests == s.requests
  {
    hide Run, Within;
    longer, next := Then(from, steps, s, Deliver(id), p, r);
    longer, next := Then(from, longer, next, Claim(id), p, r);
    assert next.jobs == s.jobs[id := Job(s.now, Held)];
    longer, next := Then(from, longer, next, StartScoring(id), p, r);
  }

  /** A first pass that fails and is recorded. */
  lemma BillsAndFails(p: Policy, r: Reopening) returns (steps: seq<Step>, s: State)
    ensures Run(START, steps, p) == Some(s) && Within(START, steps, p, r)
    ensures s.row.status == Failed && s.row.attempts == 1
    ensures s.billed == [0] && s.jobs.Keys == {0} && s.requests == map[]
  {
    NothingYet(p, r);
    hide Run, Within;
    steps, s := Bills(START, [], START, 0, p, r);
    steps, s := Then(START, steps, s, Raise(0), p, r);
    steps, s := Then(START, steps, s, RecordFailure(0), p, r);
  }

  lemma FailedRowBillsTwice(p: Policy, r: Reopening) returns (steps: seq<Step>, s: State)
    requires r.failed
    ensures Run(START, steps, p) == Some(s) && Within(START, steps, p, r) && |s.billed| == 2
  {
    hide Run, Within;
    steps, s := BillsAndFails(p, r);
    steps, s := Bills(START, steps, s, 1, p, r);
  }

  lemma ExpiredLeaseBillsTwice(p: Policy, r: Reopening) returns (steps: seq<Step>, s: State)
    requires r.expired
    ensures Run(START, steps, p) == Some(s) && Within(START, steps, p, r) && |s.billed| == 2
  {
    NothingYet(p, r);
    hide Run, Within;
    steps, s := Bills(START, [], START, 0, p, r);
    steps, s := Then(START, steps, s, Die(0), p, r);
    assert s.jobs == map[0 := Job(0, Done)];
    steps, s := Then(START, steps, s, Tick(p.lease + 1), p, r);
    steps, s := Bills(START, steps, s, 1, p, r);
  }

  lemma RequeueBillsTwice(p: Policy, r: Reopening) returns (steps: seq<Step>, s: State)
    requires r.requeued
    ensures Run(START, steps, p) == Some(s) && Within(START, steps, p, r) && |s.billed| == 2
  {
    hide Run, Within;
    steps, s := BillsAndFails(p, r);
    steps, s := Then(START, steps, s, ReadFailed(0), p, r);
    steps, s := Then(START, steps, s, Rewrite(0, Queued), p, r);
    steps, s := Bills(START, steps, s, 1, p, r);
  }

  ghost predicate OnePassAtMost(p: Policy, r: Reopening) {
    forall steps :: Run(START, steps, p).Some? && Within(START, steps, p, r) ==>
      |Run(START, steps, p).value.billed| <= 1
  }

  /** At most one pass is billed over all runs, raising claims included, exactly when
      nothing may reopen a run: no claim of a failed row, none of an expired lease,
      and no resubmission back to the queue. The code allows all three. */
  lemma OnePassExactlyIfNothingReopens(p: Policy, r: Reopening)
    ensures OnePassAtMost(p, r) <==> r == NEVER
  {
    if r == NEVER {
      forall steps | Run(START, steps, p).Some? && Within(START, steps, p, r)
        ensures |Run(START, steps, p).value.billed| <= 1
      {
        ClaimedOnce(START, steps, p);
        PassesNeverExceedClaims(steps, p);
      }
    } else {
      hide Run, Within;
      var steps, s;
      if r.failed {
        steps, s := FailedRowBillsTwice(p, r);
      } else if r.expired {
        steps, s := ExpiredLeaseBillsTwice(p, r);
      } else {
        steps, s := RequeueBillsTwice(p, r);
      }
      assert |Run(START, steps, p).value.billed| > 1;
    }
  }
}
