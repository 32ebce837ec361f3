/** How high the stored counter of grading attempts can climb: a recording writes one
    more than the counter it read, so a stale one lowers it and reopens the cap check. */
module EvidenceCounter {
  import opened Wrappers
  import opened EvidenceGrading
  import opened EvidenceOverlap

  // -------------------------------------------------------------- two at a time

  /** What two gradings at a time keep: nobody is admitted beside a reader of a full
      counter, so no stale recording can lower what another is about to raise. */
  predicate InPairs(s: State) {
    && s.attempts <= MAX_ATTEMPTS + 1
    && (forall i <- s.jobs :: Active(s.jobs[i]) ==> s.attempts <= MAX_ATTEMPTS)
    && (forall i <- s.jobs :: s.jobs[i].Recording? ==>
          s.jobs[i].seen <= MAX_ATTEMPTS && (s.jobs[i].seen == MAX_ATTEMPTS ==> s.attempts == MAX_ATTEMPTS))
    && (forall i <- s.jobs, j <- s.jobs :: i != j && Active(s.jobs[i]) && Active(s.jobs[j]) ==>
          s.attempts < MAX_ATTEMPTS && (s.jobs[i].Recording? ==> s.jobs[i].seen < MAX_ATTEMPTS))
  }

  lemma OneLeft(s: State, job: nat)
    requires |ActiveJobs(s)| <= 2 && job in ActiveJobs(s)
    ensures forall i <- s.jobs, j <- s.jobs ::
              Active(s.jobs[i]) && Active(s.jobs[j]) && i != job && j != job ==> i == j
  {
    var others := ActiveJobs(s) - {job};
    assert |others| <= 1;
    forall i <- s.jobs, j <- s.jobs | Active(s.jobs[i]) && Active(s.jobs[j]) && i != job && j != job ensures i == j {
      assert i in others && j in others;
      assert |others - {i}| == |others| - 1;
      assert j !in others - {i};
    }
  }

  lemma WriteKeepsInPairs(s: State, job: nat)
    requires InPairs(s) && |ActiveJobs(s)| <= 2 && Enabled(s, Write(job))
    ensures InPairs(Apply(s, Write(job)))
  {
    OneLeft(s, job);
    hide ActiveJobs;
  }

  lemma OtherStepKeepsInPairs(s: State, step: Step)
    requires InPairs(s) && Enabled(s, step) && !step.Write?
    ensures InPairs(Apply(s, step))
  {
  }

  lemma {:induction false} RunsAreInPairs(s: State, steps: seq<Step>)
    requires InPairs(s) && Run(s, steps).Some? && Overlap(s, steps, 2)
    ensures InPairs(Run(s, steps).value)
    decreases |steps|
  {
    if steps != [] {
      if steps[0].Write? {
        WriteKeepsInPairs(s, steps[0].job);
      } else {
        OtherStepKeepsInPairs(s, steps[0]);
      }
      hide InPairs, Apply, Enabled, ActiveJobs;
      RunsAreInPairs(Apply(s, steps[0]), steps[1..]);
    }
  }

  // ----------------------------------------------------------- the moves of a run

  predicate Reopened(s: State) {
    s.attempts < MAX_ATTEMPTS && s.status != Passed
  }

  predicate Records(s: State, job: nat, seen: nat) {
    job in s.jobs && s.jobs[job].Recording? && s.jobs[job].outcome == Fail && s.jobs[job].seen == seen
  }

  lemma UploadChanges(s: State, e: nat, job: nat)
    requires Reopened(s) && e !in s.evidence.Keys + s.writes.Keys && job !in s.jobs
    ensures Enabled(s, Upload(e))
    ensures var t := Apply(s, Upload(e));
            t.jobs == s.jobs && t.attempts == s.attempts && t.status != Passed && Pending(t) != {}
    ensures ActiveJobs(Apply(s, Upload(e))) == ActiveJobs(s)
  {
    assert e in Pending(Apply(s, Upload(e)));
  }

  lemma AdmissionChanges(t: State, job: nat)
    requires job !in t.jobs && t.attempts < MAX_ATTEMPTS && Pending(t) != {}
    ensures Enabled(t, Deliver(job)) && ActiveJobs(Apply(t, Deliver(job))) <= ActiveJobs(t) + {job}
    ensures Enabled(Apply(t, Deliver(job)), Admit(job))
    ensures Apply(Apply(t, Deliver(job)), Admit(job)) == Move(t, job, Grading(Pending(t)))
  {
    var d := Apply(t, Deliver(job));
    ActiveAfter(t, d, job, Delivered);
    assert Pending(d) == Pending(t);
    assert d.jobs[job := Grading(Pending(t))] == t.jobs[job := Grading(Pending(t))];
  }

  lemma AnswerChanges(t: State, job: nat, graded: set<nat>)
    ensures var a := Move(t, job, Grading(graded));
            Enabled(a, Answer(job, Fail)) && Apply(a, Answer(job, Fail)) == Move(t, job, Graded(graded, Fail))
    ensures ActiveJobs(Move(t, job, Grading(graded))) == ActiveJobs(t) + {job}
    ensures ActiveJobs(Move(t, job, Graded(graded, Fail))) == ActiveJobs(t) + {job}
  {
    var a := Move(t, job, Grading(graded));
    assert a.jobs[job := Graded(graded, Fail)] == t.jobs[job := Graded(graded, Fail)];
    ActiveAfter(t, a, job, Grading(graded));
    ActiveAfter(t, Move(t, job, Graded(graded, Fail)), job, Graded(graded, Fail));
  }

  /** A new job is admitted for a new submission and gets its answer. */
  lemma Enter(from: State, steps: seq<Step>, s: State, k: nat)
    returns (longer: seq<Step>, next: State, job: nat)
    requires Run(from, steps) == Some(s) && Overlap(from, steps, k) && Reopened(s) && |ActiveJobs(s)| < k
    ensures Run(from, longer) == Some(next) && Overlap(from, longer, k)
    ensures job !in s.jobs && job in next.jobs && next.jobs == s.jobs[job := next.jobs[job]]
    ensures next.jobs[job].Graded? && next.jobs[job].outcome == Fail
    ensures next.attempts == s.attempts && next.status != Passed && ActiveJobs(next) == ActiveJobs(s) + {job}
  {
    var e := FreshId(s.evidence.Keys + s.writes.Keys);
    job := FreshId(s.jobs.Keys);
    var among := ActiveJobs(s) + {job};
    assert |among| <= k by { hide *; }
    UploadChanges(s, e, job);
    hide Run, Overlap, ActiveJobs, Pending, Apply, Enabled;
    longer, next := ThenAmong(from, steps, s, Upload(e), among, k);
    var t, graded := next, Pending(next);
    AdmissionChanges(t, job);
    AnswerChanges(t, job, graded);
    longer, next := ThenAmong(from, longer, next, Deliver(job), among, k);
    longer, next := ThenAmong(from, longer, next, Admit(job), among, k);
    longer, next := ThenAmong(from, longer, next, Answer(job, Fail), among, k);
  }

  /** An answered job reads the counter. */
  lemma ReadIn(from: State, steps: seq<Step>, s: State, job: nat, k: nat)
    returns (longer: seq<Step>, next: State)
    requires Run(from, steps) == Some(s) && Overlap(from, steps, k) && |ActiveJobs(s)| <= k
    requires job in s.jobs && s.jobs[job].Graded? && s.jobs[job].outcome == Fail
    ensures Run(from, longer) == Some(next) && Overlap(from, longer, k)
    ensures job in next.jobs && next.jobs == s.jobs[job := next.jobs[job]] && Records(next, job, s.attempts)
    ensures next.attempts == s.attempts && next.status == s.status && ActiveJobs(next) == ActiveJobs(s)
  {
    ActiveAfter(s, Apply(s, Read(job)), job, Apply(s, Read(job)).jobs[job]);
    assert job in ActiveJobs(s);
    hide Run, Overlap, ActiveJobs;
    longer, next := ThenAmong(from, steps, s, Read(job), ActiveJobs(s), k);
  }

  /** A recording is written, current or stale. */
  lemma WriteOut(from: State, steps: seq<Step>, s: State, job: nat, seen: nat, k: nat)
    returns (longer: seq<Step>, next: State)
    requires Run(from, steps) == Some(s) && Overlap(from, steps, k) && |ActiveJobs(s)| <= k
    requires Records(s, job, seen)
    ensures Run(from, longer) == Some(next) && Overlap(from, longer, k)
    ensures next.jobs == s.jobs[job := Done] && next.attempts == seen + 1 && next.status != Passed
    ensures ActiveJobs(next) == ActiveJobs(s) - {job}
  {
    ActiveAfter(s, Apply(s, Write(job)), job, Done);
    hide Run, Overlap, ActiveJobs;
    longer, next := ThenAmong(from, steps, s, Write(job), ActiveJobs(s), k);
  }

  // ---------------------------------------------------------------- the ladder

  /** One job has read `height`; `low` others have read no more than `most`; nobody
      else grades, and there is room for one more. */
  predicate Standing(s: State, top: nat, height: nat, low: set<nat>, most: nat, k: nat) {
    && ActiveJobs(s) == low + {top} && top !in low && |low| + 2 <= k
    && Records(s, top, height)
    && forall job <- low ::
         job in s.jobs && s.jobs[job].Recording? && s.jobs[job].outcome == Fail && s.jobs[job].seen <= most
  }

  lemma ActiveCount(s: State, top: nat, height: nat, low: set<nat>, most: nat, k: nat)
    requires Standing(s, top, height, low, most, k)
    ensures |ActiveJobs(s)| == |low| + 1 < k
    ensures forall job <- ActiveJobs(s) :: job in s.jobs
  {
    hide ActiveJobs;
  }

  /** A new job waits to read, the top one writes, and the new one reads what it wrote. */
  lemma Climb(from: State, steps: seq<Step>, s: State, top: nat, height: nat, low: set<nat>, most: nat, k: nat)
    returns (longer: seq<Step>, next: State, job: nat)
    requires Run(from, steps) == Some(s) && Overlap(from, steps, k)
    requires Standing(s, top, height, low, most, k) && Reopened(s)
    ensures Run(from, longer) == Some(next) && Overlap(from, longer, k)
    ensures Standing(next, job, height + 1, low, most, k)
    ensures next.attempts == height + 1 && next.status != Passed
  {
    ActiveCount(s, top, height, low, most, k);
    hide Run, Overlap, ActiveJobs;
    longer, next, job := Enter(from, steps, s, k);
    assert job !in low && job != top;
    assert |low + {top} + {job}| <= k;
    longer, next := WriteOut(from, longer, next, top, height, k);
    assert ActiveJobs(next) == low + {job};
    longer, next := ReadIn(from, longer, next, job, k);
  }

  /** One of the others writes what it read long ago, and the cap check opens again. */
  lemma Lower(from: State, steps: seq<Step>, s: State, top: nat, height: nat, low: set<nat>, most: nat, k: nat)
    returns (longer: seq<Step>, next: State, rest: set<nat>)
    requires Run(from, steps) == Some(s) && Overlap(from, steps, k)
    requires Standing(s, top, height, low, most, k) && low != {}
    ensures Run(from, longer) == Some(next) && Overlap(from, longer, k)
    ensures Standing(next, top, height, rest, most, k) && |rest| == |low| - 1
    ensures next.attempts <= most + 1 && next.status != Passed
  {
    ActiveCount(s, top, height, low, most, k);
    hide Run, Overlap, ActiveJobs;
    var job :| job in low;
    rest := low - {job};
    longer, next := WriteOut(from, steps, s, job, s.jobs[job].seen, k);
    assert ActiveJobs(next) == rest + {top};
  }

  /** One more job reads the counter while it is low. */
  lemma Refill(from: State, steps: seq<Step>, s: State, top: nat, height: nat, low: set<nat>, most: nat, k: nat)
    returns (longer: seq<Step>, next: State, more: set<nat>)
    requires Run(from, steps) == Some(s) && Overlap(from, steps, k)
    requires Standing(s, top, height, low, most, k) && Reopened(s) && s.attempts <= most && |low| + 3 <= k
    ensures Run(from, longer) == Some(next) && Overlap(from, longer, k)
    ensures Standing(next, top, height, more, most, k) && |more| == |low| + 1
    ensures next.attempts == s.attempts && next.status != Passed
  {
    ActiveCount(s, top, height, low, most, k);
    hide Run, Overlap, ActiveJobs;
    var job;
    longer, next, job := Enter(from, steps, s, k);
    more := low + {job};
    assert job !in low && job != top;
    assert ActiveJobs(next) == more + {top};
    assert |more + {top}| == |more| + 1;
    longer, next := ReadIn(from, longer, next, job, k);
  }

  lemma {:induction false} RefillAll(from: State, steps: seq<Step>, s: State, top: nat, low: set<nat>, k: nat)
    returns (longer: seq<Step>, next: State, full: set<nat>)
    requires Run(from, steps) == Some(s) && Overlap(from, steps, k)
    requires Standing(s, top, 0, low, 0, k) && Reopened(s) && s.attempts == 0
    ensures Run(from, longer) == Some(next) && Overlap(from, longer, k)
    ensures Standing(next, top, 0, full, 0, k) && Reopened(next) && next.attempts == 0 && |full| + 2 == k
    decreases k - |low|
  {
    longer, next, full := steps, s, low;
    if |low| + 2 < k {
      hide Run, Overlap, Standing;
      longer, next, full := Refill(from, steps, s, top, 0, low, 0, k);
      longer, next, full := RefillAll(from, longer, next, top, full, k);
    }
  }

  /** Every stale recording left lets the counter climb one higher. */
  lemma {:induction false} Ladder(from: State, steps: seq<Step>, s: State, top: nat, height: nat, low: set<nat>, k: nat)
    returns (longer: seq<Step>, next: State)
    requires Run(from, steps) == Some(s) && Overlap(from, steps, k) && Standing(s, top, height, low, 1, k)
    ensures Run(from, longer) == Some(next) && Overlap(from, longer, k)
    ensures next.attempts == height + 1 + |low|
    decreases |low|
  {
    if low == {} {
      ActiveCount(s, top, height, low, 1, k);
      hide Run, Overlap, ActiveJobs;
      longer, next := WriteOut(from, steps, s, top, height, k);
    } else {
      hide Run, Overlap, Standing;
      var rest, job;
      longer, next, rest := Lower(from, steps, s, top, height, low, 1, k);
      longer, next, job := Climb(from, longer, next, top, height, rest, 1, k);
      longer, next := Ladder(from, longer, next, job, height + 1, rest, k);
    }
  }

  /** All `k` jobs have read an empty counter. */
  lemma AllReadZero(k: nat) returns (steps: seq<Step>, s: State, top: nat, low: set<nat>)
    requires k >= 3
    ensures Run(START, steps) == Some(s) && Overlap(START, steps, k)
    ensures Standing(s, top, 0, low, 0, k) && Reopened(s) && s.attempts == 0 && |low| + 2 == k
  {
    assert ActiveJobs(START) == {};
    assert Run(START, []) == Some(START) && Overlap(START, [], k);
    hide Run, Overlap, ActiveJobs;
    steps, s, top := Enter(START, [], START, k);
    assert ActiveJobs(s) == {top};
    steps, s := ReadIn(START, steps, s, top, k);
    assert {top} == {} + {top};
    steps, s, low := RefillAll(START, steps, s, top, {}, k);
  }

  /** With three gradings at a time or more, the counter passes the cap plus the overlap. */
  lemma CounterClimbs(k: nat) returns (steps: seq<Step>, s: State)
    requires k >= 3
    ensures Run(START, steps) == Some(s) && Overlap(START, steps, k) && s.attempts == MAX_ATTEMPTS + k
  {
    var top, low;
    steps, s, top, low := AllReadZero(k);
    hide Run, Overlap;
    for height := 0 to MAX_ATTEMPTS
      invariant Run(START, steps) == Some(s) && Overlap(START, steps, k)
      invariant Standing(s, top, height, low, 0, k) && s.attempts == height && s.status != Passed
      invariant |low| + 2 == k
    {
      hide Standing;
      steps, s, top := Climb(START, steps, s, top, height, low, 0, k);
    }
    steps, s, low := Lower(START, steps, s, top, MAX_ATTEMPTS, low, 0, k);
    assert Standing(s, top, MAX_ATTEMPTS, low, 1, k);
    hide Standing;
    steps, s, low := Refill(START, steps, s, top, MAX_ATTEMPTS, low, 1, k);
    steps, s, top := Climb(START, steps, s, top, MAX_ATTEMPTS, low, 1, k);
    steps, s := Ladder(START, steps, s, top, MAX_ATTEMPTS + 1, low, k);
  }

  // ------------------------------------------------------------------ exactly when

  ghost predicate CounterStaysNear(k: nat) {
    forall steps :: Run(START, steps).Some? && Overlap(START, steps, k) ==>
      Run(START, steps).value.attempts <= MAX_ATTEMPTS - 1 + k
  }

  /** Over all runs with at most `k` gradings at a time the stored counter keeps to the
      cap plus the overlap, if and only if `k` is at most two. */
  lemma CounterStaysNearExactlyForPairs(k: nat)
    requires k >= 1
    ensures CounterStaysNear(k) <==> k <= 2
  {
    if k == 1 {
      forall steps | Run(START, steps).Some? && Overlap(START, steps, 1)
        ensures Run(START, steps).value.attempts <= MAX_ATTEMPTS
      {
        WithoutOverlapEachSubmissionIsGradedOnce(steps);
      }
    } else if k == 2 {
      forall steps | Run(START, steps).Some? && Overlap(START, steps, 2)
        ensures Run(START, steps).value.attempts <= MAX_ATTEMPTS + 1
      {
        RunsAreInPairs(START, steps);
      }
    } else {
      hide Run, Overlap;
      var steps, s := CounterClimbs(k);
      assert Run(START, steps).value.attempts > MAX_ATTEMPTS - 1 + k;
    }
  }
}
