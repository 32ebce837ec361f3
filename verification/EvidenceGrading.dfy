/** Grading a readiness task's evidence: the cap check, the unlocked model call,
    and the recording that charges an attempt, under any number of deliveries. */
module EvidenceGrading {
  import opened Wrappers

  const MAX_ATTEMPTS := 3

  datatype Outcome = Pass | Fail | NeedsMore
  datatype TaskStatus = Open | Submitted | Passed | FailedTask | NeedsMoreWork

  function StatusFor(o: Outcome): TaskStatus {
    match o
    case Pass => Passed
    case Fail => FailedTask
    case NeedsMore => NeedsMoreWork
  }

  /** One delivery of the job. Recording reads the task row and writes it back in
      two statements, so `seen` is the counter it read. */
  datatype Phase =
    | Delivered
    | Grading(graded: set<nat>)
    | Graded(graded: set<nat>, outcome: Outcome)
    | Recording(graded: set<nat>, outcome: Outcome, seen: nat)
    | Failing(graded: set<nat>)
    | Done

  predicate Active(phase: Phase) {
    phase.Grading? || phase.Graded? || phase.Recording?
  }

  /** The task row, its evidence rows, and the jobs. `errors` are the submissions
      marked `assessment_failed`, `charges` counts gradings recorded, and `writes`
      how often each submission got an outcome. */
  datatype State = State(
    status: TaskStatus, attempts: nat, evidence: map<nat, Option<Outcome>>, jobs: map<nat, Phase>,
    charges: nat, writes: map<nat, nat>, errors: set<nat>)

  function Pending(s: State): set<nat> {
    set e | e in s.evidence && s.evidence[e] == None
  }

  function ActiveJobs(s: State): set<nat> {
    set j | j in s.jobs && Active(s.jobs[j])
  }

  /** The evidence rows once every submission in `graded` carries the verdict. */
  function Judged(evidence: map<nat, Option<Outcome>>, graded: set<nat>, outcome: Outcome): map<nat, Option<Outcome>> {
    map e | e in evidence :: if e in graded then Some(outcome) else evidence[e]
  }

  /** What a verdict makes of the status, the counter as read, and the evidence rows. */
  function Assessed(attempts: nat, evidence: map<nat, Option<Outcome>>, graded: set<nat>, outcome: Outcome)
    : (TaskStatus, nat, map<nat, Option<Outcome>>)
  {
    (StatusFor(outcome), attempts + 1, Judged(evidence, graded, outcome))
  }

  /** The submissions marked once a grading of `graded` has failed. */
  function Marked(errors: set<nat>, evidence: map<nat, Option<Outcome>>, graded: set<nat>): set<nat> {
    errors + graded * evidence.Keys
  }

  /** The task row and its evidence rows in place, as one recording session sees them. */
  class TaskRecord {
    var status: TaskStatus
    var attempts: nat
    var evidence: map<nat, Option<Outcome>>
    var errors: set<nat>

    constructor ()
      ensures status == Open && attempts == 0 && evidence == map[] && errors == {}
    {
      status, attempts, evidence, errors := Open, 0, map[], {};
    }

    /** `record_assessment`: one verdict on every row it covered, skipping rows
        deleted meanwhile, and one attempt charged. */
    method RecordAssessment(graded: seq<nat>, outcome: Outcome)
      modifies this`status, this`attempts, this`evidence
      ensures (status, attempts, evidence) == Assessed(old(attempts), old(evidence), (set e | e in graded), outcome)
    {
      for i := 0 to |graded|
        invariant evidence == Judged(old(evidence), (set e | e in graded[..i]), outcome)
        invariant attempts == old(attempts)
      {
        if graded[i] in evidence {
          evidence := evidence[graded[i] := Some(outcome)];
        }
      }
      assert graded[..|graded|] == graded;
      status, attempts := StatusFor(outcome), attempts + 1;
    }

    /** `record_assessment_failure`: back to open, an error code on every row it
        covered, nothing charged and no outcome. */
    method RecordFailure(graded: seq<nat>)
      modifies this`status, this`errors
      ensures status == Open
      ensures errors == Marked(old(errors), evidence, (set e | e in graded))
    {
      status := Open;
      for i := 0 to |graded|
        invariant errors == old(errors) + (set e | e in graded[..i] && e in evidence)
        invariant status == Open
      {
        if graded[i] in evidence {
          errors := errors + {graded[i]};
        }
      }
      assert graded[..|graded|] == graded;
    }
  }

  datatype Step =
    | Upload(evidence: nat)
    | Deliver(job: nat)
    | Admit(job: nat)
    | Answer(job: nat, outcome: Outcome)
    | Raise(job: nat)
    | Release(job: nat)
    | Read(job: nat)
    | Write(job: nat)
    | Die(job: nat)

  predicate Enabled(s: State, step: Step) {
    match step
    case Upload(e) => e !in s.evidence && e !in s.writes && s.status != Passed && s.attempts < MAX_ATTEMPTS
    case Deliver(job) => job !in s.jobs
    case Admit(job) => job in s.jobs && s.jobs[job].Delivered?
    case Answer(job, _) => job in s.jobs && s.jobs[job].Grading?
    case Raise(job) => job in s.jobs && (s.jobs[job].Delivered? || s.jobs[job].Grading?)
    case Release(job) => job in s.jobs && s.jobs[job].Failing?
    case Read(job) => job in s.jobs && s.jobs[job].Graded?
    case Write(job) => job in s.jobs && s.jobs[job].Recording?
    case Die(job) => job in s.jobs && s.jobs[job] != Done
  }

  function Move(s: State, job: nat, phase: Phase): State {
    s.(jobs := s.jobs[job := phase])
  }

  function Recorded(s: State, graded: set<nat>, outcome: Outcome, seen: nat): State {
    var (status, attempts, evidence) := Assessed(seen, s.evidence, graded, outcome);
    s.(status := status, attempts := attempts, charges := s.charges + 1, evidence := evidence,
       writes := map e | e in s.writes :: if e in graded then s.writes[e] + 1 else s.writes[e])
  }

  function Apply(s: State, step: Step): State
    requires Enabled(s, step)
  {
    match step
    case Upload(e) => s.(evidence := s.evidence[e := None], writes := s.writes[e := 0], status := Submitted)
    case Deliver(job) => Move(s, job, Delivered)
    case Admit(job) =>
      Move(s, job, if s.attempts >= MAX_ATTEMPTS || Pending(s) == {} then Done else Grading(Pending(s)))
    case Answer(job, outcome) => Move(s, job, Graded(s.jobs[job].graded, outcome))
    case Raise(job) => Move(s, job, Failing(if s.jobs[job].Grading? then s.jobs[job].graded else {}))
    case Release(job) => Move(s, job, Done).(status := Open, errors := Marked(s.errors, s.evidence, s.jobs[job].graded))
    case Read(job) => Move(s, job, Recording(s.jobs[job].graded, s.jobs[job].outcome, s.attempts))
    case Write(job) =>
      var p := s.jobs[job];
      Move(Recorded(s, p.graded, p.outcome, p.seen), job, Done)
    case Die(job) => Move(s, job, Done)
  }

  function Run(s: State, steps: seq<Step>): Option<State>
    decreases |steps|
  {
    if steps == [] then Some(s)
    else if Enabled(s, steps[0]) then Run(Apply(s, steps[0]), steps[1..])
    else None
  }

  const START := State(Open, 0, map[], map[], 0, map[], {})

  /** At most `k` gradings overlap, from the cap check to the recording. */
  predicate Overlap(s: State, steps: seq<Step>, k: nat)
    decreases |steps|
  {
    && |ActiveJobs(s)| <= k
    && (steps != [] && Enabled(s, steps[0]) ==> Overlap(Apply(s, steps[0]), steps[1..], k))
  }

  /** No recording starts while another is between its read and its write. */
  predicate Serial(s: State, steps: seq<Step>)
    decreases |steps|
  {
    steps != [] && Enabled(s, steps[0]) ==>
      && (steps[0].Read? ==> forall j <- s.jobs :: !s.jobs[j].Recording?)
      && Serial(Apply(s, steps[0]), steps[1..])
  }

  // ------------------------------------------------------------- the attempt cap

  predicate Current(s: State) {
    && s.attempts == s.charges
    && (forall i <- s.jobs, j <- s.jobs :: s.jobs[i].Recording? && s.jobs[j].Recording? ==> i == j)
    && (forall j <- s.jobs :: s.jobs[j].Recording? ==> s.jobs[j].seen == s.attempts)
  }

  predicate Capped(s: State, k: nat) {
    s.attempts < MAX_ATTEMPTS || s.attempts + |ActiveJobs(s)| <= MAX_ATTEMPTS - 1 + k
  }

  lemma ActiveAfter(s: State, t: State, job: nat, phase: Phase)
    requires t.jobs == s.jobs[job := phase]
    ensures ActiveJobs(t) == if Active(phase) then ActiveJobs(s) + {job} else ActiveJobs(s) - {job}
  {
  }

  lemma WriteKeepsCapped(s: State, job: nat, k: nat)
    requires Current(s) && Capped(s, k) && Enabled(s, Write(job)) && |ActiveJobs(s)| <= k
    ensures Current(Apply(s, Write(job))) && Capped(Apply(s, Write(job)), k)
  {
    ActiveAfter(s, Apply(s, Write(job)), job, Done);
    assert job in ActiveJobs(s);
  }

  lemma MoveKeepsCapped(s: State, t: State, job: nat, k: nat)
    requires Current(s) && Capped(s, k)
    requires job in t.jobs && t.jobs == s.jobs[job := t.jobs[job]]
    requires t.attempts == s.attempts && t.charges == s.charges
    requires Active(t.jobs[job]) ==> s.attempts < MAX_ATTEMPTS || job in ActiveJobs(s)
    requires t.jobs[job].Recording? ==>
      t.jobs[job].seen == s.attempts && forall j <- s.jobs :: !s.jobs[j].Recording?
    ensures Current(t) && Capped(t, k)
  {
    ActiveAfter(s, t, job, t.jobs[job]);
    hide ActiveJobs;
    assert ActiveJobs(s) - {job} <= ActiveJobs(s) && |ActiveJobs(s) - {job}| <= |ActiveJobs(s)|;
    assert job in ActiveJobs(s) ==> ActiveJobs(s) + {job} == ActiveJobs(s);
  }

  lemma StepKeepsCapped(s: State, step: Step, k: nat)
    requires Current(s) && Capped(s, k) && Enabled(s, step)
    requires step.Read? ==> forall j <- s.jobs :: !s.jobs[j].Recording?
    requires |ActiveJobs(s)| <= k
    ensures Current(Apply(s, step)) && Capped(Apply(s, step), k)
  {
    if step.Write? {
      WriteKeepsCapped(s, step.job, k);
    } else if step.Upload? {
      assert ActiveJobs(Apply(s, step)) == ActiveJobs(s);
    } else {
      MoveKeepsCapped(s, Apply(s, step), step.job, k);
    }
  }

  lemma {:induction false} RunsAreCapped(s: State, steps: seq<Step>, k: nat)
    requires Current(s) && Capped(s, k)
    requires Run(s, steps).Some? && Overlap(s, steps, k) && Serial(s, steps)
    ensures Current(Run(s, steps).value) && Capped(Run(s, steps).value, k)
    decreases |steps|
  {
    if steps != [] {
      StepKeepsCapped(s, steps[0], k);
      RunsAreCapped(Apply(s, steps[0]), steps[1..], k);
    }
  }

  /** With at most `k` overlapping gradings the counter tells the gradings
      charged, and both stay within the cap plus the overlap. */
  lemma ChargesStayNearTheCap(steps: seq<Step>, k: nat)
    requires k >= 1 && Run(START, steps).Some?
    requires Overlap(START, steps, k) && Serial(START, steps)
    ensures var s := Run(START, steps).value;
            s.attempts == s.charges <= MAX_ATTEMPTS - 1 + k
  {
    RunsAreCapped(START, steps, k);
  }

  // ------------------------------------------------------ one outcome a submission

  predicate Once(s: State) {
    && s.evidence.Keys == s.writes.Keys
    && forall e <- s.evidence :: s.writes[e] == if s.evidence[e] == None then 0 else 1
  }

  /** A recording keeps to one outcome a submission exactly when every submission
      it covers is still ungraded, which nothing checks again. */
  lemma RecordingIsFirstIffPending(s: State, job: nat)
    requires Once(s) && Enabled(s, Write(job)) && s.jobs[job].graded <= s.evidence.Keys
    ensures Once(Apply(s, Write(job))) <==> s.jobs[job].graded <= Pending(s)
  {
    var graded, t := s.jobs[job].graded, Apply(s, Write(job));
    if !(graded <= Pending(s)) {
      var e :| e in graded && e !in Pending(s);
      assert t.writes[e] == 2;
    }
  }

  predicate Alone(s: State) {
    && Once(s)
    && (forall i <- ActiveJobs(s), j <- ActiveJobs(s) :: i == j)
    && (forall j <- ActiveJobs(s) :: s.jobs[j].graded <= Pending(s))
  }

  lemma SingleActive(s: State)
    requires |ActiveJobs(s)| <= 1
    ensures forall i <- ActiveJobs(s), j <- ActiveJobs(s) :: i == j
  {
    forall i <- ActiveJobs(s), j <- ActiveJobs(s) ensures i == j {
      assert |ActiveJobs(s) - {i}| == |ActiveJobs(s)| - 1;
      assert j !in ActiveJobs(s) - {i};
    }
  }

  lemma WriteKeepsAlone(s: State, job: nat)
    requires Alone(s) && Enabled(s, Write(job))
    ensures Alone(Apply(s, Write(job)))
  {
    var t := Apply(s, Write(job));
    ActiveAfter(s, t, job, Done);
    assert job in ActiveJobs(s);
    RecordingIsFirstIffPending(s, job);
    assert ActiveJobs(t) == {};
  }

  lemma MoveKeepsAlone(s: State, t: State, job: nat)
    requires Alone(s) && |ActiveJobs(t)| <= 1
    requires job in t.jobs && t.jobs == s.jobs[job := t.jobs[job]]
    requires t.evidence == s.evidence && t.writes == s.writes
    requires Active(t.jobs[job]) ==> t.jobs[job].graded <= Pending(s)
    ensures Alone(t)
  {
    SingleActive(t);
    assert Pending(t) == Pending(s);
    ActiveAfter(s, t, job, t.jobs[job]);
    hide Pending;
    forall j <- ActiveJobs(t) ensures t.jobs[j].graded <= Pending(t) {
      assert j != job ==> j in ActiveJobs(s);
    }
  }

  lemma StepKeepsAlone(s: State, step: Step)
    requires Alone(s) && Enabled(s, step) && |ActiveJobs(Apply(s, step))| <= 1
    ensures Alone(Apply(s, step))
  {
    var t := Apply(s, step);
    if step.Write? {
      WriteKeepsAlone(s, step.job);
    } else if step.Upload? {
      assert ActiveJobs(t) == ActiveJobs(s);
    } else {
      assert !step.Admit? && !step.Deliver? && Active(s.jobs[step.job]) ==> step.job in ActiveJobs(s);
      MoveKeepsAlone(s, t, step.job);
    }
  }

  lemma {:induction false} RunsAreAlone(s: State, steps: seq<Step>)
    requires Alone(s) && Run(s, steps).Some? && Overlap(s, steps, 1)
    ensures Alone(Run(s, steps).value) && Serial(s, steps)
    decreases |steps|
  {
    if steps != [] {
      StepKeepsAlone(s, steps[0]);
      if steps[0].Read? {
        assert steps[0].job in ActiveJobs(s);
        assert forall j <- s.jobs :: s.jobs[j].Recording? ==> j in ActiveJobs(s);
      }
      RunsAreAlone(Apply(s, steps[0]), steps[1..]);
    }
  }

  /** Without overlap the cap is never exceeded and each submission gets at most
      one outcome, however often the job is delivered. */
  lemma WithoutOverlapEachSubmissionIsGradedOnce(steps: seq<Step>)
    requires Run(START, steps).Some? && Overlap(START, steps, 1)
    ensures var s := Run(START, steps).value;
            && s.attempts == s.charges <= MAX_ATTEMPTS
            && forall e <- s.writes :: s.writes[e] <= 1
  {
    RunsAreAlone(START, steps);
    ChargesStayNearTheCap(steps, 1);
  }

  // ---------------------------------------------------------- what overlap costs

  lemma {:induction false} Then(from: State, steps: seq<Step>, s: State, step: Step)
    returns (longer: seq<Step>, next: State)
    requires Run(from, steps) == Some(s) && Enabled(s, step)
    ensures longer == steps + [step] && next == Apply(s, step)
    ensures Run(from, longer) == Some(next)
    decreases |steps|
  {
    longer, next := steps + [step], Apply(s, step);
    if steps != [] {
      var inner, _ := Then(Apply(from, steps[0]), steps[1..], s, step);
      assert longer[1..] == inner;
    }
  }

  lemma AdmitFresh(from: State, steps: seq<Step>, s: State, job: nat)
    returns (longer: seq<Step>, next: State)
    requires Run(from, steps) == Some(s)
    requires job !in s.jobs && s.attempts < MAX_ATTEMPTS && Pending(s) != {}
    ensures Run(from, longer) == Some(next)
    ensures next == s.(jobs := s.jobs[job := Grading(Pending(s))])
  {
    hide Run;
    longer, next := Then(from, steps, s, Deliver(job));
    assert Pending(next) == Pending(s);
    longer, next := Then(from, longer, next, Admit(job));
  }

  lemma AnswerAndRead(from: State, steps: seq<Step>, s: State, job: nat, outcome: Outcome)
    returns (longer: seq<Step>, next: State)
    requires Run(from, steps) == Some(s)
    requires job in s.jobs && s.jobs[job].Grading?
    ensures Run(from, longer) == Some(next)
    ensures next == s.(jobs := s.jobs[job := Recording(s.jobs[job].graded, outcome, s.attempts)])
  {
    hide Run, Pending;
    longer, next := Then(from, steps, s, Answer(job, outcome));
    longer, next := Then(from, longer, next, Read(job));
  }

  lemma BothAdmitted(from: State, e: nat) returns (steps: seq<Step>, s: State)
    requires from.jobs == map[] && from.attempts == 0 && from.evidence == map[e := None]
    ensures Run(from, steps) == Some(s)
    ensures s == from.(jobs := map[1 := Grading({e}), 2 := Grading({e})])
  {
    assert Run(from, []) == Some(from);
    hide Run, Apply, Enabled;
    assert Pending(from) == {e};
    steps, s := AdmitFresh(from, [], from, 1);
    assert Pending(s) == {e};
    steps, s := AdmitFresh(from, steps, s, 2);
  }

  lemma BothRead(from: State, e: nat) returns (steps: seq<Step>, s: State)
    requires from.jobs == map[] && from.attempts == 0 && from.evidence == map[e := None]
    ensures Run(from, steps) == Some(s)
    ensures s == from.(jobs := map[1 := Recording({e}, Pass, 0), 2 := Recording({e}, Fail, 0)])
  {
    hide Run, Apply, Enabled;
    steps, s := BothAdmitted(from, e);
    steps, s := AnswerAndRead(from, steps, s, 1, Pass);
    steps, s := AnswerAndRead(from, steps, s, 2, Fail);
  }

  lemma WriteOnly(from: State, steps: seq<Step>, s: State, job: nat, e: nat)
    returns (longer: seq<Step>, next: State)
    requires Run(from, steps) == Some(s)
    requires job in s.jobs && s.jobs[job].Recording? && s.jobs[job].graded == {e}
    requires s.evidence.Keys == s.writes.Keys == {e}
    ensures Run(from, longer) == Some(next)
    ensures next.charges == s.charges + 1 && next.attempts == s.jobs[job].seen + 1
    ensures next.status == StatusFor(s.jobs[job].outcome)
    ensures next.evidence == map[e := Some(s.jobs[job].outcome)] && next.writes == map[e := s.writes[e] + 1]
    ensures next.jobs == s.jobs[job := Done]
  {
    hide Run, Pending;
    longer, next := Then(from, steps, s, Write(job));
  }

  /** Two deliveries that both find submission `e` pending: both are billed, the
      second verdict replaces the first, and of the two charges the counter keeps one. */
  lemma OverlapRegradesAndLosesACharge(from: State, e: nat) returns (steps: seq<Step>, s: State)
    requires from.jobs == map[] && from.attempts == from.charges == 0
    requires from.evidence == map[e := None] && from.writes == map[e := 0]
    ensures Run(from, steps) == Some(s)
    ensures s.charges == 2 && s.attempts == 1 && s.status == FailedTask
    ensures s.writes == map[e := 2] && s.evidence == map[e := Some(Fail)]
  {
    hide Run, Apply, Enabled;
    steps, s := BothRead(from, e);
    steps, s := WriteOnly(from, steps, s, 1, e);
    steps, s := WriteOnly(from, steps, s, 2, e);
  }

  /** A delivery that fails, before its grading or in it, charges nothing and gives
      no outcome: it opens the task and marks what it was grading. */
  lemma FailedGradingChargesNothing(s: State, job: nat)
    requires Enabled(s, Raise(job))
    ensures var t := Apply(s, Raise(job));
            var marked := if s.jobs[job].Grading? then s.jobs[job].graded * s.evidence.Keys else {};
            && Enabled(t, Release(job))
            && Apply(t, Release(job)) == s.(jobs := s.jobs[job := Done], status := Open, errors := s.errors + marked)
  {
    var t := Apply(s, Raise(job));
    assert t.jobs[job := Done] == s.jobs[job := Done];
  }
}
