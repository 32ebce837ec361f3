/** The audit job protocol: the `audit_runs` row, the conditional UPDATE that
    claims it, and every interleaving of deliveries, deaths, retries and time. */
module AuditRuns {
  import opened Wrappers

  // ---------------------------------------------------------------------- row

  datatype Status = Queued | Running | Succeeded | Failed

  /** `report` is the job that wrote the stored report. */
  datatype Row = Row(status: Status, attempts: nat, startedAt: Option<int>, report: Option<nat>)

  /** How long RQ lets a job run, and how long a claim is honoured. */
  datatype Policy = Policy(timeout: nat, lease: nat)

  const DEPLOYED := Policy(900, 1800)

  predicate Claimable(row: Row, now: int, p: Policy) {
    || row.status == Queued
    || row.status == Failed
    || (row.status == Running && row.startedAt.Some? && row.startedAt.value < now - p.lease)
  }

  function Claimed(row: Row, now: int): Row {
    row.(status := Running, attempts := row.attempts + 1, startedAt := Some(now))
  }

  function Finished(row: Row, job: nat): Row {
    row.(status := Succeeded, report := Some(job))
  }

  function FailedRow(row: Row): Row {
    row.(status := Failed)
  }

  /** Back to the queue. `attempts` is kept. */
  function QueuedRow(row: Row): Row {
    row.(status := Queued)
  }

  /** The row in place. */
  class AuditRun {
    var status: Status
    var attempts: nat
    var startedAt: Option<int>
    var report: Option<nat>

    ghost function View(): Row
      reads this
    {
      Row(status, attempts, startedAt, report)
    }

    constructor ()
      ensures View() == Row(Queued, 0, None, None)
    {
      status, attempts, startedAt, report := Queued, 0, None, None;
    }

    /** One conditional UPDATE: of two deliveries that race, one wins. */
    method Claim(now: int, p: Policy) returns (won: bool)
      modifies this
      ensures won == Claimable(old(View()), now, p)
      ensures View() == if won then Claimed(old(View()), now) else old(View())
      ensures won && p.lease >= 0 ==> !Claimable(View(), now, p)
    {
      won := status == Queued || status == Failed
          || (status == Running && startedAt.Some? && startedAt.value < now - p.lease);
      if won {
        status, attempts, startedAt := Running, attempts + 1, Some(now);
      }
    }

    method MarkSucceeded(job: nat)
      modifies this
      ensures View() == Finished(old(View()), job)
    {
      status, report := Succeeded, Some(job);
    }

    method MarkFailed()
      modifies this
      ensures View() == FailedRow(old(View()))
    {
      status := Failed;
    }

    method MarkQueued()
      modifies this
      ensures View() == QueuedRow(old(View()))
    {
      status := Queued;
    }
  }

  // -------------------------------------------------------------------- machine

  /** Where one delivery of the job has got to, at the commits that matter.
      `Failing` is the `except` block; `claimed` tells whether the job had won. */
  datatype Phase =
    | Delivered
    | Held
    | Scoring
    | Scored
    | Failing(claimed: bool)
    | Notifying
    | Done

  datatype Job = Job(since: int, phase: Phase)

  predicate Holds(phase: Phase) {
    phase == Held || phase == Scoring || phase == Scored || phase == Failing(true)
  }

  const MAX_AUDIT_ATTEMPTS: nat := 3

  /** A resubmission: it has read a failed row and its attempts, or it has written
      `queued` and is dispatching the job. */
  datatype Request = HasRead(attempts: nat) | Requeued

  /** What it writes next: `failed` if the attempts are spent or the dispatch raised. */
  predicate Writes(r: Request, status: Status) {
    status == if r.HasRead? && r.attempts < MAX_AUDIT_ATTEMPTS then Queued else Failed
  }

  /** `owner` is the last job to win a claim; `requests` are the resubmissions under
      way. The rest is what happened: passes billed, reports stored, holders that
      recorded a failure or died, and claims that ended before their pass began (`idle`). */
  datatype State = State(
    now: int, row: Row, jobs: map<nat, Job>, requests: map<nat, Request>, owner: Option<nat>,
    billed: seq<nat>, stored: seq<nat>, failures: nat, deaths: nat, idle: nat)

  datatype Step =
    | Deliver(id: nat)
    | Claim(id: nat)
    | ClaimRaises(id: nat)
    | ProfileMissing(id: nat)
    | StartScoring(id: nat)
    | Raise(id: nat)
    | FinishScoring(id: nat)
    | Store(id: nat)
    | RecordFailure(id: nat)
    | Notify(id: nat)
    | Die(id: nat)
    | ReadFailed(request: nat)
    | Rewrite(request: nat, to: Status)
    | Tick(seconds: nat)

  predicate In(s: State, id: nat, phase: Phase) {
    id in s.jobs && s.jobs[id].phase == phase
  }

  /** Time cannot pass a live job's timeout: RQ has killed it by then. */
  predicate Enabled(s: State, step: Step, p: Policy) {
    match step
    case Deliver(id) => id !in s.jobs
    case Claim(id) => In(s, id, Delivered)
    case ClaimRaises(id) => In(s, id, Delivered)
    case ProfileMissing(id) => In(s, id, Held)
    case StartScoring(id) => In(s, id, Held)
    case Raise(id) => In(s, id, Held) || In(s, id, Scoring)
    case FinishScoring(id) => In(s, id, Scoring)
    case Store(id) => In(s, id, Scored)
    case RecordFailure(id) => id in s.jobs && s.jobs[id].phase.Failing?
    case Notify(id) => In(s, id, Notifying)
    case Die(id) => id in s.jobs && s.jobs[id].phase != Done
    case ReadFailed(request) => s.row.status == Failed && request !in s.requests
    case Rewrite(request, to) => request in s.requests && Writes(s.requests[request], to)
    case Tick(seconds) => forall id <- s.jobs ::
      s.jobs[id].phase != Done ==> s.now + seconds <= s.jobs[id].since + p.timeout
  }

  function Move(s: State, id: nat, phase: Phase): State
    requires id in s.jobs
  {
    s.(jobs := s.jobs[id := s.jobs[id].(phase := phase)])
  }

  function Apply(s: State, step: Step, p: Policy): State
    requires Enabled(s, step, p)
  {
    match step
    case Deliver(id) => s.(jobs := s.jobs[id := Job(s.now, Delivered)])
    case Claim(id) =>
      if Claimable(s.row, s.now, p)
      then Move(s, id, Held).(row := Claimed(s.row, s.now), owner := Some(id))
      else Move(s, id, Done)
    case ClaimRaises(id) => Move(s, id, Failing(false))
    case ProfileMissing(id) =>
      Move(s, id, Done).(row := FailedRow(s.row), failures := s.failures + 1, idle := s.idle + 1)
    case StartScoring(id) => Move(s, id, Scoring).(billed := s.billed + [id])
    case Raise(id) => Move(s, id, Failing(true)).(idle := s.idle + if In(s, id, Held) then 1 else 0)
    case FinishScoring(id) => Move(s, id, Scored)
    case Store(id) =>
      Move(s, id, Notifying).(
        row := Finished(s.row, id), stored := s.stored + [id])
    case RecordFailure(id) =>
      Move(s, id, Done).(
        row := FailedRow(s.row),
        failures := s.failures + if s.jobs[id].phase.claimed then 1 else 0)
    case Notify(id) => Move(s, id, Done)
    case Die(id) =>
      Move(s, id, Done).(
        deaths := s.deaths + (if Holds(s.jobs[id].phase) then 1 else 0),
        idle := s.idle + if In(s, id, Held) then 1 else 0)
    case ReadFailed(request) => s.(requests := s.requests[request := HasRead(s.row.attempts)])
    case Rewrite(request, to) =>
      s.(row := if to == Failed then FailedRow(s.row) else QueuedRow(s.row),
         requests := if to == Failed then s.requests - {request} else s.requests[request := Requeued])
    case Tick(seconds) => s.(now := s.now + seconds)
  }

  function Run(s: State, steps: seq<Step>, p: Policy): Option<State>
    decreases |steps|
  {
    if steps == [] then Some(s)
    else if Enabled(s, steps[0], p) then Run(Apply(s, steps[0], p), steps[1..], p)
    else None
  }

  const START := State(0, Row(Queued, 0, None, None), map[], map[], None, [], [], 0, 0, 0)

  // ------------------------------------------------ writes by jobs that hold nothing

  /** A failure recorded by a job whose claim raised, and the status a
      resubmission writes: both overwrite the row without looking at it again. */
  predicate Foreign(s: State, step: Step) {
    || step.Rewrite?
    || (step.RecordFailure? && step.id in s.jobs && s.jobs[step.id].phase == Failing(false))
  }

  predicate Held?(s: State) {
    s.owner.Some? && s.owner.value in s.jobs && Holds(s.jobs[s.owner.value].phase)
  }

  /** What such a writer would have to check first. */
  predicate Harmless(s: State) {
    s.row.status != Succeeded && !Held?(s)
  }

  predicate Courteous(s: State, steps: seq<Step>, p: Policy)
    decreases |steps|
  {
    steps != [] && Enabled(s, steps[0], p) ==>
      && (Foreign(s, steps[0]) ==> Harmless(s))
      && Courteous(Apply(s, steps[0], p), steps[1..], p)
  }

  // ------------------------------------------------------------------- invariant

  /** Only the owner holds; a held row is running since its claim. */
  predicate OneHolder(s: State) {
    forall id <- s.jobs :: Holds(s.jobs[id].phase) ==>
      && s.owner == Some(id) && s.row.status == Running
      && s.row.startedAt.Some? && s.row.startedAt.value >= s.jobs[id].since
  }

  predicate OnTime(s: State, p: Policy) {
    forall id <- s.jobs :: s.jobs[id].since <= s.now
      && (s.jobs[id].phase != Done ==> s.now <= s.jobs[id].since + p.timeout)
  }

  /** A report is stored once, and exactly a finished row has one. */
  predicate OneReport(s: State) {
    && (s.row.status == Succeeded <==> s.stored != [])
    && |s.stored| <= 1
    && s.row.report == (if s.stored == [] then None else Some(s.stored[0]))
  }

  /** Every claim ends in a report, a recorded failure or a death, or is still held. */
  predicate Accounted(s: State) {
    && s.row.attempts == (if Held?(s) then 1 else 0) + |s.stored| + s.failures + s.deaths
    && |s.billed| + (if Held?(s) && s.jobs[s.owner.value].phase == Held then 1 else 0) <= s.row.attempts
  }

  predicate Sound(s: State, p: Policy) {
    OneHolder(s) && OnTime(s, p) && OneReport(s) && Accounted(s)
  }

  lemma ClaimKeepsSound(s: State, id: nat, p: Policy)
    requires p.timeout <= p.lease
    requires Sound(s, p) && Enabled(s, Claim(id), p)
    ensures Sound(Apply(s, Claim(id), p), p)
  {
    if Held?(s) {
      assert !Claimable(s.row, s.now, p);
    }
  }

  lemma HolderStepKeepsSound(s: State, step: Step, p: Policy)
    requires Sound(s, p) && Enabled(s, step, p)
    requires step.StartScoring? || step.Raise? || step.FinishScoring?
    ensures Sound(Apply(s, step, p), p)
  {
  }

  lemma EndingKeepsSound(s: State, step: Step, p: Policy)
    requires Sound(s, p) && Enabled(s, step, p)
    requires step.ProfileMissing? || step.Store? || step.RecordFailure? || step.Die?
    requires Foreign(s, step) ==> Harmless(s)
    ensures Sound(Apply(s, step, p), p)
  {
  }

  lemma OtherStepKeepsSound(s: State, step: Step, p: Policy)
    requires Sound(s, p) && Enabled(s, step, p)
    requires step.Deliver? || step.ClaimRaises? || step.Notify? || step.ReadFailed? || step.Rewrite? || step.Tick?
    requires Foreign(s, step) ==> Harmless(s)
    ensures Sound(Apply(s, step, p), p)
  {
  }

  lemma StepKeepsSound(s: State, step: Step, p: Policy)
    requires p.timeout <= p.lease
    requires Sound(s, p) && Enabled(s, step, p)
    requires Foreign(s, step) ==> Harmless(s)
    ensures Sound(Apply(s, step, p), p)
  {
    hide Sound, Apply, Enabled, Foreign, Harmless;
    match step
    case Claim(id) => ClaimKeepsSound(s, id, p);
    case StartScoring(_) => HolderStepKeepsSound(s, step, p);
    case Raise(_) => HolderStepKeepsSound(s, step, p);
    case FinishScoring(_) => HolderStepKeepsSound(s, step, p);
    case ProfileMissing(_) => EndingKeepsSound(s, step, p);
    case Store(_) => EndingKeepsSound(s, step, p);
    case RecordFailure(_) => EndingKeepsSound(s, step, p);
    case Die(_) => EndingKeepsSound(s, step, p);
    case _ => OtherStepKeepsSound(s, step, p);
  }

  lemma {:induction false} RunsAreSound(s: State, steps: seq<Step>, p: Policy)
    requires p.timeout <= p.lease
    requires Sound(s, p) && Run(s, steps, p).Some? && Courteous(s, steps, p)
    ensures Sound(Run(s, steps, p).value, p)
    decreases |steps|
  {
    if steps != [] {
      StepKeepsSound(s, steps[0], p);
      RunsAreSound(Apply(s, steps[0], p), steps[1..], p);
    }
  }

  predicate Live(s: State, id: nat) {
    id in s.jobs && Holds(s.jobs[id].phase)
  }

  ghost predicate Exclusive(s: State) {
    forall i, j :: Live(s, i) && Live(s, j) ==> i == j
  }

  /** Over every courteous run, with redeliveries, deaths, lease takeovers and
      retries at any time: one holder at a time, one report at most, and passes
      billed never exceed claims, which never exceed one more than the holders
      that recorded a failure or died. */
  lemma AuditIsSafe(steps: seq<Step>, p: Policy)
    requires p.timeout <= p.lease
    requires Run(START, steps, p).Some? && Courteous(START, steps, p)
    ensures var s := Run(START, steps, p).value;
            && Exclusive(s)
            && |s.stored| <= 1
            && |s.billed| <= s.row.attempts <= 1 + s.failures + s.deaths
  {
    RunsAreSound(START, steps, p);
  }

  /** Once succeeded, the row never changes again: not its status, its report or
      its attempts, whatever deliveries and side effects still follow. */
  lemma {:induction false} SuccessIsFinal(s: State, steps: seq<Step>, p: Policy)
    requires p.timeout <= p.lease
    requires Sound(s, p) && s.row.status == Succeeded
    requires Run(s, steps, p).Some? && Courteous(s, steps, p)
    ensures Run(s, steps, p).value.row == s.row
    decreases |steps|
  {
    if steps != [] {
      StepKeepsSound(s, steps[0], p);
      assert Apply(s, steps[0], p).row == s.row;
      SuccessIsFinal(Apply(s, steps[0], p), steps[1..], p);
    }
  }

  /** Only the holder's own steps give the row a terminal status. */
  lemma OnlyTheHolderDecides(s: State, step: Step, p: Policy)
    requires Sound(s, p) && Enabled(s, step, p) && !Foreign(s, step)
    requires Apply(s, step, p).row.status != s.row.status && Apply(s, step, p).row.status != Running
    ensures Held?(s) && (step == ProfileMissing(s.owner.value) || step == Store(s.owner.value)
                      || step == RecordFailure(s.owner.value))
  {
  }

  // ------------------------------------------------------------------ stranded rows

  /** A row that says running has a live job behind it, or a job that held it died. */
  ghost predicate Tended(s: State) {
    s.row.status == Running ==> s.deaths > 0 || exists id :: Live(s, id)
  }

  lemma StepKeepsTended(s: State, step: Step, p: Policy)
    requires Tended(s) && Enabled(s, step, p)
    ensures Tended(Apply(s, step, p))
  {
    var t := Apply(s, step, p);
    if t.row.status == Running && t.deaths == 0 {
      if step.Claim? && Claimable(s.row, s.now, p) {
        assert Live(t, step.id);
      } else {
        var id :| Live(s, id);
        assert Live(t, id);
      }
    }
  }

  /** Over every run, under every policy: a run is stranded, marked running with nobody
      working on it, only when a job that had won it died. */
  lemma {:induction false} StrandedOnlyByADeath(s: State, steps: seq<Step>, p: Policy)
    requires Tended(s) && Run(s, steps, p).Some?
    ensures Tended(Run(s, steps, p).value)
    decreases |steps|
  {
    if steps != [] {
      StepKeepsTended(s, steps[0], p);
      hide Tended, Apply, Enabled;
      StrandedOnlyByADeath(Apply(s, steps[0], p), steps[1..], p);
    }
  }

  lemma {:induction false} RunsAreOnTime(s: State, steps: seq<Step>, p: Policy)
    requires OnTime(s, p) && Run(s, steps, p).Some?
    ensures OnTime(Run(s, steps, p).value, p)
    decreases |steps|
  {
    if steps != [] {
      RunsAreOnTime(Apply(s, steps[0], p), steps[1..], p);
    }
  }

  /** As deployed, in seconds: no job works longer than fifteen minutes, and a row left
      running can be claimed again once half an hour has passed, and not before. */
  lemma DeployedTimes(steps: seq<Step>, row: Row, now: int)
    requires Run(START, steps, DEPLOYED).Some?
    ensures var s := Run(START, steps, DEPLOYED).value;
            forall id <- s.jobs :: s.jobs[id].phase != Done ==> s.now <= s.jobs[id].since + 900
    ensures row.status == Running && row.startedAt.Some? ==>
              (Claimable(row, now, DEPLOYED) <==> now > row.startedAt.value + 1800)
  {
    RunsAreOnTime(START, steps, DEPLOYED);
  }

  // --------------------------------------------------------------- concrete runs

  /** A run made one step longer. */
  lemma {:induction false} Then(from: State, steps: seq<Step>, s: State, step: Step, p: Policy)
    returns (longer: seq<Step>, next: State)
    requires Run(from, steps, p) == Some(s) && Enabled(s, step, p)
    ensures longer == steps + [step] && next == Apply(s, step, p)
    ensures Run(from, longer, p) == Some(next)
    ensures Courteous(from, steps, p) && (Foreign(s, step) ==> Harmless(s)) ==> Courteous(from, longer, p)
    decreases |steps|
  {
    longer, next := steps + [step], Apply(s, step, p);
    if steps != [] {
      var inner, _ := Then(Apply(from, steps[0], p), steps[1..], s, step, p);
      assert longer[1..] == inner;
    }
  }

  const ALONE := Row(Running, 1, Some(0), None)

  lemma RunNothing(s: State, p: Policy)
    ensures Run(s, [], p) == Some(s) && Courteous(s, [], p)
  {
  }

  lemma Overtaken(p: Policy) returns (steps: seq<Step>, s: State)
    requires p.lease < p.timeout
    ensures Run(START, steps, p) == Some(s) && Courteous(START, steps, p) && !Exclusive(s)
  {
    RunNothing(START, p);
    hide Run, Courteous;
    steps, s := [], START;
    steps, s := Then(START, steps, s, Deliver(0), p);
    steps, s := Then(START, steps, s, Claim(0), p);
    assert s.row == ALONE && s.jobs == map[0 := Job(0, Held)] && s.now == 0;
    steps, s := Then(START, steps, s, Tick(p.lease + 1), p);
    steps, s := Then(START, steps, s, Deliver(1), p);
    steps, s := Then(START, steps, s, Claim(1), p);
    assert Live(s, 0) && Live(s, 1);
  }

  /** A lease no shorter than the job timeout is exactly what exclusion needs, and
      the deployed one is. */
  lemma LeaseMustCoverTheTimeout(p: Policy)
    ensures (forall steps :: Run(START, steps, p).Some? && Courteous(START, steps, p)
               ==> Exclusive(Run(START, steps, p).value))
        <==> p.timeout <= p.lease
    ensures DEPLOYED.timeout <= DEPLOYED.lease
  {
    if p.timeout <= p.lease {
      forall steps | Run(START, steps, p).Some? && Courteous(START, steps, p)
        ensures Exclusive(Run(START, steps, p).value)
      {
        AuditIsSafe(steps, p);
      }
    } else {
      var steps, s := Overtaken(p);
    }
  }

  /** A new delivery that wins the claim and starts a billed pass. */
  lemma DeliverAndScore(from: State, steps: seq<Step>, s: State, id: nat, p: Policy)
    returns (longer: seq<Step>, next: State)
    requires Run(from, steps, p) == Some(s)
    requires id !in s.jobs && (s.row.status == Queued || s.row.status == Failed)
    ensures Run(from, longer, p) == Some(next)
    ensures next.jobs == s.jobs[id := Job(s.now, Scoring)] && next.billed == s.billed + [id]
    ensures next.requests == s.requests && next.stored == s.stored && next.now == s.now
    ensures next.failures == s.failures && next.deaths == s.deaths
    ensures Courteous(from, steps, p) ==> Courteous(from, longer, p)
  {
    hide Run, Courteous;
    longer, next := Then(from, steps, s, Deliver(id), p);
    longer, next := Then(from, longer, next, Claim(id), p);
    assert next.jobs == s.jobs[id := Job(s.now, Held)];
    longer, next := Then(from, longer, next, StartScoring(id), p);
  }

  /** Whatever courteous run follows, one holder at a time and one report at most. */
  ghost predicate SafeEverAfter(s: State, p: Policy) {
    forall steps :: Run(s, steps, p).Some? && Courteous(s, steps, p) ==>
      Exclusive(Run(s, steps, p).value) && |Run(s, steps, p).value.stored| <= 1
  }

  lemma SoundIsSafeEverAfter(s: State, p: Policy)
    requires p.timeout <= p.lease && Sound(s, p)
    ensures SafeEverAfter(s, p)
  {
    forall steps | Run(s, steps, p).Some? && Courteous(s, steps, p)
      ensures Exclusive(Run(s, steps, p).value) && |Run(s, steps, p).value.stored| <= 1
    {
      RunsAreSound(s, steps, p);
    }
  }

  /** A row reopened under a live holder gets a second one. */
  lemma ReopenedUnderAHolder(t: State, owner: nat, p: Policy)
    requires Live(t, owner) && (t.row.status == Queued || t.row.status == Failed)
    ensures !SafeEverAfter(t, p)
  {
    RunNothing(t, p);
    hide Run, Courteous;
    var id := FreshId(t.jobs.Keys);
    var steps, end := DeliverAndScore(t, [], t, id, p);
    assert Live(end, owner) && Live(end, id);
    assert !Exclusive(Run(t, steps, p).value);
  }

  /** A row reopened after its report was stored gets a second one. */
  lemma ReopenedAfterAReport(t: State, p: Policy)
    requires |t.stored| >= 1 && (t.row.status == Queued || t.row.status == Failed)
    ensures !SafeEverAfter(t, p)
  {
    RunNothing(t, p);
    hide Run, Courteous;
    var id := FreshId(t.jobs.Keys);
    var steps, end := DeliverAndScore(t, [], t, id, p);
    steps, end := Then(t, steps, end, FinishScoring(id), p);
    steps, end := Then(t, steps, end, Store(id), p);
    assert |Run(t, steps, p).value.stored| > 1;
  }

  /** After a foreign write every courteous run keeps to one holder at a time and
      one report, if and only if the row was neither held nor finished; nothing in
      the code checks that. */
  lemma ForeignWriteIsSafeIffHarmless(s: State, step: Step, p: Policy)
    requires p.timeout <= p.lease
    requires Sound(s, p) && Enabled(s, step, p) && Foreign(s, step)
    ensures SafeEverAfter(Apply(s, step, p), p) <==> Harmless(s)
  {
    hide SafeEverAfter;
    var t := Apply(s, step, p);
    if Harmless(s) {
      StepKeepsSound(s, step, p);
      SoundIsSafeEverAfter(t, p);
    } else if s.row.status == Succeeded {
      ReopenedAfterAReport(t, p);
    } else {
      assert Live(t, s.owner.value);
      ReopenedUnderAHolder(t, s.owner.value, p);
    }
  }

  /** A failed row is claimable, so under every policy a redelivery after a failure
      bills a second pass with no requeue, no lease expiry, no death and no foreign write. */
  lemma RedeliveryAfterFailureBillsAgain(p: Policy) returns (steps: seq<Step>, s: State)
    ensures Run(START, steps, p) == Some(s) && Courteous(START, steps, p)
    ensures s.billed == [0, 1] && s.now == 0 && s.requests == map[] && s.failures == 1 && s.deaths == 0
  {
    RunNothing(START, p);
    hide Run, Courteous;
    steps, s := DeliverAndScore(START, [], START, 0, p);
    steps, s := Then(START, steps, s, Raise(0), p);
    steps, s := Then(START, steps, s, RecordFailure(0), p);
    steps, s := DeliverAndScore(START, steps, s, 1, p);
  }

  /** Under every policy, a finished audit whose redelivery raises in its claim is marked failed by
      that job, claimed again and billed again, and its report is overwritten. */
  lemma RaisingClaimReopensAFinishedAudit(from: State, i: nat, j: nat, p: Policy) returns (steps: seq<Step>, s: State)
    requires from.row.status == Succeeded && i !in from.jobs && j !in from.jobs && i != j
    ensures Run(from, steps, p) == Some(s)
    ensures s.billed == from.billed + [j] && s.stored == from.stored + [j] && s.row.report == Some(j)
  {
    RunNothing(from, p);
    hide Run, Courteous;
    steps, s := [], from;
    steps, s := Then(from, steps, s, Deliver(i), p);
    steps, s := Then(from, steps, s, ClaimRaises(i), p);
    steps, s := Then(from, steps, s, RecordFailure(i), p);
    steps, s := DeliverAndScore(from, steps, s, j, p);
    steps, s := Then(from, steps, s, FinishScoring(j), p);
    steps, s := Then(from, steps, s, Store(j), p);
  }

  /** Two resubmissions that both read the failed row with attempts left: the second rewrites it to
      queued under a live worker, and two workers score one run. */
  lemma DoubleRetryBreaksExclusion(from: State, i: nat, j: nat, p: Policy) returns (steps: seq<Step>, s: State)
    requires from.row.status == Failed && from.row.attempts < MAX_AUDIT_ATTEMPTS && from.requests == map[]
    requires i !in from.jobs && j !in from.jobs && i != j
    ensures Run(from, steps, p) == Some(s)
    ensures !Exclusive(s) && s.billed == from.billed + [i, j]
  {
    RunNothing(from, p);
    hide Run, Courteous;
    steps, s := [], from;
    steps, s := Then(from, steps, s, ReadFailed(1), p);
    steps, s := Then(from, steps, s, ReadFailed(2), p);
    steps, s := Then(from, steps, s, Rewrite(1, Queued), p);
    steps, s := DeliverAndScore(from, steps, s, i, p);
    steps, s := Then(from, steps, s, Rewrite(2, Queued), p);
    steps, s := DeliverAndScore(from, steps, s, j, p);
    assert Live(s, i) && Live(s, j);
  }
}
