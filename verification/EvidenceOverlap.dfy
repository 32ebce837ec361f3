/** When the promises about grading hold: the attempt cap, the counter and one
    outcome a submission all hold without overlap, and none of them with it. */
module EvidenceOverlap {
  import opened Wrappers
  import opened EvidenceGrading

  // ------------------------------------------------------------- a crowd of jobs

  function Ids(base: nat, n: nat): (ids: set<nat>)
    ensures forall id: nat :: id in ids <==> base <= id < base + n
  {
    if n == 0 then {} else Ids(base, n - 1) + {base + n - 1}
  }

  lemma {:induction false} IdsCount(base: nat, n: nat)
    ensures |Ids(base, n)| == n
  {
    if n > 0 {
      IdsCount(base, n - 1);
    }
  }

  lemma {:induction false} SubsetCount(a: set<nat>, b: set<nat>)
    requires a <= b
    ensures |a| <= |b|
  {
    if a != {} {
      var x :| x in a;
      SubsetCount(a - {x}, b - {x});
    }
  }

  /** A run made one step longer, with none but these jobs active. */
  lemma {:induction false} ThenAmong(from: State, steps: seq<Step>, s: State, step: Step, among: set<nat>, k: nat)
    returns (longer: seq<Step>, next: State)
    requires Run(from, steps) == Some(s) && Overlap(from, steps, k)
    requires Enabled(s, step) && ActiveJobs(Apply(s, step)) <= among && |among| <= k
    ensures longer == steps + [step] && next == Apply(s, step)
    ensures Run(from, longer) == Some(next) && Overlap(from, longer, k)
    decreases |steps|
  {
    longer, next := steps + [step], Apply(s, step);
    SubsetCount(ActiveJobs(next), among);
    hide ActiveJobs;
    if steps == [] {
      assert longer[1..] == [];
    } else {
      var inner, _ := ThenAmong(Apply(from, steps[0]), steps[1..], s, step, among, k);
      assert longer[1..] == inner;
    }
  }

  lemma Then(from: State, steps: seq<Step>, s: State, step: Step, base: nat, k: nat)
    returns (longer: seq<Step>, next: State)
    requires Run(from, steps) == Some(s) && Overlap(from, steps, k)
    requires Enabled(s, step) && ActiveJobs(Apply(s, step)) <= Ids(base, k)
    ensures longer == steps + [step] && next == Apply(s, step)
    ensures Run(from, longer) == Some(next) && Overlap(from, longer, k)
  {
    hide *;
    IdsCount(base, k);
    longer, next := ThenAmong(from, steps, s, step, Ids(base, k), k);
  }

  /** The jobs of `s` and `n` more: the first `a` of them in phase `p`, the rest in `q`. */
  function Jobs(s: State, base: nat, a: nat, n: nat, p: Phase, q: Phase): (jobs: map<nat, Phase>)
    ensures forall id: nat :: id in jobs <==> id in s.jobs || base <= id < base + n
    ensures forall id <- jobs ::
      jobs[id] == if base <= id < base + n then (if id < base + a then p else q) else s.jobs[id]
  {
    if n == 0 then s.jobs
    else Jobs(s, base, a, n - 1, p, q)[base + n - 1 := if n - 1 < a then p else q]
  }

  lemma JobsNext(s: State, base: nat, a: nat, n: nat, p: Phase, q: Phase)
    ensures a < n ==> Jobs(s, base, a, n, p, q)[base + a := p] == Jobs(s, base, a + 1, n, p, q)
    ensures Jobs(s, base, n, n, p, p)[base + n := p] == Jobs(s, base, n + 1, n + 1, p, p)
    ensures a < n ==> base + a in Jobs(s, base, a, n, p, q) && Jobs(s, base, a, n, p, q)[base + a] == q
    ensures Jobs(s, base, 0, n, p, q) == Jobs(s, base, n, n, q, q)
  {
    hide Jobs;
  }

  /** A task with no grading under way, nothing pending, and room under the cap. */
  predicate Idle(s: State, e: nat, base: nat) {
    && ActiveJobs(s) == {} && Pending(s) == {}
    && (forall id <- s.jobs :: id < base) && e !in s.evidence && e !in s.writes
    && s.status != Passed && s.attempts < MAX_ATTEMPTS
  }

  lemma CrowdActive(s: State, e: nat, t: State, base: nat, a: nat, n: nat, k: nat, p: Phase, q: Phase)
    requires Idle(s, e, base) && n <= k && t.jobs == Jobs(s, base, a, n, p, q)
    ensures ActiveJobs(t) <= Ids(base, k)
  {
    forall id <- ActiveJobs(t) ensures id in Ids(base, k) {
      assert id !in ActiveJobs(s);
    }
  }

  // --------------------------------------------------------------------- one round

  function Uploaded(s: State, e: nat): State {
    s.(evidence := s.evidence[e := None], writes := s.writes[e := 0], status := Submitted)
  }

  function Crowded(s: State, e: nat, base: nat, a: nat, n: nat, p: Phase, q: Phase): State {
    Uploaded(s, e).(jobs := Jobs(s, base, a, n, p, q))
  }

  lemma PendingOfCrowd(s: State, e: nat, base: nat, a: nat, n: nat, p: Phase, q: Phase)
    requires Idle(s, e, base)
    ensures Pending(Crowded(s, e, base, a, n, p, q)) == {e}
  {
    assert forall x <- Pending(Crowded(s, e, base, a, n, p, q)) :: x == e || x in Pending(s);
  }

  lemma MoveActive(t: State, id: nat, phase: Phase, among: set<nat>)
    requires ActiveJobs(t) <= among && (Active(phase) ==> id in among)
    ensures ActiveJobs(Move(t, id, phase)) <= among
  {
    ActiveAfter(t, Move(t, id, phase), id, phase);
  }

  /** A fresh job delivered to a task with only `e` pending grades `e`. */
  lemma Admits(t: State, id: nat, e: nat)
    requires id !in t.jobs && Pending(t) == {e} && t.attempts < MAX_ATTEMPTS
    ensures Enabled(t, Deliver(id)) && Apply(t, Deliver(id)) == Move(t, id, Delivered)
    ensures var d := Move(t, id, Delivered);
            Enabled(d, Admit(id)) && Apply(d, Admit(id)) == Move(t, id, Grading({e}))
  {
    var d := Move(t, id, Delivered);
    assert Pending(d) == Pending(t);
    assert d.jobs[id := Grading({e})] == t.jobs[id := Grading({e})];
  }

  /** A job that grades `e` answers and reads the counter. */
  lemma Reads(t: State, id: nat, e: nat)
    requires id in t.jobs && t.jobs[id] == Grading({e})
    ensures Enabled(t, Answer(id, Fail)) && Apply(t, Answer(id, Fail)) == Move(t, id, Graded({e}, Fail))
    ensures var d := Move(t, id, Graded({e}, Fail));
            Enabled(d, Read(id)) && Apply(d, Read(id)) == Move(t, id, Recording({e}, Fail, t.attempts))
  {
    var d := Move(t, id, Graded({e}, Fail));
    assert d.jobs[id := Recording({e}, Fail, t.attempts)] == t.jobs[id := Recording({e}, Fail, t.attempts)];
  }

  lemma CrowdNext(s: State, e: nat, base: nat, a: nat, n: nat, p: Phase, q: Phase)
    ensures a < n ==> Move(Crowded(s, e, base, a, n, p, q), base + a, p) == Crowded(s, e, base, a + 1, n, p, q)
    ensures Move(Crowded(s, e, base, n, n, p, p), base + n, p) == Crowded(s, e, base, n + 1, n + 1, p, p)
    ensures a < n ==> base + a in Crowded(s, e, base, a, n, p, q).jobs
    ensures a < n ==> Crowded(s, e, base, a, n, p, q).jobs[base + a] == q
    ensures Crowded(s, e, base, a, n, p, q).attempts == s.attempts
  {
    JobsNext(s, base, a, n, p, q);
    hide Jobs;
  }

  lemma OnlyTheCrowdIsActive(s: State, e: nat, base: nat, a: nat, n: nat, k: nat, p: Phase, q: Phase)
    requires Idle(s, e, base) && n <= k
    ensures ActiveJobs(Crowded(s, e, base, a, n, p, q)) <= Ids(base, k)
  {
    CrowdActive(s, e, Crowded(s, e, base, a, n, p, q), base, a, n, k, p, q);
  }

  lemma FreshInCrowd(s: State, e: nat, base: nat, n: nat, p: Phase)
    requires Idle(s, e, base)
    ensures base + n !in Crowded(s, e, base, n, n, p, p).jobs
    ensures Crowded(s, e, base, n, n, p, p).attempts == s.attempts < MAX_ATTEMPTS
  {
    hide ActiveJobs, Pending;
  }

  lemma DeliveredIsNotActive()
    ensures !Active(Delivered)
  {
  }

  lemma AdmitOneState(s: State, e: nat, base: nat, n: nat, k: nat)
    requires Idle(s, e, base) && n < k
    ensures var g, id := Grading({e}), base + n;
            var t, u := Crowded(s, e, base, n, n, g, g), Crowded(s, e, base, n + 1, n + 1, g, g);
            && Enabled(t, Deliver(id)) && ActiveJobs(Apply(t, Deliver(id))) <= Ids(base, k)
            && Enabled(Apply(t, Deliver(id)), Admit(id)) && Apply(Apply(t, Deliver(id)), Admit(id)) == u
            && ActiveJobs(u) <= Ids(base, k)
  {
    var g, id := Grading({e}), base + n;
    var t, u := Crowded(s, e, base, n, n, g, g), Crowded(s, e, base, n + 1, n + 1, g, g);
    PendingOfCrowd(s, e, base, n, n, g, g);
    hide *;
    OnlyTheCrowdIsActive(s, e, base, n, n, k, g, g);
    OnlyTheCrowdIsActive(s, e, base, n + 1, n + 1, k, g, g);
    CrowdNext(s, e, base, n, n, g, g);
    FreshInCrowd(s, e, base, n, g);
    Admits(t, id, e);
    DeliveredIsNotActive();
    MoveActive(t, id, Delivered, Ids(base, k));
  }

  /** One more job is delivered and finds the new submission pending. */
  lemma AdmitOne(from: State, steps: seq<Step>, s: State, e: nat, base: nat, n: nat, k: nat)
    returns (longer: seq<Step>, next: State)
    requires Idle(s, e, base) && n < k
    requires Run(from, steps) == Some(Crowded(s, e, base, n, n, Grading({e}), Grading({e})))
    requires Overlap(from, steps, k)
    ensures next == Crowded(s, e, base, n + 1, n + 1, Grading({e}), Grading({e}))
    ensures Run(from, longer) == Some(next) && Overlap(from, longer, k)
  {
    hide *;
    AdmitOneState(s, e, base, n, k);
    var t := Crowded(s, e, base, n, n, Grading({e}), Grading({e}));
    longer, next := Then(from, steps, t, Deliver(base + n), base, k);
    longer, next := Then(from, longer, next, Admit(base + n), base, k);
  }

  lemma {:induction false} AdmitAll(from: State, steps: seq<Step>, s: State, e: nat, base: nat, n: nat, k: nat)
    returns (longer: seq<Step>, next: State)
    requires Idle(s, e, base) && n <= k
    requires Run(from, steps) == Some(Crowded(s, e, base, n, n, Grading({e}), Grading({e})))
    requires Overlap(from, steps, k)
    ensures next == Crowded(s, e, base, k, k, Grading({e}), Grading({e}))
    ensures Run(from, longer) == Some(next) && Overlap(from, longer, k)
    decreases k - n
  {
    hide Run, Overlap, Idle, Crowded;
    longer, next := steps, Crowded(s, e, base, n, n, Grading({e}), Grading({e}));
    if n < k {
      longer, next := AdmitOne(from, steps, s, e, base, n, k);
      longer, next := AdmitAll(from, longer, s, e, base, n + 1, k);
    }
  }

  lemma ReadOneState(s: State, e: nat, base: nat, a: nat, k: nat)
    requires Idle(s, e, base) && a < k
    ensures var g, r, id := Grading({e}), Recording({e}, Fail, s.attempts), base + a;
            var t, u := Crowded(s, e, base, a, k, r, g), Crowded(s, e, base, a + 1, k, r, g);
            && Enabled(t, Answer(id, Fail)) && ActiveJobs(Apply(t, Answer(id, Fail))) <= Ids(base, k)
            && Enabled(Apply(t, Answer(id, Fail)), Read(id)) && Apply(Apply(t, Answer(id, Fail)), Read(id)) == u
            && ActiveJobs(u) <= Ids(base, k)
  {
    var g, r, id := Grading({e}), Recording({e}, Fail, s.attempts), base + a;
    var t := Crowded(s, e, base, a, k, r, g);
    hide *;
    OnlyTheCrowdIsActive(s, e, base, a, k, k, r, g);
    OnlyTheCrowdIsActive(s, e, base, a + 1, k, k, r, g);
    CrowdNext(s, e, base, a, k, r, g);
    Reads(t, id, e);
    MoveActive(t, id, Graded({e}, Fail), Ids(base, k));
  }

  /** One more job gets its answer and reads the counter. */
  lemma ReadOne(from: State, steps: seq<Step>, s: State, e: nat, base: nat, a: nat, k: nat)
    returns (longer: seq<Step>, next: State)
    requires Idle(s, e, base) && a < k
    requires Run(from, steps) == Some(Crowded(s, e, base, a, k, Recording({e}, Fail, s.attempts), Grading({e})))
    requires Overlap(from, steps, k)
    ensures next == Crowded(s, e, base, a + 1, k, Recording({e}, Fail, s.attempts), Grading({e}))
    ensures Run(from, longer) == Some(next) && Overlap(from, longer, k)
  {
    hide *;
    ReadOneState(s, e, base, a, k);
    var t := Crowded(s, e, base, a, k, Recording({e}, Fail, s.attempts), Grading({e}));
    longer, next := Then(from, steps, t, Answer(base + a, Fail), base, k);
    longer, next := Then(from, longer, next, Read(base + a), base, k);
  }

  lemma {:induction false} ReadAll(from: State, steps: seq<Step>, s: State, e: nat, base: nat, a: nat, k: nat)
    returns (longer: seq<Step>, next: State)
    requires Idle(s, e, base) && a <= k
    requires Run(from, steps) == Some(Crowded(s, e, base, a, k, Recording({e}, Fail, s.attempts), Grading({e})))
    requires Overlap(from, steps, k)
    ensures next == Crowded(s, e, base, k, k, Recording({e}, Fail, s.attempts), Grading({e}))
    ensures Run(from, longer) == Some(next) && Overlap(from, longer, k)
    decreases k - a
  {
    hide Run, Overlap, Idle, Crowded;
    longer, next := steps, Crowded(s, e, base, a, k, Recording({e}, Fail, s.attempts), Grading({e}));
    if a < k {
      longer, next := ReadOne(from, steps, s, e, base, a, k);
      longer, next := ReadAll(from, longer, s, e, base, a + 1, k);
    }
  }

  /** `a` of the `k` jobs have recorded: each was charged, and each wrote one more
      than the counter all of them read. */
  function Written(s: State, e: nat, base: nat, a: nat, k: nat): State {
    var t := Crowded(s, e, base, a, k, Done, Recording({e}, Fail, s.attempts));
    if a == 0 then t
    else t.(status := FailedTask, attempts := s.attempts + 1, charges := s.charges + a,
            evidence := t.evidence[e := Some(Fail)], writes := t.writes[e := a])
  }

  lemma WriteChanges(t: State, job: nat, e: nat, seen: nat)
    requires job in t.jobs && t.jobs[job] == Recording({e}, Fail, seen)
    requires e in t.evidence && e in t.writes
    ensures Enabled(t, Write(job)) && Apply(t, Write(job)) ==
            t.(status := FailedTask, attempts := seen + 1, charges := t.charges + 1, jobs := t.jobs[job := Done],
               evidence := t.evidence[e := Some(Fail)], writes := t.writes[e := t.writes[e] + 1])
  {
    var w := Apply(t, Write(job));
    assert w.evidence == t.evidence[e := Some(Fail)];
    assert w.writes == t.writes[e := t.writes[e] + 1];
  }

  lemma WrittenActive(s: State, e: nat, base: nat, a: nat, k: nat)
    requires Idle(s, e, base) && a <= k
    ensures ActiveJobs(Written(s, e, base, a, k)) <= Ids(base, k)
  {
    CrowdActive(s, e, Written(s, e, base, a, k), base, a, k, k, Done, Recording({e}, Fail, s.attempts));
  }

  lemma WrittenNext(s: State, e: nat, base: nat, a: nat, k: nat)
    requires a < k
    ensures var t := Written(s, e, base, a, k);
            && base + a in t.jobs && t.jobs[base + a] == Recording({e}, Fail, s.attempts)
            && e in t.evidence && e in t.writes
            && Written(s, e, base, a + 1, k) ==
                 t.(status := FailedTask, attempts := s.attempts + 1, charges := t.charges + 1,
                    jobs := t.jobs[base + a := Done], evidence := t.evidence[e := Some(Fail)],
                    writes := t.writes[e := t.writes[e] + 1])
  {
    CrowdNext(s, e, base, a, k, Done, Recording({e}, Fail, s.attempts));
    hide Jobs;
    var t, u := Written(s, e, base, a, k), Written(s, e, base, a + 1, k);
    assert t.evidence[e := Some(Fail)] == u.evidence;
    assert t.writes[e] == a && t.writes[e := a + 1] == u.writes;
  }

  lemma WriteOneState(s: State, e: nat, base: nat, a: nat, k: nat)
    requires Idle(s, e, base) && a < k
    ensures var t, u := Written(s, e, base, a, k), Written(s, e, base, a + 1, k);
            Enabled(t, Write(base + a)) && Apply(t, Write(base + a)) == u && ActiveJobs(u) <= Ids(base, k)
  {
    hide *;
    WrittenActive(s, e, base, a + 1, k);
    WrittenNext(s, e, base, a, k);
    WriteChanges(Written(s, e, base, a, k), base + a, e, s.attempts);
  }

  lemma WriteOne(from: State, steps: seq<Step>, s: State, e: nat, base: nat, a: nat, k: nat)
    returns (longer: seq<Step>, next: State)
    requires Idle(s, e, base) && a < k
    requires Run(from, steps) == Some(Written(s, e, base, a, k)) && Overlap(from, steps, k)
    ensures next == Written(s, e, base, a + 1, k)
    ensures Run(from, longer) == Some(next) && Overlap(from, longer, k)
  {
    hide *;
    WriteOneState(s, e, base, a, k);
    longer, next := Then(from, steps, Written(s, e, base, a, k), Write(base + a), base, k);
  }

  lemma {:induction false} WriteAll(from: State, steps: seq<Step>, s: State, e: nat, base: nat, a: nat, k: nat)
    returns (longer: seq<Step>, next: State)
    requires Idle(s, e, base) && a <= k
    requires Run(from, steps) == Some(Written(s, e, base, a, k)) && Overlap(from, steps, k)
    ensures next == Written(s, e, base, k, k)
    ensures Run(from, longer) == Some(next) && Overlap(from, longer, k)
    decreases k - a
  {
    hide Run, Overlap, Idle, Written;
    longer, next := steps, Written(s, e, base, a, k);
    if a < k {
      longer, next := WriteOne(from, steps, s, e, base, a, k);
      longer, next := WriteAll(from, longer, s, e, base, a + 1, k);
    }
  }

  /** Once all are past, the second phase does not matter. */
  lemma JobsSame(s: State, base: nat, k: nat, p: Phase, q: Phase)
    ensures Jobs(s, base, k, k, p, q) == Jobs(s, base, k, k, p, p)
  {
    hide Jobs;
  }

  /** Where one stage ends the next begins. */
  lemma CrowdStages(s: State, e: nat, base: nat, k: nat)
    ensures var g, r := Grading({e}), Recording({e}, Fail, s.attempts);
            && Crowded(s, e, base, k, k, g, g) == Crowded(s, e, base, 0, k, r, g)
            && Crowded(s, e, base, k, k, r, g) == Written(s, e, base, 0, k)
  {
    var g, r := Grading({e}), Recording({e}, Fail, s.attempts);
    JobsNext(s, base, 0, k, r, g);
    JobsNext(s, base, 0, k, Done, r);
    JobsSame(s, base, k, r, g);
    hide Jobs;
  }

  lemma RestedCrowd(s: State, e: nat, base: nat, k: nat)
    requires Idle(s, e, base) && k >= 1
    ensures var t := Written(s, e, base, k, k);
            && ActiveJobs(t) == {} && Pending(t) == {} && (forall id <- t.jobs :: id < base + k)
            && t.charges == s.charges + k && t.attempts == s.attempts + 1 && t.status == FailedTask
            && t.writes == s.writes[e := k] && t.evidence.Keys == s.evidence.Keys + {e}
  {
    var t := Written(s, e, base, k, k);
    forall id <- t.jobs ensures !Active(t.jobs[id]) {
      assert id in s.jobs && Active(s.jobs[id]) ==> id in ActiveJobs(s);
    }
    assert forall x <- Pending(t) :: x in Pending(s);
  }

  lemma UploadState(s: State, e: nat, base: nat, k: nat)
    requires Idle(s, e, base)
    ensures Enabled(s, Upload(e)) && ActiveJobs(Apply(s, Upload(e))) <= Ids(base, k)
    ensures Apply(s, Upload(e)) == Crowded(s, e, base, 0, 0, Grading({e}), Grading({e}))
  {
    assert ActiveJobs(Apply(s, Upload(e))) == ActiveJobs(s);
  }

  /** One round of `k` overlapping gradings of a new submission: `k` charges, `k`
      outcomes, one attempt counted, and the task idle again. */
  lemma Round(from: State, steps: seq<Step>, s: State, e: nat, base: nat, k: nat)
    returns (longer: seq<Step>, next: State)
    requires Run(from, steps) == Some(s) && Overlap(from, steps, k) && Idle(s, e, base) && k >= 1
    ensures Run(from, longer) == Some(next) && Overlap(from, longer, k)
    ensures next.charges == s.charges + k && next.attempts == s.attempts + 1 && next.status == FailedTask
    ensures ActiveJobs(next) == {} && Pending(next) == {} && forall id <- next.jobs :: id < base + k
    ensures next.writes == s.writes[e := k] && next.evidence.Keys == s.evidence.Keys + {e}
  {
    UploadState(s, e, base, k);
    CrowdStages(s, e, base, k);
    RestedCrowd(s, e, base, k);
    hide *;
    longer, next := Then(from, steps, s, Upload(e), base, k);
    longer, next := AdmitAll(from, longer, s, e, base, 0, k);
    longer, next := ReadAll(from, longer, s, e, base, 0, k);
    longer, next := WriteAll(from, longer, s, e, base, 0, k);
  }

  // ------------------------------------------------------------------ exactly when

  lemma StartIsIdle()
    ensures Idle(START, 0, 0) && Run(START, []) == Some(START) && forall k: nat :: Overlap(START, [], k)
  {
    assert ActiveJobs(START) == {};
  }

  lemma Rest(s: State, e: nat, base: nat)
    requires ActiveJobs(s) == {} && Pending(s) == {} && s.status == FailedTask && s.attempts < MAX_ATTEMPTS
    requires (forall id <- s.jobs :: id < base) && e !in s.evidence.Keys && e !in s.writes.Keys
    ensures Idle(s, e, base)
  {
  }

  /** With `k` gradings at a time, three rounds charge `3 * k` and give the first
      submission `k` outcomes, while the counter says three. */
  lemma InterleavedRecordingsDefeatTheCap(k: nat) returns (steps: seq<Step>, s: State)
    requires k >= 1
    ensures Run(START, steps) == Some(s) && Overlap(START, steps, k)
    ensures s.charges == 3 * k && s.attempts == MAX_ATTEMPTS && 0 in s.writes && s.writes[0] == k
  {
    StartIsIdle();
    hide Run, Overlap, ActiveJobs, Pending, Idle;
    steps, s := Round(START, [], START, 0, 0, k);
    assert s.writes == map[0 := k] && s.evidence.Keys == {0};
    Rest(s, 1, k);
    steps, s := Round(START, steps, s, 1, k, k);
    assert s.writes == map[0 := k, 1 := k] && s.evidence.Keys == {0, 1};
    Rest(s, 2, 2 * k);
    steps, s := Round(START, steps, s, 2, 2 * k, k);
  }

  ghost predicate CapHolds(k: nat) {
    forall steps :: Run(START, steps).Some? && Overlap(START, steps, k) ==>
      Run(START, steps).value.charges <= MAX_ATTEMPTS - 1 + k
  }

  ghost predicate CounterHolds(k: nat) {
    forall steps :: Run(START, steps).Some? && Overlap(START, steps, k) ==>
      Run(START, steps).value.attempts == Run(START, steps).value.charges
  }

  ghost predicate OneOutcomeEach(k: nat) {
    forall steps, e :: Run(START, steps).Some? && Overlap(START, steps, k) && e in Run(START, steps).value.writes ==>
      Run(START, steps).value.writes[e] <= 1
  }

  /** Over all runs with at most `k` gradings at a time: the charges keep to the cap
      plus the overlap, the counter counts the charges, and each submission gets at
      most one outcome, each exactly when there is no overlap. */
  lemma PromisesHoldExactlyWithoutOverlap(k: nat)
    requires k >= 1
    ensures CapHolds(k) <==> k == 1
    ensures CounterHolds(k) <==> k == 1
    ensures OneOutcomeEach(k) <==> k == 1
  {
    if k == 1 {
      forall steps | Run(START, steps).Some? && Overlap(START, steps, 1)
        ensures var s := Run(START, steps).value;
                && s.attempts == s.charges <= MAX_ATTEMPTS
                && forall e <- s.writes :: s.writes[e] <= 1
      {
        WithoutOverlapEachSubmissionIsGradedOnce(steps);
      }
    } else {
      hide Run, Overlap;
      var steps, s := InterleavedRecordingsDefeatTheCap(k);
      assert Run(START, steps).value.charges > MAX_ATTEMPTS - 1 + k;
      assert Run(START, steps).value.attempts != Run(START, steps).value.charges;
      assert 0 in Run(START, steps).value.writes && Run(START, steps).value.writes[0] > 1;
    }
  }
}
