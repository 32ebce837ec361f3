/** The cap on resubmissions of a failed audit: what it bounds, exactly, when several
    requests read the failed row before one of them writes. */
module AuditRetries {
  import opened Wrappers
  import opened AuditRuns

  /** The resubmissions that have read a failed row with attempts left and not written. */
  function Readers(s: State): set<nat> {
    set r | r in s.requests && s.requests[r].HasRead? && s.requests[r].attempts < 3
  }

  /** Only resubmissions reopen the run, and at most `k` of them are between their read
      and their write. */
  predicate Resubmitted(s: State, steps: seq<Step>, p: Policy, k: nat)
    decreases |steps|
  {
    && |Readers(s)| <= k
    && (steps != [] && Enabled(s, steps[0], p) ==>
          && (steps[0].Claim? && Claimable(s.row, s.now, p) ==> s.row.status == Queued)
          && Resubmitted(Apply(s, steps[0], p), steps[1..], p, k))
  }

  // ------------------------------------------------------------------- the bound

  /** Claims won, the one a queued row invites included. */
  function Claims(s: State): nat {
    s.row.attempts + if s.row.status == Queued then 1 else 0
  }

  predicate Bounded(s: State, k: nat) {
    Claims(s) <= 3 - 1 || Claims(s) + |Readers(s)| <= 2 + k
  }

  lemma ReadersAfterRead(s: State, request: nat, p: Policy)
    requires Enabled(s, ReadFailed(request), p)
    ensures Readers(Apply(s, ReadFailed(request), p)) ==
            if s.row.attempts < 3 then Readers(s) + {request} else Readers(s)
  {
  }

  lemma ReadersAfterWrite(s: State, request: nat, status: Status, p: Policy)
    requires Enabled(s, Rewrite(request, status), p)
    ensures Readers(Apply(s, Rewrite(request, status), p)) == Readers(s) - {request}
    ensures status == Queued <==> request in Readers(s)
  {
  }

  lemma ReadersOtherwise(s: State, step: Step, p: Policy)
    requires Enabled(s, step, p) && !step.ReadFailed? && !step.Rewrite?
    ensures Readers(Apply(s, step, p)) == Readers(s)
  {
    assert Apply(s, step, p).requests == s.requests;
  }

  lemma ClaimsOtherwise(s: State, step: Step, p: Policy)
    requires Enabled(s, step, p) && !step.ReadFailed? && !step.Rewrite?
    requires step.Claim? && Claimable(s.row, s.now, p) ==> s.row.status == Queued
    ensures Claims(Apply(s, step, p)) <= Claims(s)
  {
  }

  lemma StepKeepsBounded(s: State, step: Step, p: Policy, k: nat)
    requires Bounded(s, k) && Enabled(s, step, p) && |Readers(s)| <= k
    requires step.Claim? && Claimable(s.row, s.now, p) ==> s.row.status == Queued
    ensures Bounded(Apply(s, step, p), k)
  {
    hide Readers;
    match step
    case ReadFailed(request) => ReadersAfterRead(s, request, p);
    case Rewrite(request, status) =>
      ReadersAfterWrite(s, request, status, p);
      assert request in Readers(s) ==> |Readers(s) - {request}| == |Readers(s)| - 1;
      assert request !in Readers(s) ==> Readers(s) - {request} == Readers(s);
    case _ =>
      ReadersOtherwise(s, step, p);
      ClaimsOtherwise(s, step, p);
  }

  lemma {:induction false} RunsAreBounded(s: State, steps: seq<Step>, p: Policy, k: nat)
    requires Bounded(s, k) && Run(s, steps, p).Some? && Resubmitted(s, steps, p, k)
    ensures Bounded(Run(s, steps, p).value, k)
    decreases |steps|
  {
    if steps != [] {
      StepKeepsBounded(s, steps[0], p, k);
      hide Bounded, Apply, Enabled, Readers;
      RunsAreBounded(Apply(s, steps[0], p), steps[1..], p, k);
    }
  }

  /** What one resubmission does: with attempts left it writes `queued`, then at most one
      `failed` when its dispatch raises; with none left only that; and then it is over. */
  lemma WhatAResubmissionWrites(s: State, request: nat, status: Status, p: Policy)
    requires request in s.requests && s.requests[request].HasRead?
    ensures Enabled(s, Rewrite(request, status), p) <==>
              status == if s.requests[request].attempts < 3 then Queued else Failed
    ensures Enabled(s, Rewrite(request, status), p) ==>
              var t := Apply(s, Rewrite(request, status), p);
              && t.row.status == status
              && (status == Failed ==> request !in t.requests)
              && (status == Queued ==>
                    && !Enabled(t, Rewrite(request, Queued), p) && Enabled(t, Rewrite(request, Failed), p)
                    && Apply(t, Rewrite(request, Failed), p).row.status == Failed
                    && request !in Apply(t, Rewrite(request, Failed), p).requests)
  {
  }

  // ------------------------------------------------------------- the bound is reached

  /** A run made one step longer. */
  lemma {:induction false} Then(from: State, steps: seq<Step>, s: State, step: Step, p: Policy, k: nat)
    returns (longer: seq<Step>, next: State)
    requires Run(from, steps, p) == Some(s) && Resubmitted(from, steps, p, k)
    requires Enabled(s, step, p) && (step.Claim? && Claimable(s.row, s.now, p) ==> s.row.status == Queued)
    requires |Readers(Apply(s, step, p))| <= k
    ensures longer == steps + [step] && next == Apply(s, step, p)
    ensures Run(from, longer, p) == Some(next) && Resubmitted(from, longer, p, k)
    decreases |steps|
  {
    longer, next := steps + [step], Apply(s, step, p);
    hide Readers;
    if steps == [] {
      assert longer[1..] == [];
    } else {
      var inner, _ := Then(Apply(from, steps[0], p), steps[1..], s, step, p, k);
      assert longer[1..] == inner;
    }
  }

  /** The queued run is delivered, won, scored in vain and marked failed. */
  lemma FailsOnce(from: State, steps: seq<Step>, s: State, id: nat, p: Policy, k: nat)
    returns (longer: seq<Step>, next: State)
    requires Run(from, steps, p) == Some(s) && Resubmitted(from, steps, p, k) && |Readers(s)| <= k
    requires s.row.status == Queued && forall job <- s.jobs :: job < id
    ensures Run(from, longer, p) == Some(next) && Resubmitted(from, longer, p, k)
    ensures next.row.status == Failed && next.row.attempts == s.row.attempts + 1 && next.requests == s.requests
    ensures forall job <- next.jobs :: job < id + 1
  {
    hide Run, Resubmitted, Readers;
    ReadersOtherwise(s, Deliver(id), p);
    longer, next := Then(from, steps, s, Deliver(id), p, k);
    ReadersOtherwise(next, Claim(id), p);
    longer, next := Then(from, longer, next, Claim(id), p, k);
    ReadersOtherwise(next, Raise(id), p);
    longer, next := Then(from, longer, next, Raise(id), p, k);
    ReadersOtherwise(next, RecordFailure(id), p);
    longer, next := Then(from, longer, next, RecordFailure(id), p, k);
  }

  function Span(first: nat, last: nat): (s: set<nat>)
    ensures forall r: nat :: r in s <==> first <= r < last
    decreases last - first
  {
    if first >= last then {} else {first} + Span(first + 1, last)
  }

  lemma {:induction false} SpanCount(first: nat, last: nat)
    requires first <= last
    ensures |Span(first, last)| == last - first
    decreases last - first
  {
    if first < last {
      SpanCount(first + 1, last);
    }
  }

  /** The requests from `first` to `last - 1` have read the row and are to queue it. */
  predicate Waiting(s: State, first: nat, last: nat) {
    && Readers(s) == Span(first, last)
    && forall r <- s.requests :: r < last
  }

  lemma SpanNext(first: nat, last: nat)
    requires first <= last
    ensures Span(first, last) + {last} == Span(first, last + 1)
    ensures first < last ==> first in Span(first, last) && Span(first, last) - {first} == Span(first + 1, last)
  {
  }

  lemma {:induction false} ReadAll(from: State, steps: seq<Step>, s: State, n: nat, p: Policy, k: nat)
    returns (longer: seq<Step>, next: State)
    requires Run(from, steps, p) == Some(s) && Resubmitted(from, steps, p, k) && n <= k
    requires s.row.status == Failed && s.row.attempts == 2 && Waiting(s, 1, 1 + n)
    ensures Run(from, longer, p) == Some(next) && Resubmitted(from, longer, p, k)
    ensures next.row == s.row && next.jobs == s.jobs && Waiting(next, 1, 1 + k)
    decreases k - n
  {
    hide Run, Resubmitted, Readers, Span;
    longer, next := steps, s;
    if n < k {
      ReadersAfterRead(s, 1 + n, p);
      assert Span(1, 1 + n) + {1 + n} == Span(1, 2 + n) by { SpanNext(1, 1 + n); }
      SpanCount(1, 2 + n);
      longer, next := Then(from, steps, s, ReadFailed(1 + n), p, k);
      longer, next := ReadAll(from, longer, next, n + 1, p, k);
    }
  }

  lemma ReaderWillQueue(s: State, request: nat, p: Policy)
    requires request in Readers(s)
    ensures Enabled(s, Rewrite(request, Queued), p)
  {
  }

  lemma SameReaders(s: State, t: State)
    requires s.requests == t.requests
    ensures Readers(s) == Readers(t)
  {
  }

  /** Each of them in turn puts the run back in the queue, and it fails again. */
  lemma {:induction false} RetryAll(from: State, steps: seq<Step>, s: State, i: nat, id: nat, p: Policy, k: nat)
    returns (longer: seq<Step>, next: State)
    requires Run(from, steps, p) == Some(s) && Resubmitted(from, steps, p, k) && 1 <= i <= k + 1
    requires s.row.status == Failed && Waiting(s, i, 1 + k) && forall job <- s.jobs :: job < id
    ensures Run(from, longer, p) == Some(next) && Resubmitted(from, longer, p, k)
    ensures next.row.attempts == s.row.attempts + (k + 1 - i)
    decreases k + 1 - i
  {
    hide Run, Resubmitted, Readers, Span;
    longer, next := steps, s;
    if i <= k {
      SpanNext(i, 1 + k);
      SpanCount(i + 1, 1 + k);
      ReaderWillQueue(s, i, p);
      ReadersAfterWrite(s, i, Queued, p);
      longer, next := Then(from, steps, s, Rewrite(i, Queued), p, k);
      longer, next := FailsOnce(from, longer, next, id, p, k);
      SameReaders(Apply(s, Rewrite(i, Queued), p), next);
      longer, next := RetryAll(from, longer, next, i + 1, id + 1, p, k);
    }
  }

  lemma NobodyReads(p: Policy, k: nat)
    ensures Readers(START) == {} && Run(START, [], p) == Some(START) && Resubmitted(START, [], p, k)
  {
  }

  lemma RequeuedIsNoReader(s: State, t: State)
    requires Readers(s) == {} && t.requests == s.requests[0 := Requeued]
    ensures Readers(t) == {}
  {
  }

  lemma CapIsOvertaken(p: Policy, k: nat) returns (steps: seq<Step>, s: State)
    requires k >= 1
    ensures Run(START, steps, p) == Some(s) && Resubmitted(START, steps, p, k) && s.row.attempts == 2 + k
  {
    NobodyReads(p, k);
    hide Run, Resubmitted, Readers;
    steps, s := FailsOnce(START, [], START, 0, p, k);
    SameReaders(START, s);
    ReadersAfterRead(s, 0, p);
    steps, s := Then(START, steps, s, ReadFailed(0), p, k);
    ReaderWillQueue(s, 0, p);
    ReadersAfterWrite(s, 0, Queued, p);
    assert Readers(s) - {0} == {};
    steps, s := Then(START, steps, s, Rewrite(0, Queued), p, k);
    var queued := s;
    steps, s := FailsOnce(START, steps, s, 1, p, k);
    SameReaders(queued, s);
    assert Span(1, 1) == {};
    steps, s := ReadAll(START, steps, s, 0, p, k);
    steps, s := RetryAll(START, steps, s, 1, 2, p, k);
  }

  // ------------------------------------------------------------------ exactly when

  /** No run wins more claims than this. */
  ghost predicate ClaimsStayWithin(p: Policy, k: nat, most: int) {
    forall steps :: Run(START, steps, p).Some? && Resubmitted(START, steps, p, k) ==>
      Run(START, steps, p).value.row.attempts <= most
  }

  /** When only resubmissions reopen a run and at most `k` of them are between their read
      and their write, the claims won never exceed two plus `k`, and no smaller bound
      holds: the cap of three is kept exactly when they follow one another. */
  lemma ResubmissionsAreCapped(p: Policy, k: nat, most: int)
    requires k >= 1
    ensures ClaimsStayWithin(p, k, most) <==> most >= 2 + k
    ensures ClaimsStayWithin(p, k, 3) <==> k == 1
  {
    NobodyReads(p, k);
    forall steps | Run(START, steps, p).Some? && Resubmitted(START, steps, p, k)
      ensures Run(START, steps, p).value.row.attempts <= 2 + k
    {
      RunsAreBounded(START, steps, p, k);
    }
    var steps, s := CapIsOvertaken(p, k);
  }
}
