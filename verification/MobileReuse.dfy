/** When a lost reply leads the mobile client to present a token twice, and when
    the server takes that for reuse: the exact conditions, in every reachable state. */
module MobileReuse {
  import opened MobileTokens
  import opened Wrappers

  /** Whatever happens next, short of losing the successor of a token still held,
      reuse detection stays silent. */
  ghost predicate NeverReuse(s: State) {
    forall steps :: Run(s, steps).Some? && KeepsSuccessors(s, steps) ==> !Run(s, steps).value.server.reuseDetected
  }

  /** Whatever happens next, short of losing the answer for a token still held, no
      token has been presented twice. */
  ghost predicate NeverTwice(s: State) {
    forall steps :: Run(s, steps).Some? && KeepsAnswers(s, steps) ==> NoDuplicates(Run(s, steps).value.server.presented)
  }

  lemma FirstStep(s: State, step: Step, later: seq<Step>)
    requires Enabled(s, step)
    ensures Run(s, [step] + later) == Run(Apply(s, step), later)
    ensures KeepsAnswers(s, [step] + later) <==>
              (step.LosingReply? ==> !Spending(s, step.id)) && KeepsAnswers(Apply(s, step), later)
    ensures KeepsSuccessors(s, [step] + later) <==>
              (step.LosingReply? ==> !Rotated(s, step.id)) && KeepsSuccessors(Apply(s, step), later)
  {
    assert ([step] + later)[1..] == later;
  }

  // ------------------------------------------------- what the client can still do

  /** The exchange presents the token it carries. */
  lemma PresentsCarried(s: State, refresh: nat) returns (steps: seq<Step>)
    requires OneExchange(s.client) && Carries(s.client, refresh)
    ensures Run(s, steps).Some? && Run(s, steps).value.server == Rotate(s.server, refresh, false).0
    ensures KeepsAnswers(s, steps) && KeepsSuccessors(s, steps)
  {
    var id := s.client.refreshing.value;
    if s.client.exchanges[id].Reading? {
      var sent := Apply(s, Presenting(id));
      FirstStep(sent, Serving(id, false), []);
      FirstStep(s, Presenting(id), [Serving(id, false)] + []);
      steps := [Presenting(id)] + ([Serving(id, false)] + []);
    } else {
      FirstStep(s, Serving(id, false), []);
      steps := [Serving(id, false)] + [];
    }
  }

  function Rank(c: Client): nat {
    if c.refreshing == None || c.refreshing.value !in c.exchanges then 0
    else
      match c.exchanges[c.refreshing.value]
      case Settled => 1
      case Answered(_, _) => 2
      case OnWire(_) => 3
      case Reading(_) => 4
  }

  /** What ends the running exchange a step sooner without touching the tokens. */
  function Abandoning(c: Client): Step
    requires c.refreshing.Some? && c.refreshing.value in c.exchanges
  {
    var id := c.refreshing.value;
    match c.exchanges[id]
    case Settled => Finishing(id)
    case Answered(_, _) => LosingReply(id)
    case OnWire(_) => SendThrows(id)
    case Reading(_) => Presenting(id)
  }

  lemma AbandoningKeepsTokens(s: State)
    requires OneExchange(s.client) && s.client.refreshing.Some?
    ensures var step := Abandoning(s.client);
            && Enabled(s, step)
            && (step.LosingReply? ==> step.id == s.client.refreshing.value)
    ensures var t := Apply(s, Abandoning(s.client));
            && OneExchange(t.client) && t.server == s.server && t.client.tokens == s.client.tokens
            && Rank(t.client) < Rank(s.client) && !AnswerComing(t)
  {
    assert s.client.refreshing.value in s.client.exchanges.Keys;
  }

  /** Unless its successor is on the way, the client can come to present the token it
      holds, losing no successor; unless its answer is on the way, losing no answer. */
  lemma {:induction false} PresentsHeld(s: State, refresh: nat) returns (steps: seq<Step>)
    requires OneExchange(s.client) && Holds(s.client, refresh) && !SuccessorComing(s)
    ensures Run(s, steps).Some? && Run(s, steps).value.server == Rotate(s.server, refresh, false).0
    ensures KeepsSuccessors(s, steps) && (!AnswerComing(s) ==> KeepsAnswers(s, steps))
    decreases Rank(s.client)
  {
    var step := if s.client.refreshing == None then Refreshing else Abandoning(s.client);
    var later: seq<Step>;
    if s.client.refreshing == None {
      StepKeepsOneExchange(s, Refreshing);
      later := PresentsCarried(Apply(s, Refreshing), refresh);
    } else {
      AbandoningKeepsTokens(s);
      later := PresentsHeld(Apply(s, step), refresh);
    }
    FirstStep(s, step, later);
    steps := [step] + later;
  }

  // ------------------------------------------------------------- exact conditions

  lemma RepeatIsDuplicate(xs: seq<nat>, x: nat)
    requires x in xs
    ensures !NoDuplicates(xs + [x])
  {
    var i :| 0 <= i < |xs| && xs[i] == x;
    assert (xs + [x])[i] == (xs + [x])[|xs|];
  }

  lemma UncleanIsFound(s: State)
    requires Safe(s) && !Clean(s)
    ensures !NeverReuse(s)
  {
    if s.server.reuseDetected {
      assert Run(s, []) == Some(s) && KeepsSuccessors(s, []);
    } else {
      var r :| Used(s.server, r) && (Carries(s.client, r) || (Holds(s.client, r) && !SuccessorComing(s)));
      var steps;
      if Carries(s.client, r) {
        steps := PresentsCarried(s, r);
      } else {
        steps := PresentsHeld(s, r);
      }
      SpentTokenIsReuse(s.server, r, false);
    }
  }

  lemma SecondTimeIsReached(s: State)
    requires Safe(s) && !Once(s)
    ensures !NeverTwice(s)
  {
    if !NoDuplicates(s.server.presented) {
      assert Run(s, []) == Some(s) && KeepsAnswers(s, []);
    } else {
      var r :| r in s.server.presented && (Carries(s.client, r) || (Holds(s.client, r) && !AnswerComing(s)));
      var steps;
      if Carries(s.client, r) {
        steps := PresentsCarried(s, r);
      } else {
        steps := PresentsHeld(s, r);
      }
      assert Rotate(s.server, r, false).0.presented == s.server.presented + [r];
      RepeatIsDuplicate(s.server.presented, r);
    }
  }

  lemma NeverReuseIffClean(s: State)
    requires Safe(s)
    ensures NeverReuse(s) <==> Clean(s)
  {
    if Clean(s) {
      forall steps | Run(s, steps).Some? && KeepsSuccessors(s, steps)
        ensures !Run(s, steps).value.server.reuseDetected
      {
        RunsKeepClean(s, steps);
      }
    } else {
      UncleanIsFound(s);
    }
  }

  lemma NeverTwiceIffOnce(s: State)
    requires Safe(s)
    ensures NeverTwice(s) <==> Once(s)
  {
    if Once(s) {
      forall steps | Run(s, steps).Some? && KeepsAnswers(s, steps)
        ensures NoDuplicates(Run(s, steps).value.server.presented)
      {
        RunsKeepOnce(s, steps);
      }
    } else {
      SecondTimeIsReached(s);
    }
  }

  lemma LosingKeepsCleanIffNotRotated(s: State, id: nat)
    requires Safe(s) && Enabled(s, LosingReply(id))
    ensures var lost := Apply(s, LosingReply(id));
            && (Clean(lost) <==> Clean(s) && !Rotated(s, id))
            && (Once(lost) <==> Once(s) && !Spending(s, id))
  {
    var lost := Apply(s, LosingReply(id));
    assert s.client.refreshing == Some(id);
    assert !AnswerComing(lost) && !SuccessorComing(lost);
    assert lost.server == s.server && lost.client.tokens == s.client.tokens;
    assert forall r :: !Carries(lost.client, r) && !Carries(s.client, r);
    if Spending(s, id) {
      var refresh := s.client.tokens.value.refresh;
      assert refresh in s.server.presented && Holds(lost.client, refresh);
      assert Rotated(s, id) ==> Used(s.server, refresh);
    }
  }

  /** In every reachable state, whatever was lost before: losing this reply leaves reuse
      detection silent in every later run if and only if it was to stay silent anyway
      and the reply is not the successor of the token still held. The same for a second
      presentation, with the reply not being any answer for that token. */
  lemma LosingAReplyIsSafeExactly(start: State, before: seq<Step>, id: nat)
    requires Start(start) && Run(start, before).Some? && Enabled(Run(start, before).value, LosingReply(id))
    ensures var s := Run(start, before).value;
            var lost := Apply(s, LosingReply(id));
            && (NeverReuse(lost) <==> NeverReuse(s) && !Rotated(s, id))
            && (NeverTwice(lost) <==> NeverTwice(s) && !Spending(s, id))
            && (KeepsSuccessors(start, before) ==> (NeverReuse(lost) <==> !Rotated(s, id)))
            && (KeepsAnswers(start, before) ==> (NeverTwice(lost) <==> !Spending(s, id)))
  {
    var s := Run(start, before).value;
    var lost := Apply(s, LosingReply(id));
    StartIsSafe(start);
    RunsAreSafe(start, before);
    StepKeepsSafe(s, LosingReply(id));
    LosingKeepsCleanIffNotRotated(s, id);
    hide *;
    NeverReuseIffClean(s);
    NeverReuseIffClean(lost);
    NeverTwiceIffOnce(s);
    NeverTwiceIffOnce(lost);
    if KeepsSuccessors(start, before) {
      RunsKeepClean(start, before);
    }
    if KeepsAnswers(start, before) {
      RunsKeepOnce(start, before);
    }
  }
}
