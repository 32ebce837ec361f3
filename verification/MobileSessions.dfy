/** What logins, refreshes and sign-outs achieve in the machine of `MobileTokens`:
    tokens come and go with the steps that decide them, a refresh renews the session,
    and a sign-out that reaches the server ends the whole family for good. */
module MobileSessions {
  import opened MobileTokens
  import opened Wrappers

  // ------------------------------------------------------------------- the client

  /** What each step leaves as the tokens held. */
  lemma TokensAfter(s: State, step: Step)
    requires Enabled(s, step)
    ensures Apply(s, step).client.tokens ==
      match step
      case Receiving(id) => s.client.exchanges[id].reply
      case LoginReceived(pair) => Some(pair)
      case Clearing => None
      case _ => s.client.tokens
  {
  }

  /** The exchange is answered with a pair exactly for a token that has a row, unused
      and not revoked, and is not refused. */
  lemma AnsweredWithAPairExactly(s: State, id: nat, refuse: bool)
    requires Enabled(s, Serving(id, refuse))
    ensures var refresh, rows := s.client.exchanges[id].refresh, s.server.rows;
            var e := Apply(s, Serving(id, refuse)).client.exchanges[id];
            && e.Answered? && e.refresh == refresh
            && (e.reply.Some? <==> refresh in rows && !rows[refresh].used && !rows[refresh].revoked && !refuse)
  {
  }

  predicate Idle(c: Client) {
    c.refreshing == None && c.exchanges == map[]
  }

  /** Idle, and holding a token the server would rotate, of this family. */
  predicate SignedIn(s: State, family: nat) {
    && Idle(s.client) && s.client.tokens.Some?
    && var refresh := s.client.tokens.value.refresh;
       && refresh in s.server.rows && s.server.rows[refresh].family == family
       && !s.server.rows[refresh].used && !s.server.rows[refresh].revoked
  }

  /** A login that is answered signs an idle client in, with a family of its own. */
  lemma LoginSignsIn(start: State, before: seq<Step>) returns (pair: Tokens, family: nat)
    requires Start(start) && Run(start, before).Some? && Idle(Run(start, before).value.client)
    ensures var s := Run(start, before).value;
            var end := Run(s, [LoginServed, LoginReceived(pair)]);
            && end.Some? && end.value.client.tokens == Some(pair) && SignedIn(end.value, family)
            && forall r <- s.server.rows :: s.server.rows[r].family != family
  {
    var s := Run(start, before).value;
    StartIsSafe(start);
    RunsAreSafe(start, before);
    family := s.server.next;
    pair := Issue(s.server, family).1;
    var steps := [LoginServed, LoginReceived(pair)];
    var served := Apply(s, LoginServed);
    RunAt(s, steps, 0);
    RunAt(served, steps, 1);
    RunAt(Apply(served, LoginReceived(pair)), steps, 2);
  }

  function RefreshSteps(id: nat): seq<Step> {
    [Refreshing, Presenting(id), Serving(id, false), Receiving(id), Finishing(id)]
  }

  /** A refresh with no reply lost renews the session: the token it spent is used up
      and another of the same family, never seen before, takes its place. */
  lemma RefreshRenews(s: State, family: nat) returns (end: State)
    requires SignedIn(s, family) && forall r <- s.server.rows :: r < s.server.next
    ensures Run(s, RefreshSteps(s.client.next)) == Some(end)
    ensures SignedIn(end, family) && forall r <- end.server.rows :: r < end.server.next
    ensures var spent, renewed := s.client.tokens.value.refresh, end.client.tokens.value.refresh;
            && renewed !in s.server.rows && end.server.presented == s.server.presented + [spent]
            && spent in end.server.rows && end.server.rows[spent].used
    ensures end.server.reuseDetected == s.server.reuseDetected
  {
    var id, refresh := s.client.next, s.client.tokens.value.refresh;
    var steps := RefreshSteps(id);
    var started := Apply(s, Refreshing);
    assert started.client.exchanges == map[id := Reading(s.client.tokens)];
    var presented := Apply(started, Presenting(id));
    assert presented.client.exchanges == map[id := OnWire(refresh)];
    var served := Apply(presented, Serving(id, false));
    var reply := served.client.exchanges[id].reply;
    assert served.client.exchanges == map[id := Answered(refresh, reply)] && reply.Some?;
    var received := Apply(served, Receiving(id));
    assert received.client.exchanges == map[id := Settled];
    end := Apply(received, Finishing(id));
    assert end.client.exchanges == map[];
    hide Apply, Run, Rotate, Issue;
    RunAt(s, steps, 0);
    RunAt(started, steps, 1);
    RunAt(presented, steps, 2);
    RunAt(served, steps, 3);
    RunAt(received, steps, 4);
    RunAt(end, steps, 5);
  }

  // ------------------------------------------------------------------- the server

  /** Every token of the family is revoked, and none can join it later. */
  predicate Ended(sv: Server, family: nat) {
    family < sv.next && forall r <- sv.rows :: sv.rows[r].family == family ==> sv.rows[r].revoked
  }

  lemma StepKeepsEnded(s: State, step: Step, family: nat)
    requires LedgerOk(s.server) && Ended(s.server, family) && Enabled(s, step)
    ensures Ended(Apply(s, step).server, family)
  {
  }

  lemma {:induction false} RunsKeepEnded(s: State, steps: seq<Step>, family: nat)
    requires Safe(s) && Ended(s.server, family) && Run(s, steps).Some?
    ensures Ended(Run(s, steps).value.server, family)
    decreases |steps|
  {
    if steps != [] {
      StepKeepsSafe(s, steps[0]);
      StepKeepsEnded(s, steps[0], family);
      hide Safe, Ended, Apply, Enabled;
      RunsKeepEnded(Apply(s, steps[0]), steps[1..], family);
    }
  }

  predicate RevokedForGood(s: State, family: nat) {
    && (forall r <- s.server.rows :: s.server.rows[r].family == family ==> s.server.rows[r].revoked)
    && forall id <- s.client.exchanges ::
         s.client.exchanges[id].OnWire? ==>
           var refresh := s.client.exchanges[id].refresh;
           refresh in s.server.rows && s.server.rows[refresh].family == family ==>
             && Apply(s, Serving(id, false)).client.exchanges[id] == Answered(refresh, None)
             && Apply(s, Serving(id, true)).client.exchanges[id] == Answered(refresh, None)
  }

  lemma EndedIsForGood(s: State, family: nat)
    requires Ended(s.server, family)
    ensures RevokedForGood(s, family)
  {
  }

  lemma LogoutEnds(s: State, refresh: nat)
    requires LedgerOk(s.server) && refresh in s.server.rows
    ensures var out, family := Apply(s, LogoutServed(refresh)), s.server.rows[refresh].family;
            && Ended(out.server, family) && out.client == s.client && out.server.rows.Keys == s.server.rows.Keys
            && forall r <- s.server.rows :: s.server.rows[r].family != family ==>
                 out.server.rows[r] == s.server.rows[r]
  {
  }

  /** A sign-out that reaches the server, after any run: it revokes every token of the
      presented token's family and changes no other row; and whatever follows, every
      token of that family stays revoked, those in flight and those never yet seen
      included, and presenting one brings no pair. An unknown token changes nothing. */
  lemma SignOutEndsTheFamily(start: State, before: seq<Step>, refresh: nat, after: seq<Step>)
    requires Start(start) && Run(start, before).Some?
    requires Run(Apply(Run(start, before).value, LogoutServed(refresh)), after).Some?
    ensures var s := Run(start, before).value;
            var out := Apply(s, LogoutServed(refresh));
            && (refresh !in s.server.rows ==> out == s)
            && (refresh in s.server.rows ==>
                  var family := s.server.rows[refresh].family;
                  && out.client == s.client && out.server.rows.Keys == s.server.rows.Keys
                  && (forall r <- s.server.rows :: s.server.rows[r].family != family ==>
                        out.server.rows[r] == s.server.rows[r])
                  && RevokedForGood(Run(out, after).value, family))
  {
    var s := Run(start, before).value;
    StartIsSafe(start);
    RunsAreSafe(start, before);
    if refresh in s.server.rows {
      var out, family := Apply(s, LogoutServed(refresh)), s.server.rows[refresh].family;
      StepKeepsSafe(s, LogoutServed(refresh));
      LogoutEnds(s, refresh);
      hide *;
      RunsKeepEnded(out, after, family);
      EndedIsForGood(Run(out, after).value, family);
    }
  }

  /** So a client that signs out on the server, holding a token it could refresh, cannot
      refresh it any more. */
  lemma SignedOutCannotRefresh(s: State, family: nat, refuse: bool) returns (end: State)
    requires SignedIn(s, family)
    ensures var refresh, id := s.client.tokens.value.refresh, s.client.next;
            var steps := [LogoutServed(refresh), Refreshing, Presenting(id), Serving(id, refuse), Receiving(id)];
            Run(s, steps) == Some(end) && end.client.tokens == None
  {
    var refresh, id := s.client.tokens.value.refresh, s.client.next;
    var steps := [LogoutServed(refresh), Refreshing, Presenting(id), Serving(id, refuse), Receiving(id)];
    var out := Apply(s, LogoutServed(refresh));
    var started := Apply(out, Refreshing);
    var presented := Apply(started, Presenting(id));
    var served := Apply(presented, Serving(id, refuse));
    end := Apply(served, Receiving(id));
    assert started.client.exchanges[id] == Reading(s.client.tokens);
    assert presented.client.exchanges[id] == OnWire(refresh);
    assert served.client.exchanges[id] == Answered(refresh, None);
    hide Apply, Run, Rotate, Logout;
    RunAt(s, steps, 0);
    RunAt(out, steps, 1);
    RunAt(started, steps, 2);
    RunAt(presented, steps, 3);
    RunAt(served, steps, 4);
    RunAt(end, steps, 5);
  }
}
