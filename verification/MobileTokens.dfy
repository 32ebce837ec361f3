/** Token refresh in the mobile client against a server that rotates refresh
    tokens: the module variables of `frontend/src/api/http.ts` as a class, the
    server's `refresh_tokens` table, and every interleaving of the two. */
module MobileTokens {
  import opened Wrappers

  datatype Tokens = Tokens(access: nat, refresh: nat)

  // ------------------------------------------------------------------- server

  /** One row of `refresh_tokens`. */
  datatype Row = Row(family: nat, used: bool, revoked: bool)

  /** `presented` lists every token that reached the refresh endpoint, in order. */
  datatype Server = Server(rows: map<nat, Row>, next: nat, presented: seq<nat>, reuseDetected: bool)

  function Issue(sv: Server, family: nat): (Server, Tokens) {
    (sv.(rows := sv.rows[sv.next := Row(family, false, false)], next := sv.next + 1),
     Tokens(sv.next, sv.next))
  }

  function RevokeFamily(sv: Server, family: nat): Server {
    sv.(rows := map r | r in sv.rows ::
          if sv.rows[r].family == family then sv.rows[r].(revoked := true) else sv.rows[r])
  }

  /** `refresh_tokens`. `refuse` stands for the checks on time and account state
      (expired, unknown user, suspended, session revoked). */
  function Rotate(sv: Server, refresh: nat, refuse: bool): (Server, Option<Tokens>) {
    var seen := sv.(presented := sv.presented + [refresh]);
    if refresh !in seen.rows then (seen, None)
    else
      var row := seen.rows[refresh];
      if row.used then (RevokeFamily(seen, row.family).(reuseDetected := true), None)
      else if row.revoked || refuse then (seen, None)
      else
        var (issued, pair) := Issue(seen, row.family);
        (issued.(rows := issued.rows[refresh := row.(used := true)]), Some(pair))
  }

  /** `logout`: revoke the presented token's family, silently when it is unknown. */
  function Logout(sv: Server, refresh: nat): Server {
    if refresh in sv.rows then RevokeFamily(sv, sv.rows[refresh].family) else sv
  }

  // ------------------------------------------------------------------- client

  /** How far one run of the refresh closure has got: awaiting `loadTokens`,
      awaiting `send`, holding the answer, and settled with `finally` pending. */
  datatype Exchange =
    | Reading(captured: Option<Tokens>)
    | OnWire(refresh: nat)
    | Answered(refresh: nat, reply: Option<Tokens>)
    | Settled

  /** The module variables, and the closures that have not finished. */
  datatype Client = Client(tokens: Option<Tokens>, refreshing: Option<nat>, exchanges: map<nat, Exchange>, next: nat)

  /** `refreshTokens`: start an exchange unless one is shared already. */
  function Refresh(c: Client): Client {
    if c.refreshing.Some? then c
    else c.(refreshing := Some(c.next), exchanges := c.exchanges[c.next := Reading(c.tokens)], next := c.next + 1)
  }

  function Advance(c: Client, id: nat, e: Exchange): Client {
    c.(exchanges := c.exchanges[id := e])
  }

  function Present(c: Client, id: nat): Client
    requires id in c.exchanges && c.exchanges[id].Reading?
  {
    match c.exchanges[id].captured
    case None => Advance(c, id, Settled)
    case Some(t) => Advance(c, id, OnWire(t.refresh))
  }

  /** A pair replaces the tokens; a rejection clears them. */
  function Receive(c: Client, id: nat): Client
    requires id in c.exchanges && c.exchanges[id].Answered?
  {
    Advance(c, id, Settled).(tokens := c.exchanges[id].reply)
  }

  function Save(c: Client, pair: Tokens): Client {
    c.(tokens := Some(pair))
  }

  function Clear(c: Client): Client {
    c.(tokens := None)
  }

  /** The `finally` handler. */
  function Finish(c: Client, id: nat): Client {
    c.(refreshing := None, exchanges := c.exchanges - {id})
  }

  /** The variables in place. */
  class MobileClient {
    var tokens: Option<Tokens>
    var refreshing: Option<nat>
    var exchanges: map<nat, Exchange>
    var next: nat

    ghost function View(): Client
      reads this
    {
      Client(tokens, refreshing, exchanges, next)
    }

    constructor (restored: Option<Tokens>)
      ensures View() == Client(restored, None, map[], 0)
    {
      tokens, refreshing, exchanges, next := restored, None, map[], 0;
    }

    /** Every caller gets the promise of the one shared exchange. */
    method RefreshTokens() returns (promise: nat)
      modifies this
      ensures View() == Refresh(old(View()))
      ensures refreshing == Some(promise)
      ensures old(refreshing).Some? ==> promise == old(refreshing).value && exchanges == old(exchanges)
    {
      if refreshing == None {
        exchanges := exchanges[next := Reading(tokens)];
        refreshing := Some(next);
        next := next + 1;
      }
      promise := refreshing.value;
    }

    method SendCaptured(id: nat)
      requires id in exchanges && exchanges[id].Reading?
      modifies this
      ensures View() == Present(old(View()), id)
    {
      var captured := exchanges[id].captured;
      exchanges := exchanges[id := if captured.None? then Settled else OnWire(captured.value.refresh)];
    }

    method SendThrew(id: nat)
      requires id in exchanges && exchanges[id].OnWire?
      modifies this
      ensures View() == Advance(old(View()), id, Settled)
    {
      exchanges := exchanges[id := Settled];
    }

    method SaveOrClear(id: nat)
      requires id in exchanges && exchanges[id].Answered?
      modifies this
      ensures View() == Receive(old(View()), id)
    {
      tokens := exchanges[id].reply;
      exchanges := exchanges[id := Settled];
    }

    method Finally(id: nat)
      modifies this
      ensures View() == Finish(old(View()), id)
    {
      refreshing := None;
      exchanges := exchanges - {id};
    }

    /** `establish`: a login's pair replaces whatever is held. */
    method SaveTokens(pair: Tokens)
      modifies this
      ensures View() == Save(old(View()), pair)
    {
      tokens := Some(pair);
    }

    /** Sign-out, password reset, and a login whose account is refused. */
    method ClearTokens()
      modifies this
      ensures View() == Clear(old(View()))
    {
      tokens := None;
    }
  }

  // --------------------------------------------------------- all interleavings

  /** `logins` are the pairs issued to a login whose response is on its way. */
  datatype State = State(client: Client, server: Server, logins: set<Tokens>)

  /** `Refreshing` may come from any request, at any time: a 401 is the server's
      choice, so nothing restricts when or how often it is taken. */
  datatype Step =
    | Refreshing
    | Presenting(id: nat)
    | SendThrows(id: nat)
    | Serving(id: nat, refuse: bool)
    | LosingReply(id: nat)
    | Receiving(id: nat)
    | Finishing(id: nat)
    | LoginServed
    | LoginReceived(pair: Tokens)
    | LogoutServed(refresh: nat)
    | Clearing

  predicate At(s: State, id: nat, stage: Exchange -> bool) {
    id in s.client.exchanges && stage(s.client.exchanges[id])
  }

  predicate Enabled(s: State, step: Step) {
    match step
    case Presenting(id) => At(s, id, (e: Exchange) => e.Reading?)
    case SendThrows(id) => At(s, id, (e: Exchange) => e.OnWire?)
    case Serving(id, _) => At(s, id, (e: Exchange) => e.OnWire?)
    case LosingReply(id) => At(s, id, (e: Exchange) => e.Answered?)
    case Receiving(id) => At(s, id, (e: Exchange) => e.Answered?)
    case Finishing(id) => At(s, id, (e: Exchange) => e.Settled?)
    case LoginReceived(pair) => pair in s.logins
    case _ => true
  }

  function Apply(s: State, step: Step): State
    requires Enabled(s, step)
  {
    match step
    case Refreshing => s.(client := Refresh(s.client))
    case Presenting(id) => s.(client := Present(s.client, id))
    case SendThrows(id) => s.(client := Advance(s.client, id, Settled))
    case Serving(id, refuse) =>
      var refresh := s.client.exchanges[id].refresh;
      var (server, reply) := Rotate(s.server, refresh, refuse);
      s.(server := server, client := Advance(s.client, id, Answered(refresh, reply)))
    case LosingReply(id) => s.(client := Advance(s.client, id, Settled))
    case Receiving(id) => s.(client := Receive(s.client, id))
    case Finishing(id) => s.(client := Finish(s.client, id))
    case LoginServed =>
      var (server, pair) := Issue(s.server, s.server.next);
      s.(server := server, logins := s.logins + {pair})
    case LoginReceived(pair) =>
      s.(client := Save(s.client, pair), logins := s.logins - {pair})
    case LogoutServed(refresh) => s.(server := Logout(s.server, refresh))
    case Clearing => s.(client := Clear(s.client))
  }

  function Run(start: State, steps: seq<Step>): Option<State>
    decreases |steps|
  {
    if steps == [] then Some(start)
    else if Enabled(start, steps[0]) then Run(Apply(start, steps[0]), steps[1..])
    else None
  }

  lemma RunAt(s: State, steps: seq<Step>, k: nat)
    requires k <= |steps|
    ensures Run(s, steps[k..]) ==
      if k == |steps| then Some(s)
      else if Enabled(s, steps[k]) then Run(Apply(s, steps[k]), steps[k + 1..])
      else None
  {
  }

  /** Issued, and never presented. */
  predicate Fresh(sv: Server, refresh: nat) {
    refresh < sv.next && refresh !in sv.presented
  }

  /** Just after the first storage read: nothing in flight, and the stored
      refresh token, if there is one, has never been presented. */
  predicate Start(s: State) {
    && s.client.refreshing == None && s.client.exchanges == map[]
    && s.logins == {} && !s.server.reuseDetected
    && NoDuplicates(s.server.presented) && (forall r <- s.server.presented :: r < s.server.next)
    && (forall r <- s.server.rows :: r < s.server.next && (s.server.rows[r].used ==> r in s.server.presented))
    && (forall r <- s.server.rows :: s.server.rows[r].family < s.server.next)
    && (s.client.tokens.Some? ==> Fresh(s.server, s.client.tokens.value.refresh))
  }

  // ------------------------------------------------------------- replies that matter

  /** The server has answered for the token the client still holds, and its reply is
      about to reach the client. */
  predicate Spending(s: State, id: nat) {
    && id in s.client.exchanges && s.client.exchanges[id].Answered?
    && s.client.tokens.Some? && s.client.tokens.value.refresh == s.client.exchanges[id].refresh
  }

  /** And the answer is its successor. */
  predicate Rotated(s: State, id: nat) {
    Spending(s, id) && s.client.exchanges[id].reply.Some?
  }

  /** No reply is lost while the client holds the token it answers. */
  predicate KeepsAnswers(s: State, steps: seq<Step>)
    decreases |steps|
  {
    steps != [] && Enabled(s, steps[0]) ==>
      && (steps[0].LosingReply? ==> !Spending(s, steps[0].id))
      && KeepsAnswers(Apply(s, steps[0]), steps[1..])
  }

  /** No successor is lost while the client holds the token it replaces. */
  predicate KeepsSuccessors(s: State, steps: seq<Step>)
    decreases |steps|
  {
    steps != [] && Enabled(s, steps[0]) ==>
      && (steps[0].LosingReply? ==> !Rotated(s, steps[0].id))
      && KeepsSuccessors(Apply(s, steps[0]), steps[1..])
  }

  lemma {:induction false} AnswersIncludeSuccessors(s: State, steps: seq<Step>)
    requires KeepsAnswers(s, steps)
    ensures KeepsSuccessors(s, steps)
    decreases |steps|
  {
    if steps != [] && Enabled(s, steps[0]) {
      AnswersIncludeSuccessors(Apply(s, steps[0]), steps[1..]);
    }
  }

  // ---------------------------------------------------------------- invariants

  /** The live closures are exactly the one the shared promise stands for. */
  predicate OneExchange(c: Client) {
    && c.exchanges.Keys == (if c.refreshing.Some? then {c.refreshing.value} else {})
    && forall id <- c.exchanges :: id < c.next
  }

  /** Every token in the client or on its way there was issued. */
  predicate Issued(s: State) {
    && (s.client.tokens.Some? ==> s.client.tokens.value.refresh < s.server.next)
    && (forall p <- s.logins :: p.refresh < s.server.next)
    && forall id <- s.client.exchanges :: match s.client.exchanges[id]
         case Reading(captured) => captured.Some? ==> captured.value.refresh < s.server.next
         case OnWire(refresh) => refresh < s.server.next
         case Answered(_, reply) => reply.Some? ==> reply.value.refresh < s.server.next
         case Settled => true
  }

  predicate Used(sv: Server, refresh: nat) {
    refresh in sv.rows && sv.rows[refresh].used
  }

  predicate Holds(c: Client, refresh: nat) {
    c.tokens.Some? && c.tokens.value.refresh == refresh
  }

  /** The token the exchange has still to present. */
  predicate Carries(c: Client, refresh: nat) {
    c.refreshing.Some? && c.refreshing.value in c.exchanges &&
      match c.exchanges[c.refreshing.value]
      case Reading(captured) => captured.Some? && captured.value.refresh == refresh
      case OnWire(r) => r == refresh
      case _ => false
  }

  /** The token in the pair the exchange has been answered with. */
  predicate Brings(c: Client, refresh: nat) {
    c.refreshing.Some? && c.refreshing.value in c.exchanges &&
      var e := c.exchanges[c.refreshing.value];
      e.Answered? && e.reply.Some? && e.reply.value.refresh == refresh
  }

  predicate SameFamily(sv: Server, a: nat, b: nat) {
    a in sv.rows && b in sv.rows && sv.rows[a].family == sv.rows[b].family
  }

  /** An answered token has been presented; a pair on its way to the client is fresh,
      of the family of the token it replaces, and nowhere in the client yet. */
  predicate AnswerOk(s: State) {
    s.client.refreshing.Some? && s.client.refreshing.value in s.client.exchanges ==>
      var e := s.client.exchanges[s.client.refreshing.value];
      e.Answered? ==>
        && e.refresh in s.server.presented
        && (e.reply.Some? ==>
              && Fresh(s.server, e.reply.value.refresh) && !Holds(s.client, e.reply.value.refresh)
              && Used(s.server, e.refresh) && SameFamily(s.server, e.refresh, e.reply.value.refresh))
  }

  predicate LoginOk(s: State, p: Tokens) {
    && Fresh(s.server, p.refresh)
    && !Holds(s.client, p.refresh) && !Carries(s.client, p.refresh) && !Brings(s.client, p.refresh)
  }

  predicate LedgerOk(sv: Server) {
    && (forall r <- sv.presented :: r < sv.next)
    && (forall r <- sv.rows :: r < sv.next && (sv.rows[r].used ==> r in sv.presented))
    && (forall r <- sv.rows :: sv.rows[r].family < sv.next)
  }

  /** What holds whatever is lost. */
  predicate Orderly(s: State) {
    && LedgerOk(s.server) && AnswerOk(s)
    && (forall p <- s.logins :: LoginOk(s, p))
    && (forall p <- s.logins, q <- s.logins :: p.refresh == q.refresh ==> p == q)
  }

  predicate Safe(s: State) {
    OneExchange(s.client) && Issued(s) && Orderly(s)
  }

  predicate AnswerComing(s: State) {
    s.client.refreshing.Some? && Spending(s, s.client.refreshing.value)
  }

  /** The client can present again no token it has presented: none it is about to
      present has been, nor the one it holds unless its answer is on the way. */
  predicate Once(s: State) {
    && NoDuplicates(s.server.presented)
    && forall r <- s.server.presented :: !Carries(s.client, r) && (Holds(s.client, r) ==> AnswerComing(s))
  }

  predicate SuccessorComing(s: State) {
    s.client.refreshing.Some? && Rotated(s, s.client.refreshing.value)
  }

  /** The same for the tokens the server has rotated: reuse detection has not fired,
      no such token is about to be presented, nor is the one held such a token unless
      its successor is on the way. */
  ghost predicate Clean(s: State) {
    && !s.server.reuseDetected
    && forall r :: Used(s.server, r) ==> !Carries(s.client, r) && (Holds(s.client, r) ==> SuccessorComing(s))
  }

  lemma StepKeepsIssued(s: State, step: Step)
    requires OneExchange(s.client) && Issued(s) && Enabled(s, step)
    ensures Issued(Apply(s, step))
  {
  }

  lemma StepKeepsOneExchange(s: State, step: Step)
    requires OneExchange(s.client) && Enabled(s, step)
    ensures OneExchange(Apply(s, step).client)
  {
  }

  lemma ClientStepKeepsOrderly(s: State, step: Step)
    requires Safe(s) && Enabled(s, step)
    requires !step.Serving? && !step.LoginServed? && !step.LogoutServed?
    ensures Orderly(Apply(s, step))
  {
    var t := Apply(s, step);
    forall p <- t.logins ensures LoginOk(t, p) {
      assert LoginOk(s, p);
    }
    assert AnswerOk(t) by {
      if step.LoginReceived? {
        assert LoginOk(s, step.pair);
      }
    }
  }

  lemma ServingKeepsOrderly(s: State, id: nat, refuse: bool)
    requires Safe(s) && Enabled(s, Serving(id, refuse))
    ensures Orderly(Apply(s, Serving(id, refuse)))
  {
    var t, refresh := Apply(s, Serving(id, refuse)), s.client.exchanges[id].refresh;
    assert Carries(s.client, refresh);
    assert t.server.presented == s.server.presented + [refresh];
    forall p <- t.logins ensures LoginOk(t, p) {
      assert LoginOk(s, p);
    }
  }

  lemma LoginServedKeepsOrderly(s: State)
    requires Safe(s)
    ensures Orderly(Apply(s, LoginServed))
  {
  }

  lemma LogoutServedKeepsOrderly(s: State, refresh: nat)
    requires Safe(s)
    ensures Orderly(Apply(s, LogoutServed(refresh)))
  {
  }

  lemma StepKeepsSafe(s: State, step: Step)
    requires Safe(s) && Enabled(s, step)
    ensures Safe(Apply(s, step))
  {
    StepKeepsOneExchange(s, step);
    StepKeepsIssued(s, step);
    match step
    case Serving(id, refuse) => ServingKeepsOrderly(s, id, refuse);
    case LoginServed => LoginServedKeepsOrderly(s);
    case LogoutServed(refresh) => LogoutServedKeepsOrderly(s, refresh);
    case _ => ClientStepKeepsOrderly(s, step);
  }

  lemma {:induction false} RunsAreSafe(s: State, steps: seq<Step>)
    requires Safe(s) && Run(s, steps).Some?
    ensures Safe(Run(s, steps).value)
    decreases |steps|
  {
    if steps != [] {
      StepKeepsSafe(s, steps[0]);
      RunsAreSafe(Apply(s, steps[0]), steps[1..]);
    }
  }

  // ------------------------------------------------------------------ presented once

  lemma ServingKeepsOnce(s: State, id: nat, refuse: bool)
    requires Safe(s) && Once(s) && Enabled(s, Serving(id, refuse))
    ensures Once(Apply(s, Serving(id, refuse)))
  {
    var t, refresh := Apply(s, Serving(id, refuse)), s.client.exchanges[id].refresh;
    assert t.server.presented == s.server.presented + [refresh];
    assert Carries(s.client, refresh) && refresh !in s.server.presented;
    if Holds(t.client, refresh) {
      assert Spending(t, id);
    }
  }

  lemma ClientStepKeepsOnce(s: State, step: Step)
    requires OneExchange(s.client) && Once(s) && Enabled(s, step)
    requires !step.Serving? && !step.LoginServed? && !step.LogoutServed?
    requires step.LoginReceived? ==> step.pair.refresh !in s.server.presented
    requires AnswerOk(s)
    requires step.LosingReply? ==> !Spending(s, step.id)
    ensures Once(Apply(s, step))
  {
    var t := Apply(s, step);
    forall r <- t.server.presented ensures !Carries(t.client, r) && (Holds(t.client, r) ==> AnswerComing(t)) {
    }
  }

  lemma StepKeepsOnce(s: State, step: Step)
    requires Safe(s) && Once(s) && Enabled(s, step)
    requires step.LosingReply? ==> !Spending(s, step.id)
    ensures Once(Apply(s, step))
  {
    match step
    case Serving(id, refuse) => ServingKeepsOnce(s, id, refuse);
    case LoginServed =>
    case LogoutServed(_) =>
    case _ => ClientStepKeepsOnce(s, step);
  }

  lemma {:induction false} RunsKeepOnce(s: State, steps: seq<Step>)
    requires Safe(s) && Once(s) && Run(s, steps).Some? && KeepsAnswers(s, steps)
    ensures Once(Run(s, steps).value)
    decreases |steps|
  {
    if steps != [] {
      StepKeepsSafe(s, steps[0]);
      StepKeepsOnce(s, steps[0]);
      hide Safe, Once, Apply, Enabled;
      RunsKeepOnce(Apply(s, steps[0]), steps[1..]);
    }
  }

  // ------------------------------------------------------------------ no reuse found

  lemma ServingKeepsClean(s: State, id: nat, refuse: bool)
    requires Safe(s) && Clean(s) && Enabled(s, Serving(id, refuse))
    ensures Clean(Apply(s, Serving(id, refuse)))
  {
    var t, refresh := Apply(s, Serving(id, refuse)), s.client.exchanges[id].refresh;
    assert Carries(s.client, refresh) && !Used(s.server, refresh);
    forall r | Used(t.server, r) ensures !Carries(t.client, r) && (Holds(t.client, r) ==> SuccessorComing(t)) {
      if r == refresh {
        assert Holds(t.client, r) ==> Rotated(t, id);
      } else {
        assert Used(s.server, r);
      }
    }
  }

  lemma ClientStepKeepsClean(s: State, step: Step)
    requires OneExchange(s.client) && Clean(s) && Enabled(s, step)
    requires !step.Serving? && !step.LoginServed? && !step.LogoutServed?
    requires step.LoginReceived? ==> !Used(s.server, step.pair.refresh)
    requires LedgerOk(s.server) && AnswerOk(s)
    requires step.LosingReply? ==> !Rotated(s, step.id)
    ensures Clean(Apply(s, step))
  {
    var t := Apply(s, step);
    forall r | Used(t.server, r) ensures !Carries(t.client, r) && (Holds(t.client, r) ==> SuccessorComing(t)) {
      assert Used(s.server, r);
    }
  }

  lemma StepKeepsClean(s: State, step: Step)
    requires Safe(s) && Clean(s) && Enabled(s, step)
    requires step.LosingReply? ==> !Rotated(s, step.id)
    ensures Clean(Apply(s, step))
  {
    match step
    case Serving(id, refuse) => ServingKeepsClean(s, id, refuse);
    case LoginServed => assert forall r :: Used(Apply(s, step).server, r) ==> Used(s.server, r);
    case LogoutServed(_) => assert forall r :: Used(Apply(s, step).server, r) ==> Used(s.server, r);
    case _ => ClientStepKeepsClean(s, step);
  }

  lemma {:induction false} RunsKeepClean(s: State, steps: seq<Step>)
    requires Safe(s) && Clean(s) && Run(s, steps).Some? && KeepsSuccessors(s, steps)
    ensures Clean(Run(s, steps).value)
    decreases |steps|
  {
    if steps != [] {
      StepKeepsSafe(s, steps[0]);
      StepKeepsClean(s, steps[0]);
      hide Safe, Clean, Apply, Enabled;
      RunsKeepClean(Apply(s, steps[0]), steps[1..]);
    }
  }

  lemma StartIsSafe(start: State)
    requires Start(start)
    ensures Safe(start) && Once(start) && Clean(start)
  {
  }

  /** In every interleaving there is at most one exchange. Unless a reply is lost
      while the client holds the token it answers, no refresh token reaches the
      refresh endpoint twice; and unless a successor is lost while the client holds
      the token it replaces, reuse detection never fires. */
  lemma TokensArePresentedOnce(start: State, steps: seq<Step>)
    requires Start(start)
    requires Run(start, steps).Some?
    ensures var s := Run(start, steps).value;
            && |s.client.exchanges| <= 1
            && (s.client.exchanges == map[] <==> s.client.refreshing == None)
            && (KeepsAnswers(start, steps) ==> NoDuplicates(s.server.presented) && !s.server.reuseDetected)
            && (KeepsSuccessors(start, steps) ==> !s.server.reuseDetected)
  {
    StartIsSafe(start);
    RunsAreSafe(start, steps);
    var c := Run(start, steps).value.client;
    assert |c.exchanges| == |c.exchanges.Keys|;
    hide Safe, Run, Orderly;
    if KeepsAnswers(start, steps) {
      AnswersIncludeSuccessors(start, steps);
      RunsKeepOnce(start, steps);
    }
    if KeepsSuccessors(start, steps) {
      RunsKeepClean(start, steps);
    }
  }

  // ------------------------------------------------------------- one reply lost

  /** A token the server would still rotate. */
  predicate Rotatable(sv: Server, refresh: nat) {
    refresh in sv.rows && !sv.rows[refresh].used && !sv.rows[refresh].revoked
  }

  /** The client once it has lost the reply, ended the exchange and begun another. */
  function ForgetAndPresent(s: State, id: nat): State
    requires Rotated(s, id)
  {
    var again := s.client.next;
    s.(client := s.client.(
         refreshing := Some(again), next := again + 1,
         exchanges := map[again := OnWire(s.client.tokens.value.refresh)]))
  }

  lemma PresentAgain(s: State, id: nat, t: State, refuse: bool)
    requires OneExchange(s.client) && Rotated(s, id) && t == ForgetAndPresent(s, id)
    ensures var again := s.client.next;
            && Enabled(t, Serving(again, refuse))
            && Run(s, [LosingReply(id), Finishing(id), Refreshing, Presenting(again), Serving(again, refuse)])
                 == Some(Apply(t, Serving(again, refuse)))
  {
    var again := s.client.next;
    var steps := [LosingReply(id), Finishing(id), Refreshing, Presenting(again), Serving(again, refuse)];
    assert s.client.exchanges.Keys == {id};
    var lost := Apply(s, LosingReply(id));
    var finished := Apply(lost, Finishing(id));
    assert finished.client.exchanges == map[];
    var refreshing := Apply(finished, Refreshing);
    assert refreshing.client.exchanges == map[again := Reading(s.client.tokens)];
    assert Apply(refreshing, Presenting(again)) == t;
    hide Apply, Run;
    RunAt(s, steps, 0);
    RunAt(lost, steps, 1);
    RunAt(finished, steps, 2);
    RunAt(refreshing, steps, 3);
    RunAt(t, steps, 4);
    RunAt(Apply(t, Serving(again, refuse)), steps, 5);
    assert steps[0..] == steps;
  }

  /** A used token presented again revokes its family. */
  lemma SpentTokenIsReuse(sv: Server, refresh: nat, refuse: bool)
    requires refresh in sv.rows && sv.rows[refresh].used
    ensures var (after, reply) := Rotate(sv, refresh, refuse);
            && reply == None && after.reuseDetected && after.presented == sv.presented + [refresh]
            && forall r <- after.rows :: after.rows[r].family == sv.rows[refresh].family ==> after.rows[r].revoked
  {
  }

  /** The condition is needed: from every such state, losing the reply makes the
      next refresh present the token again, and the whole family is revoked, the pair
      that was lost included. */
  lemma LostReplyRevokesTheFamily(s: State, id: nat, refuse: bool)
    requires Safe(s) && Rotated(s, id)
    ensures var refresh, again := s.client.tokens.value.refresh, s.client.next;
            var end := Run(s, [LosingReply(id), Finishing(id), Refreshing, Presenting(again), Serving(again, refuse)]);
            && end.Some? && end.value.server.reuseDetected
            && refresh in s.server.presented && end.value.server.presented == s.server.presented + [refresh]
            && refresh in s.server.rows
            && (forall r <- end.value.server.rows ::
                 end.value.server.rows[r].family == s.server.rows[refresh].family ==> end.value.server.rows[r].revoked)
            && var lost := s.client.exchanges[id].reply.value.refresh;
               lost in end.value.server.rows && end.value.server.rows[lost].revoked
  {
    var refresh, again := s.client.tokens.value.refresh, s.client.next;
    var t := ForgetAndPresent(s, id);
    PresentAgain(s, id, t, refuse);
    SpentTokenIsReuse(s.server, refresh, refuse);
  }

  /** Every idle client with a token the server would rotate can come to that state. */
  lemma RefreshCanReachTheReply(s: State)
    requires s.client.exchanges == map[] && s.client.refreshing == None
    requires s.client.tokens.Some? && Rotatable(s.server, s.client.tokens.value.refresh)
    ensures var id := s.client.next;
            var end := Run(s, [Refreshing, Presenting(id), Serving(id, false)]);
            end.Some? && Rotated(end.value, id)
  {
    var id := s.client.next;
    var steps := [Refreshing, Presenting(id), Serving(id, false)];
    var refreshing := Apply(s, Refreshing);
    var presenting := Apply(refreshing, Presenting(id));
    assert presenting.client.exchanges[id] == OnWire(s.client.tokens.value.refresh);
    RunAt(s, steps, 0);
    RunAt(refreshing, steps, 1);
    RunAt(presenting, steps, 2);
    RunAt(Apply(presenting, Serving(id, false)), steps, 3);
  }

  // ------------------------------------------------------- what sign-out leaves

  /** The exchange can still bring a pair home. */
  predicate Hopeful(sv: Server, e: Exchange) {
    match e
    case Reading(captured) => captured.Some? && Rotatable(sv, captured.value.refresh)
    case OnWire(refresh) => Rotatable(sv, refresh)
    case Answered(_, reply) => reply.Some?
    case Settled => false
  }

  /** No exchange can. */
  predicate Hopeless(s: State) {
    forall id <- s.client.exchanges :: !Hopeful(s.server, s.client.exchanges[id])
  }

  lemma StepKeepsHopeless(s: State, step: Step)
    requires s.client.tokens == None && OneExchange(s.client) && Issued(s) && Hopeless(s)
    requires Enabled(s, step) && !step.LoginReceived?
    ensures var t := Apply(s, step); t.client.tokens == None && OneExchange(t.client) && Issued(t) && Hopeless(t)
  {
    StepKeepsOneExchange(s, step);
    StepKeepsIssued(s, step);
  }

  predicate LoginFree(steps: seq<Step>) {
    forall k :: 0 <= k < |steps| ==> !steps[k].LoginReceived?
  }

  /** Signed out with no exchange that can bring a pair home, the client holds no
      tokens until a login answers. */
  lemma {:induction false} SignOutIsFinalWhenHopeless(s: State, steps: seq<Step>)
    requires s.client.tokens == None && OneExchange(s.client) && Issued(s) && Hopeless(s)
    requires Run(s, steps).Some? && LoginFree(steps)
    ensures Run(s, steps).value.client.tokens == None
    decreases |steps|
  {
    if steps != [] {
      StepKeepsHopeless(s, steps[0]);
      hide Hopeless, OneExchange, Issued, Apply, Enabled;
      SignOutIsFinalWhenHopeless(Apply(s, steps[0]), steps[1..]);
    }
  }

  lemma ServedAndReceived(s: State, id: nat) returns (steps: seq<Step>)
    requires id in s.client.exchanges && s.client.exchanges[id].OnWire?
    requires Rotatable(s.server, s.client.exchanges[id].refresh)
    ensures LoginFree(steps) && Run(s, steps).Some? && Run(s, steps).value.client.tokens.Some?
  {
    steps := [Serving(id, false), Receiving(id)];
    var served := Apply(s, Serving(id, false));
    assert served.client.exchanges[id].Answered? && served.client.exchanges[id].reply.Some?;
    RunAt(s, steps, 0);
    RunAt(served, steps, 1);
    RunAt(Apply(served, Receiving(id)), steps, 2);
  }

  /** The exchange `id` of a client that has signed out brings its pair home. */
  lemma HopefulExchangeInstalls(s: State, id: nat) returns (steps: seq<Step>)
    requires id in s.client.exchanges && Hopeful(s.server, s.client.exchanges[id])
    ensures LoginFree(steps) && Run(s, steps).Some? && Run(s, steps).value.client.tokens.Some?
  {
    match s.client.exchanges[id]
    case Answered(_, _) =>
      steps := [Receiving(id)];
      RunAt(s, steps, 0);
      RunAt(Apply(s, Receiving(id)), steps, 1);
    case OnWire(_) =>
      steps := ServedAndReceived(s, id);
    case Reading(_) =>
      var sent := Apply(s, Presenting(id));
      var later := ServedAndReceived(sent, id);
      steps := [Presenting(id)] + later;
      assert steps[1..] == later;
  }

  ghost predicate SignOutCanBeUndone(s: State) {
    exists steps :: LoginFree(steps) && Run(s, steps).Some? && Run(s, steps).value.client.tokens.Some?
  }

  /** After a sign-out in any run, lost replies included, the client can come to hold
      tokens again without a login if and only if some exchange has a pair for it, or
      holds a token whose row exists and is neither used nor revoked. */
  lemma SignOutIsUndoneExactlyByHopefulExchanges(start: State, before: seq<Step>)
    requires Start(start) && Run(start, before).Some?
    ensures var s := Run(start, before).value;
            SignOutCanBeUndone(Apply(s, Clearing)) <==>
              exists id <- s.client.exchanges :: Hopeful(s.server, s.client.exchanges[id])
  {
    StartIsSafe(start);
    RunsAreSafe(start, before);
    var s := Apply(Run(start, before).value, Clearing);
    if Hopeless(s) {
      forall steps | LoginFree(steps) && Run(s, steps).Some? ensures Run(s, steps).value.client.tokens == None {
        SignOutIsFinalWhenHopeless(s, steps);
      }
    } else {
      var id :| id in s.client.exchanges && Hopeful(s.server, s.client.exchanges[id]);
      var steps := HopefulExchangeInstalls(s, id);
    }
  }

  /** No exchange carries a token at all. */
  predicate Quiet(c: Client) {
    forall id <- c.exchanges :: match c.exchanges[id]
      case Reading(captured) => captured == None
      case OnWire(_) => false
      case Answered(_, reply) => reply == None
      case Settled => true
  }

  /** Signed out with nothing in flight, the client stays signed out until a login. */
  lemma {:induction false} SignOutIsFinalWhenQuiet(s: State, steps: seq<Step>)
    requires s.client.tokens == None && Quiet(s.client)
    requires Run(s, steps).Some?
    requires forall step <- steps :: !step.LoginReceived?
    ensures Run(s, steps).value.client.tokens == None && Quiet(Run(s, steps).value.client)
    decreases |steps|
  {
    if steps != [] {
      assert steps[0] in steps && forall step <- steps[1..] :: step in steps;
      SignOutIsFinalWhenQuiet(Apply(s, steps[0]), steps[1..]);
    }
  }

  /** The shortest way back: the pair of an answered exchange is put in place after
      the tokens were cleared. */
  lemma SignOutDuringRefreshIsUndone(s: State, id: nat)
    requires Enabled(s, Receiving(id)) && s.client.exchanges[id].reply.Some?
    ensures Run(s, [Clearing, Receiving(id)]).Some?
    ensures Run(s, [Clearing, Receiving(id)]).value.client.tokens == s.client.exchanges[id].reply
  {
    var steps := [Clearing, Receiving(id)];
    RunAt(s, steps, 0);
    RunAt(Apply(s, Clearing), steps, 1);
  }
}
