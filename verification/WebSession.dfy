/** Session state in the web client: the module variables of `web/lib/api/http.ts`
    as a class, and every interleaving of requests, refreshes, logins and logouts.
    Aborting a fetch is not relied on: an aborted fetch may still resolve here. */
module WebSession {
  import opened Wrappers

  /** What `/api/auth/refresh` can answer. */
  datatype Reply = NoContent | ServerError | Rejected | Success

  /** One run of the refresh closure: awaiting `fetch`, awaiting `res.json()`,
      settled with `finally` pending. `started` is the epoch it closed over. */
  datatype Stage = Fetching | ReadingBody | Settled
  datatype Exchange = Exchange(started: nat, stage: Stage)

  /** A token put in place by exchange `id`, with the epoch at that moment. */
  datatype Install = Install(id: nat, started: nat, epoch: nat, token: nat)

  datatype Client = Client(
    token: Option<nat>,
    epoch: nat,
    refreshing: Option<nat>,
    exchanges: map<nat, Exchange>,
    next: nat,
    unauthorizedEpoch: int,
    fired: seq<nat>,
    installs: seq<Install>)

  function Refresh(c: Client): Client {
    if c.refreshing.Some? then c
    else c.(refreshing := Some(c.next),
            exchanges := c.exchanges[c.next := Exchange(c.epoch, Fetching)],
            next := c.next + 1)
  }

  function Move(c: Client, id: nat, stage: Stage): Client
    requires id in c.exchanges
  {
    c.(exchanges := c.exchanges[id := c.exchanges[id].(stage := stage)])
  }

  /** The statements between the two awaits of the closure. */
  function FetchResolved(c: Client, id: nat, reply: Reply): Client
    requires id in c.exchanges
  {
    if c.exchanges[id].started != c.epoch then Move(c, id, Settled)
    else match reply
      case NoContent => Move(c, id, Settled).(token := None)
      case ServerError => Move(c, id, Settled)
      case Rejected => Move(c, id, Settled).(token := None)
      case Success => Move(c, id, ReadingBody)
  }

  /** The statements after the second await. */
  function BodyResolved(c: Client, id: nat, token: nat): Client
    requires id in c.exchanges
  {
    var started := c.exchanges[id].started;
    if started != c.epoch then Move(c, id, Settled)
    else Move(c, id, Settled).(
      token := Some(token), installs := c.installs + [Install(id, started, c.epoch, token)])
  }

  function SetToken(c: Client, token: Option<nat>): Client {
    c.(token := token)
  }

  function Finish(c: Client, id: nat): Client {
    c.(refreshing := None, exchanges := c.exchanges - {id})
  }

  function EmitUnauthorized(c: Client): Client {
    var cleared := c.(token := None);
    if c.unauthorizedEpoch == c.epoch then cleared
    else cleared.(unauthorizedEpoch := c.epoch, fired := c.fired + [c.epoch])
  }

  function BeginLogout(c: Client): Client {
    c.(epoch := c.epoch + 1, token := None)
  }

  /** The variables in place. `fired` and `installs` record what happened. */
  class WebClient {
    var accessToken: Option<nat>
    var authEpoch: nat
    var refreshing: Option<nat>
    var exchanges: map<nat, Exchange>
    var next: nat
    var unauthorizedEpoch: int
    var fired: seq<nat>
    var installs: seq<Install>

    ghost function View(): Client
      reads this
    {
      Client(accessToken, authEpoch, refreshing, exchanges, next, unauthorizedEpoch, fired, installs)
    }

    constructor ()
      ensures View() == Client(None, 0, None, map[], 0, -1, [], [])
    {
      accessToken, authEpoch, refreshing, exchanges, next := None, 0, None, map[], 0;
      unauthorizedEpoch, fired, installs := -1, [], [];
    }

    method SetAccessToken(token: Option<nat>)
      modifies this
      ensures View() == SetToken(old(View()), token)
    {
      accessToken := token;
    }

    method RefreshAccess() returns (promise: nat)
      modifies this
      ensures View() == Refresh(old(View()))
      ensures refreshing == Some(promise)
      ensures old(refreshing).Some? ==> promise == old(refreshing).value && exchanges == old(exchanges)
    {
      if refreshing == None {
        exchanges := exchanges[next := Exchange(authEpoch, Fetching)];
        refreshing := Some(next);
        next := next + 1;
      }
      promise := refreshing.value;
    }

    method OnReply(id: nat, reply: Reply)
      requires id in exchanges
      modifies this
      ensures View() == FetchResolved(old(View()), id, reply)
    {
      var started := exchanges[id].started;
      if started == authEpoch && reply.Success? {
        exchanges := exchanges[id := Exchange(started, ReadingBody)];
        return;
      }
      if started == authEpoch && (reply.NoContent? || reply.Rejected?) {
        accessToken := None;
      }
      exchanges := exchanges[id := Exchange(started, Settled)];
    }

    method OnBody(id: nat, token: nat)
      requires id in exchanges
      modifies this
      ensures View() == BodyResolved(old(View()), id, token)
    {
      var started := exchanges[id].started;
      exchanges := exchanges[id := Exchange(started, Settled)];
      if started == authEpoch {
        accessToken := Some(token);
        installs := installs + [Install(id, started, authEpoch, token)];
      }
    }

    /** `fetch` or `res.json()` rejected: aborted, or the network failed. */
    method OnReject(id: nat)
      requires id in exchanges
      modifies this
      ensures View() == Move(old(View()), id, Settled)
    {
      exchanges := exchanges[id := exchanges[id].(stage := Settled)];
    }

    method Finally(id: nat)
      modifies this
      ensures View() == Finish(old(View()), id)
    {
      refreshing := None;
      exchanges := exchanges - {id};
    }

    method Unauthorized()
      modifies this
      ensures View() == EmitUnauthorized(old(View()))
    {
      accessToken := None;
      if unauthorizedEpoch == authEpoch { return; }
      unauthorizedEpoch := authEpoch;
      fired := fired + [authEpoch];
    }

    method Logout()
      modifies this
      ensures View() == BeginLogout(old(View()))
    {
      authEpoch := authEpoch + 1;
      accessToken := None;
    }
  }

  // --------------------------------------------------------- all interleavings

  /** Requests, waiting callers and logins may take their steps at any time. */
  datatype Step =
    | Refreshing
    | FetchRejects(id: nat)
    | FetchResolves(id: nat, reply: Reply)
    | BodyRejects(id: nat)
    | BodyResolves(id: nat, token: nat)
    | Finishing(id: nat)
    | CallerUnauthorized
    | SettingToken(value: Option<nat>)
    | LoggingOut

  predicate At(c: Client, id: nat, stage: Stage) {
    id in c.exchanges && c.exchanges[id].stage == stage
  }

  predicate Enabled(c: Client, step: Step) {
    match step
    case FetchRejects(id) => At(c, id, Fetching)
    case FetchResolves(id, _) => At(c, id, Fetching)
    case BodyRejects(id) => At(c, id, ReadingBody)
    case BodyResolves(id, _) => At(c, id, ReadingBody)
    case Finishing(id) => At(c, id, Settled)
    case _ => true
  }

  function Apply(c: Client, step: Step): Client
    requires Enabled(c, step)
  {
    match step
    case Refreshing => Refresh(c)
    case FetchRejects(id) => Move(c, id, Settled)
    case FetchResolves(id, reply) => FetchResolved(c, id, reply)
    case BodyRejects(id) => Move(c, id, Settled)
    case BodyResolves(id, token) => BodyResolved(c, id, token)
    case Finishing(id) => Finish(c, id)
    case CallerUnauthorized => EmitUnauthorized(c)
    case SettingToken(value) => SetToken(c, value)
    case LoggingOut => BeginLogout(c)
  }

  function Run(c: Client, steps: seq<Step>): Option<Client>
    decreases |steps|
  {
    if steps == [] then Some(c)
    else if Enabled(c, steps[0]) then Run(Apply(c, steps[0]), steps[1..])
    else None
  }

  const START := Client(None, 0, None, map[], 0, -1, [], [])

  predicate Increasing(xs: seq<nat>) {
    forall i, j :: 0 <= i < j < |xs| ==> xs[i] < xs[j]
  }

  predicate Safe(c: Client) {
    && c.exchanges.Keys == (if c.refreshing.Some? then {c.refreshing.value} else {})
    && (forall id <- c.exchanges :: id < c.next && c.exchanges[id].started <= c.epoch)
    && (forall i <- c.installs :: i.started == i.epoch && i.id < c.next)
    && Increasing(c.fired)
    && (forall k :: 0 <= k < |c.fired| ==> c.fired[k] <= c.unauthorizedEpoch)
    && c.unauthorizedEpoch <= c.epoch
    && (c.unauthorizedEpoch == -1 || c.unauthorizedEpoch in c.fired)
  }

  lemma StepKeepsSafe(c: Client, step: Step)
    requires Safe(c) && Enabled(c, step)
    ensures Safe(Apply(c, step))
  {
  }

  lemma {:induction false} RunsAreSafe(c: Client, steps: seq<Step>)
    requires Safe(c) && Run(c, steps).Some?
    ensures Safe(Run(c, steps).value)
    decreases |steps|
  {
    if steps != [] {
      StepKeepsSafe(c, steps[0]);
      RunsAreSafe(Apply(c, steps[0]), steps[1..]);
    }
  }

  /** In every interleaving: one exchange at most, every token installed by an
      exchange of the epoch it was installed in, and the unauthorized handler
      fired at most once per epoch value. */
  lemma SessionIsSafe(steps: seq<Step>)
    requires Run(START, steps).Some?
    ensures var c := Run(START, steps).value;
            && |c.exchanges| <= 1
            && (forall i <- c.installs :: i.started == i.epoch)
            && NoDuplicates(c.fired)
  {
    RunsAreSafe(START, steps);
    var c := Run(START, steps).value;
    assert |c.exchanges| == |c.exchanges.Keys|;
  }

  // ------------------------------------------------------------ what the token is

  /** What each step leaves as the token: a refresh decides it only in the epoch it
      started in. */
  lemma TokenAfter(c: Client, step: Step)
    requires Enabled(c, step)
    ensures Apply(c, step).token ==
      match step
      case SettingToken(value) => value
      case LoggingOut => None
      case CallerUnauthorized => None
      case FetchResolves(id, reply) =>
        if c.exchanges[id].started == c.epoch && reply in {NoContent, Rejected} then None else c.token
      case BodyResolves(id, token) => if c.exchanges[id].started == c.epoch then Some(token) else c.token
      case _ => c.token
  {
  }

  /** What is recorded as installed is what the client then holds. */
  lemma InstalledIsHeld(c: Client, step: Step)
    requires Enabled(c, step)
    ensures var t := Apply(c, step);
            t.installs != c.installs ==>
              && step.BodyResolves? && t.token == Some(step.token)
              && t.installs == c.installs + [Install(step.id, c.exchanges[step.id].started, c.epoch, step.token)]
  {
  }

  /** An identifier is never given out twice. */
  lemma {:induction false} GoneForGood(c: Client, steps: seq<Step>, id: nat)
    requires Run(c, steps).Some? && id !in c.exchanges && id < c.next
    ensures id !in Run(c, steps).value.exchanges
    ensures var d := Run(c, steps).value; d.epoch >= c.epoch && (d.epoch == c.epoch <==> LoggingOut !in steps)
    decreases |steps|
  {
    if steps != [] {
      assert LoggingOut in steps <==> steps[0] == LoggingOut || LoggingOut in steps[1..];
      GoneForGood(Apply(c, steps[0]), steps[1..], id);
    }
  }

  /** Only a logout starts an epoch, and an exchange keeps the one it started in. */
  lemma {:induction false} EpochsOfRun(c: Client, steps: seq<Step>, id: nat)
    requires Safe(c) && Run(c, steps).Some? && id in c.exchanges
    ensures var d := Run(c, steps).value;
            && d.epoch >= c.epoch && (d.epoch == c.epoch <==> LoggingOut !in steps)
            && (id in d.exchanges ==> d.exchanges[id].started == c.exchanges[id].started)
    decreases |steps|
  {
    if steps != [] {
      var t := Apply(c, steps[0]);
      assert LoggingOut in steps <==> steps[0] == LoggingOut || LoggingOut in steps[1..];
      StepKeepsSafe(c, steps[0]);
      if id in t.exchanges {
        EpochsOfRun(t, steps[1..], id);
      } else {
        GoneForGood(t, steps[1..], id);
      }
    }
  }

  /** After any run a refresh starts; whatever follows, its answers decide the token
      exactly when no logout came between: a body is installed, an empty answer or a
      rejection clears, a server error leaves the token. */
  lemma RefreshDecidesUnlessLoggedOut(before: seq<Step>, after: seq<Step>, token: nat)
    requires Run(START, before).Some? && Run(START, before).value.refreshing == None
    requires Run(Apply(Run(START, before).value, Refreshing), after).Some?
    ensures var c := Run(START, before).value;
            var id, d := c.next, Run(Apply(c, Refreshing), after).value;
            var current := LoggingOut !in after;
            && (At(d, id, ReadingBody) ==>
                  Apply(d, BodyResolves(id, token)).token == if current then Some(token) else d.token)
            && (At(d, id, Fetching) ==>
                  && Apply(d, FetchResolves(id, NoContent)).token == (if current then None else d.token)
                  && Apply(d, FetchResolves(id, Rejected)).token == (if current then None else d.token)
                  && Apply(d, FetchResolves(id, ServerError)).token == d.token
                  && Apply(d, FetchResolves(id, Success)).token == d.token
                  && (At(Apply(d, FetchResolves(id, Success)), id, ReadingBody) <==> current))
  {
    RunsAreSafe(START, before);
    var c := Run(START, before).value;
    StepKeepsSafe(c, Refreshing);
    EpochsOfRun(Apply(c, Refreshing), after, c.next);
  }

  // ------------------------------------------------------------------- logout

  /** What holds ever after a logout that found `next` exchanges started. */
  predicate Barred(c: Client, epoch: nat, next: nat, before: seq<Install>) {
    && c.epoch >= epoch && before <= c.installs
    && (forall id <- c.exchanges :: id < next ==> c.exchanges[id].started < epoch)
    && c.next >= next
    && forall k :: |before| <= k < |c.installs| ==> c.installs[k].id >= next
  }

  lemma {:induction false} StaysBarred(c: Client, steps: seq<Step>, epoch: nat, next: nat, before: seq<Install>)
    requires Barred(c, epoch, next, before) && Run(c, steps).Some?
    ensures Barred(Run(c, steps).value, epoch, next, before)
    decreases |steps|
  {
    if steps != [] {
      StaysBarred(Apply(c, steps[0]), steps[1..], epoch, next, before);
    }
  }

  /** No refresh begun before a logout installs a token after it. */
  lemma LogoutBarsEarlierRefreshes(before: seq<Step>, after: seq<Step>)
    requires Run(START, before).Some?
    requires Run(Apply(Run(START, before).value, LoggingOut), after).Some?
    ensures var c := Run(START, before).value;
            var end := Run(Apply(c, LoggingOut), after).value;
            && c.installs <= end.installs
            && forall i <- end.installs[|c.installs|..] :: i.id >= c.next
  {
    RunsAreSafe(START, before);
    var c := Run(START, before).value;
    StaysBarred(Apply(c, LoggingOut), after, c.epoch + 1, c.next, c.installs);
  }

  /** So a client that is signed out, and neither logs in nor starts another
      refresh, holds no token, whatever is still in flight. */
  lemma {:induction false} SignedOutStaysSignedOut(c: Client, steps: seq<Step>)
    requires c.token == None && forall id <- c.exchanges :: c.exchanges[id].started < c.epoch
    requires Run(c, steps).Some?
    requires forall step <- steps :: step != Refreshing && (step.SettingToken? ==> step.value == None)
    ensures Run(c, steps).value.token == None
    decreases |steps|
  {
    if steps != [] {
      assert steps[0] in steps && forall step <- steps[1..] :: step in steps;
      SignedOutStaysSignedOut(Apply(c, steps[0]), steps[1..]);
    }
  }

  /** A logout signs the client out: after any run and a logout, without a login and a
      new refresh the client holds no token. */
  lemma LogoutSignsOut(before: seq<Step>, after: seq<Step>)
    requires Run(START, before).Some?
    requires Run(Apply(Run(START, before).value, LoggingOut), after).Some?
    requires forall step <- after :: step != Refreshing && (step.SettingToken? ==> step.value == None)
    ensures Run(Apply(Run(START, before).value, LoggingOut), after).value.token == None
  {
    RunsAreSafe(START, before);
    SignedOutStaysSignedOut(Apply(Run(START, before).value, LoggingOut), after);
  }

  // ------------------------------------------------------------ the fire-once rule

  /** After any run the next unauthorized call clears the token, and runs the handler
      exactly when it has not yet run in this epoch. */
  lemma FiresOncePerEpoch(steps: seq<Step>)
    requires Run(START, steps).Some?
    ensures var c := Run(START, steps).value;
            var t := Apply(c, CallerUnauthorized);
            t.token == None && t.fired == if c.epoch in c.fired then c.fired else c.fired + [c.epoch]
  {
    RunsAreSafe(START, steps);
  }

  /** Only a logout re-arms the handler: a login does not start a new epoch, so a
      session opened after the handler fired dies without a second call. */
  lemma {:induction false} FiresOnceUntilLogout(c: Client, steps: seq<Step>)
    requires c.unauthorizedEpoch == c.epoch && Run(c, steps).Some?
    requires LoggingOut !in steps
    ensures Run(c, steps).value.fired == c.fired
    decreases |steps|
  {
    if steps != [] {
      FiresOnceUntilLogout(Apply(c, steps[0]), steps[1..]);
    }
  }
}
