/** The per-user daily token budget: a counter per UTC day, checked before a call
    and charged after it, with other calls in flight and midnight in between. */
module AiBudget {
  import opened Wrappers
  import opened Redis

  const DAY := 86400
  const TTL := 60 * 60 * 36

  function DayOf(now: nat): nat {
    now / DAY
  }

  type Store = map<nat, Entry>

  /** The counter of the day it is at `now`. */
  function Used(store: Store, now: nat): int {
    Value(Cell(store, DayOf(now)), now)
  }

  /** A budget of zero means none. */
  predicate Admits(store: Store, budget: nat, now: nat) {
    budget == 0 || Used(store, now) < budget
  }

  /** `record_usage`: the expiry is set by the write whose count equals its tokens. */
  function Recorded(store: Store, tokens: nat, now: nat): Store {
    if tokens == 0 then store
    else
      var e := Incremented(Cell(store, DayOf(now)), tokens, now);
      store[DayOf(now) := if e.value == tokens then e.(expiresAt := Some(now + TTL)) else e]
  }

  /** `assert_within_budget` while Redis answers; a budget of zero means none. */
  method WithinBudget(redis: Server<nat>, budget: nat, now: nat) returns (ok: bool)
    ensures ok <==> Admits(redis.store, budget, now)
  {
    if budget == 0 { return true; }
    var used := redis.Get(DayOf(now), now);
    ok := used < budget;
  }

  method RecordUsage(redis: Server<nat>, tokens: nat, now: nat)
    modifies redis
    ensures redis.store == Recorded(old(redis.store), tokens, now)
  {
    if tokens == 0 { return; }
    var key := DayOf(now);
    var count := redis.IncrBy(key, tokens, now);
    if count == tokens {
      redis.Expire(key, TTL, now);
    }
  }

  // ---------------------------------------------------------------- a user's calls

  /** A call asks to begin, and ends with what it charges. */
  datatype Event =
    | Begin(at: nat)
    | End(at: nat, tokens: nat)

  /** `ledger` adds up, day by day, everything charged; `inFlight` counts the
      calls that passed the check and have not been charged. */
  datatype State = State(now: nat, store: Store, inFlight: nat, ledger: map<nat, nat>)

  function Charged(s: State, day: nat): nat {
    if day in s.ledger then s.ledger[day] else 0
  }

  predicate Enabled(s: State, e: Event) {
    e.at >= s.now && (e.End? ==> s.inFlight > 0)
  }

  function Apply(s: State, e: Event, budget: nat): State
    requires Enabled(s, e)
  {
    match e
    case Begin(at) =>
      s.(now := at, inFlight := if Admits(s.store, budget, at) then s.inFlight + 1 else s.inFlight)
    case End(at, tokens) =>
      s.(now := at, inFlight := s.inFlight - 1, store := Recorded(s.store, tokens, at),
         ledger := s.ledger[DayOf(at) := Charged(s, DayOf(at)) + tokens])
  }

  const START := State(0, map[], 0, map[])

  function Run(s: State, events: seq<Event>, budget: nat): Option<State>
    decreases |events|
  {
    if events == [] then Some(s)
    else if Enabled(s, events[0]) then Run(Apply(s, events[0], budget), events[1..], budget)
    else None
  }

  /** At most `k` calls overlap and none charges more than `most`. */
  predicate Limited(s: State, events: seq<Event>, budget: nat, k: nat, most: nat)
    decreases |events|
  {
    && s.inFlight <= k
    && (events != [] && Enabled(s, events[0]) ==>
          && (events[0].End? ==> events[0].tokens <= most)
          && Limited(Apply(s, events[0], budget), events[1..], budget, k, most))
  }

  // -------------------------------------------------------------------- invariants

  /** Every day's entry was first written within that day and expires a day and a
      half after, so it outlives the day; it holds what the day was charged. */
  predicate EntryOk(s: State, day: nat)
    requires day in s.store
  {
    var e := s.store[day];
    && day * DAY <= s.now
    && e.expiresAt.Some? && day * DAY + TTL <= e.expiresAt.value < day * DAY + DAY + TTL
    && e.value == Charged(s, day) > 0
  }

  predicate StoreOk(s: State) {
    && (forall day <- s.store :: EntryOk(s, day))
    && (forall day <- s.ledger :: s.ledger[day] > 0 ==> day in s.store)
  }

  lemma DayBounds(now: nat)
    ensures DayOf(now) * DAY <= now < DayOf(now) * DAY + DAY
  {
  }

  lemma DayOrder(day: nat, now: nat)
    requires day * DAY <= now
    ensures day <= DayOf(now)
  {
  }

  /** No charge is dropped within its own day. */
  lemma UsedIsCharged(s: State, at: nat)
    requires StoreOk(s) && at >= s.now
    ensures Used(s.store, at) == Charged(s, DayOf(at))
  {
    DayBounds(at);
    if DayOf(at) in s.store {
      assert EntryOk(s, DayOf(at));
    }
  }

  lemma BeginKeepsStoreOk(s: State, at: nat, budget: nat)
    requires StoreOk(s) && Enabled(s, Begin(at))
    ensures StoreOk(Apply(s, Begin(at), budget))
  {
    var t := Apply(s, Begin(at), budget);
    forall day <- t.store ensures EntryOk(t, day) {
      assert EntryOk(s, day);
    }
  }

  lemma EndKeepsStoreOk(s: State, at: nat, tokens: nat, budget: nat)
    requires StoreOk(s) && Enabled(s, End(at, tokens))
    ensures StoreOk(Apply(s, End(at, tokens), budget))
  {
    var t, today := Apply(s, End(at, tokens), budget), DayOf(at);
    DayBounds(at);
    UsedIsCharged(s, at);
    forall day <- t.store ensures EntryOk(t, day) {
      if day != today {
        assert EntryOk(s, day);
      } else if day in s.store {
        assert EntryOk(s, day);
      }
    }
  }

  /** A day below its budget may still take every call in flight; a day at its
      budget admits no more, so only those can still be charged to it. */
  ghost predicate WithinReach(s: State, budget: nat, k: nat, most: nat) {
    && (forall day: nat :: Charged(s, day) <= budget - 1 + k * most)
    && (Charged(s, DayOf(s.now)) < budget
        || Charged(s, DayOf(s.now)) + s.inFlight * most <= budget - 1 + k * most)
    && (forall day: nat :: day > DayOf(s.now) ==> Charged(s, day) == 0)
  }

  lemma Times(a: nat, b: nat, m: nat)
    requires a <= b
    ensures a * m <= b * m
    ensures a > 0 ==> (a - 1) * m == a * m - m
  {
  }

  lemma BeginKeepsReach(s: State, at: nat, budget: nat, k: nat, most: nat)
    requires budget > 0
    requires StoreOk(s) && WithinReach(s, budget, k, most) && Enabled(s, Begin(at))
    ensures WithinReach(Apply(s, Begin(at), budget), budget, k, most)
  {
    UsedIsCharged(s, at);
    DayBounds(s.now);
    DayOrder(DayOf(s.now), at);
  }

  lemma EndKeepsReach(s: State, at: nat, tokens: nat, budget: nat, k: nat, most: nat)
    requires budget > 0 && s.inFlight <= k && tokens <= most
    requires WithinReach(s, budget, k, most) && Enabled(s, End(at, tokens))
    ensures WithinReach(Apply(s, End(at, tokens), budget), budget, k, most)
  {
    hide Recorded, Used;
    DayBounds(s.now);
    DayOrder(DayOf(s.now), at);
    Times(s.inFlight, k, most);
    Times(s.inFlight - 1, k, most);
    var t, today := Apply(s, End(at, tokens), budget), DayOf(at);
    assert t.inFlight * most == s.inFlight * most - most;
    assert Charged(t, today) == Charged(s, today) + tokens;
    forall day: nat | day != today ensures Charged(t, day) == Charged(s, day) {
    }
  }

  lemma {:induction false} RunsStayWithinReach(s: State, events: seq<Event>, budget: nat, k: nat, most: nat)
    requires budget > 0
    requires StoreOk(s) && WithinReach(s, budget, k, most)
    requires Run(s, events, budget).Some? && Limited(s, events, budget, k, most)
    ensures var t := Run(s, events, budget).value;
            StoreOk(t) && WithinReach(t, budget, k, most)
    decreases |events|
  {
    if events != [] {
      match events[0] {
        case Begin(at) =>
          BeginKeepsStoreOk(s, at, budget);
          BeginKeepsReach(s, at, budget, k, most);
        case End(at, tokens) =>
          EndKeepsStoreOk(s, at, tokens, budget);
          EndKeepsReach(s, at, tokens, budget, k, most);
      }
      RunsStayWithinReach(Apply(s, events[0], budget), events[1..], budget, k, most);
    }
  }

  /** What the calls that ended in this interval charged. */
  function Spent(events: seq<Event>, from: nat, until: nat): nat {
    if events == [] then 0
    else
      (if events[0].End? && from <= events[0].at < until then events[0].tokens else 0)
        + Spent(events[1..], from, until)
  }

  lemma DayIs(at: nat, day: nat)
    ensures DayOf(at) == day <==> 86400 * day <= at < 86400 * (day + 1)
  {
  }

  /** The ledger of a day is what was charged from one midnight to the next. */
  lemma {:induction false} LedgerIsSpent(s: State, events: seq<Event>, budget: nat, day: nat)
    requires Run(s, events, budget).Some?
    ensures Charged(Run(s, events, budget).value, day) ==
            Charged(s, day) + Spent(events, 86400 * day, 86400 * (day + 1))
    decreases |events|
  {
    if events != [] {
      DayIs(events[0].at, day);
      LedgerIsSpent(Apply(s, events[0], budget), events[1..], budget, day);
    }
  }

  /** With at most `k` calls in flight, each charging at most `most`, no day is
      ever charged more than its budget less one plus `k * most`, calls that began
      the day before included, and today's counter shows everything charged today. */
  lemma DailySpendIsBounded(events: seq<Event>, budget: nat, k: nat, most: nat)
    requires budget > 0
    requires Run(START, events, budget).Some? && Limited(START, events, budget, k, most)
    ensures var s := Run(START, events, budget).value;
            && (forall day: nat :: Spent(events, 86400 * day, 86400 * (day + 1)) <= budget - 1 + k * most)
            && (forall day: nat :: 86400 * day <= s.now < 86400 * (day + 1) ==>
                  Used(s.store, s.now) == Spent(events, 86400 * day, 86400 * (day + 1)))
  {
    RunsStayWithinReach(START, events, budget, k, most);
    var s := Run(START, events, budget).value;
    UsedIsCharged(s, s.now);
    hide Used, Run, Limited, StoreOk;
    forall day: nat
      ensures Charged(s, day) == Spent(events, 86400 * day, 86400 * (day + 1))
      ensures DayOf(s.now) == day <==> 86400 * day <= s.now < 86400 * (day + 1)
    {
      LedgerIsSpent(START, events, budget, day);
      DayIs(s.now, day);
    }
  }

  /** When something was first charged in this interval. */
  function FirstCharge(events: seq<Event>, from: nat, until: nat): Option<nat> {
    if events == [] then None
    else if events[0].End? && from <= events[0].at < until && events[0].tokens > 0 then Some(events[0].at)
    else FirstCharge(events[1..], from, until)
  }

  lemma ApplyKeepsStoreOk(s: State, e: Event, budget: nat)
    requires StoreOk(s) && Enabled(s, e)
    ensures StoreOk(Apply(s, e, budget))
  {
    match e
    case Begin(at) => BeginKeepsStoreOk(s, at, budget);
    case End(at, tokens) => EndKeepsStoreOk(s, at, tokens, budget);
  }

  lemma ExpiryAfter(s: State, e: Event, budget: nat, day: nat)
    requires StoreOk(s) && Enabled(s, e)
    ensures var t := Apply(s, e, budget);
            && (day in s.store ==> day in t.store && t.store[day].expiresAt == s.store[day].expiresAt)
            && (day !in s.store && day in t.store ==> t.store[day].expiresAt == Some(e.at + 129600))
            && (day in t.store <==>
                  day in s.store || (e.End? && 86400 * day <= e.at < 86400 * (day + 1) && e.tokens > 0))
  {
    DayIs(e.at, day);
    if day in s.store {
      assert EntryOk(s, day);
      DayBounds(e.at);
    }
  }

  /** A day's counter is kept for thirty-six hours from the first charge of the day,
      whatever is charged later. */
  lemma {:induction false} CounterExpires(s: State, events: seq<Event>, budget: nat, day: nat)
    requires StoreOk(s) && Run(s, events, budget).Some?
    ensures var store := Run(s, events, budget).value.store;
            var first := FirstCharge(events, 86400 * day, 86400 * (day + 1));
            && (day in store <==> day in s.store || first.Some?)
            && (day in s.store ==> store[day].expiresAt == s.store[day].expiresAt)
            && (day !in s.store && first.Some? ==> store[day].expiresAt == Some(first.value + 129600))
    decreases |events|
  {
    if events != [] {
      ExpiryAfter(s, events[0], budget, day);
      ApplyKeepsStoreOk(s, events[0], budget);
      hide StoreOk, Apply, Enabled;
      CounterExpires(Apply(s, events[0], budget), events[1..], budget, day);
    }
  }

  /** So over every run from the start. */
  lemma CountersExpire(events: seq<Event>, budget: nat, day: nat)
    requires Run(START, events, budget).Some?
    ensures var store := Run(START, events, budget).value.store;
            var first := FirstCharge(events, 86400 * day, 86400 * (day + 1));
            (if day in store then Some(store[day].expiresAt) else None)
              == (if first.Some? then Some(Some(first.value + 129600)) else None)
  {
    CounterExpires(START, events, budget, day);
  }

  /** A call is admitted exactly when there is no budget or its day has been charged less. */
  lemma AdmissionIsExact(s: State, at: nat, budget: nat)
    requires StoreOk(s) && Enabled(s, Begin(at))
    ensures Apply(s, Begin(at), budget).inFlight == s.inFlight + 1 <==> budget == 0 || Charged(s, DayOf(at)) < budget
  {
    UsedIsCharged(s, at);
  }

  // ------------------------------------------------------------ the bound is reached

  /** A run made one event longer. */
  lemma {:induction false} Then(from: State, events: seq<Event>, s: State, e: Event, budget: nat, k: nat, most: nat)
    returns (longer: seq<Event>, next: State)
    requires Run(from, events, budget) == Some(s) && Limited(from, events, budget, k, most)
    requires Enabled(s, e) && (e.End? ==> e.tokens <= most) && Apply(s, e, budget).inFlight <= k
    ensures longer == events + [e] && next == Apply(s, e, budget)
    ensures Run(from, longer, budget) == Some(next) && Limited(from, longer, budget, k, most)
    decreases |events|
  {
    longer, next := events + [e], Apply(s, e, budget);
    if events != [] {
      var inner, _ := Then(Apply(from, events[0], budget), events[1..], s, e, budget, k, most);
      assert longer[1..] == inner;
    }
  }

  lemma {:induction false} BeginMany(from: State, events: seq<Event>, s: State, n: nat, budget: nat, k: nat, most: nat)
    returns (longer: seq<Event>, next: State)
    requires Run(from, events, budget) == Some(s) && Limited(from, events, budget, k, most)
    requires Used(s.store, s.now) < budget && s.inFlight + n <= k
    ensures next == s.(inFlight := s.inFlight + n)
    ensures Run(from, longer, budget) == Some(next) && Limited(from, longer, budget, k, most)
    decreases n
  {
    hide Run, Limited, Used;
    longer, next := events, s;
    if n > 0 {
      longer, next := Then(from, events, s, Begin(s.now), budget, k, most);
      longer, next := BeginMany(from, longer, next, n - 1, budget, k, most);
    }
  }

  lemma {:induction false} EndMany(from: State, events: seq<Event>, s: State, n: nat, budget: nat, k: nat, most: nat)
    returns (longer: seq<Event>, next: State)
    requires Run(from, events, budget) == Some(s) && Limited(from, events, budget, k, most)
    requires n <= s.inFlight <= k
    ensures next.now == s.now && Charged(next, DayOf(s.now)) == Charged(s, DayOf(s.now)) + n * most
    ensures Run(from, longer, budget) == Some(next) && Limited(from, longer, budget, k, most)
    decreases n
  {
    hide Run, Limited, Recorded;
    longer, next := events, s;
    if n > 0 {
      longer, next := Then(from, events, s, End(s.now, most), budget, k, most);
      longer, next := EndMany(from, longer, next, n - 1, budget, k, most);
      assert n * most == (n - 1) * most + most;
    }
  }

  /** One call after another, each charging one token. */
  lemma {:induction false} SpendOneByOne(from: State, events: seq<Event>, s: State, n: nat, budget: nat,
                                         k: nat, most: nat)
    returns (longer: seq<Event>, next: State)
    requires Run(from, events, budget) == Some(s) && Limited(from, events, budget, k, most)
    requires StoreOk(s) && s.inFlight == 0 && k >= 1 && most >= 1
    requires Charged(s, DayOf(s.now)) + n <= budget
    ensures Run(from, longer, budget) == Some(next) && Limited(from, longer, budget, k, most)
    ensures StoreOk(next) && next.inFlight == 0 && next.now == s.now
    ensures Charged(next, DayOf(s.now)) == Charged(s, DayOf(s.now)) + n
    decreases n
  {
    hide Run, Limited, Recorded, Used, StoreOk;
    longer, next := events, s;
    if n > 0 {
      UsedIsCharged(s, s.now);
      BeginKeepsStoreOk(s, s.now, budget);
      longer, next := Then(from, events, s, Begin(s.now), budget, k, most);
      EndKeepsStoreOk(next, s.now, 1, budget);
      longer, next := Then(from, longer, next, End(s.now, 1), budget, k, most);
      longer, next := SpendOneByOne(from, longer, next, n - 1, budget, k, most);
    }
  }

  lemma StartIsEmpty(budget: nat, k: nat, most: nat)
    ensures Run(START, [], budget) == Some(START) && Limited(START, [], budget, k, most) && StoreOk(START)
  {
  }

  /** No smaller bound holds, whatever a single call may charge, as long as it may
      charge something: the day is brought to just under its budget, and `k` calls
      admitted there each charge the most they may. */
  lemma DailyBoundIsReached(budget: nat, k: nat, most: nat) returns (events: seq<Event>, s: State)
    requires budget > 0 && k >= 1 && most >= 1
    ensures Run(START, events, budget) == Some(s) && Limited(START, events, budget, k, most)
    ensures Spent(events, 0, 86400) == budget - 1 + k * most
  {
    hide Run, Limited, Used, StoreOk, Recorded;
    StartIsEmpty(budget, k, most);
    events, s := SpendOneByOne(START, [], START, budget - 1, budget, k, most);
    UsedIsCharged(s, s.now);
    events, s := BeginMany(START, events, s, k, budget, k, most);
    events, s := EndMany(START, events, s, k, budget, k, most);
    LedgerIsSpent(START, events, budget, 0);
  }
}
