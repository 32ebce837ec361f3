/** The fixed-window request limiter: INCR, EXPIRE on the first count, refuse
    above the maximum. Times are Redis's clock, in any integer unit. */
module RateLimit {
  import opened Wrappers
  import opened Redis

  /** One request's effect on its bucket. */
  function Counted(cell: Option<Entry>, window: nat, now: int): Entry {
    var e := Incremented(cell, 1, now);
    if e.value == 1 then e.(expiresAt := Some(now + window)) else e
  }

  // ------------------------------------------------------------ a bucket's history

  predicate Ordered(times: seq<int>) {
    forall i, j :: 0 <= i < j < |times| ==> times[i] <= times[j]
  }

  /** The bucket after requests at these times. */
  function Bucket(times: seq<int>, window: nat): Option<Entry> {
    if times == [] then None else Some(Counted(Bucket(Init(times), window), window, Last(times)))
  }

  /** Whether the last of these requests is admitted. */
  predicate Admitted(times: seq<int>, max: nat, window: nat) {
    times != [] && Bucket(times, window).value.value <= max
  }

  /** `enforce_rate_limit` while Redis answers. */
  method Enforce<K(==)>(redis: Server<K>, bucket: K, max: nat, window: nat, now: int) returns (admitted: bool)
    modifies redis
    ensures redis.store == old(redis.store)[bucket := Counted(Cell(old(redis.store), bucket), window, now)]
    ensures admitted <==> redis.store[bucket].value <= max
    // After requests at any times, this one is taken like the last of them all.
    ensures forall times: seq<int> :: Cell(old(redis.store), bucket) == Bucket(times, window) ==>
              && Some(redis.store[bucket]) == Bucket(times + [now], window)
              && (admitted <==> Admitted(times + [now], max, window))
  {
    var count := redis.IncrBy(bucket, 1, now);
    if count == 1 {
      redis.Expire(bucket, window, now);
    }
    admitted := count <= max;
    assert forall times: seq<int> :: Init(times + [now]) == times;
  }

  /** When the current counter lifetime opened: a request opens a new one when the
      previous opened at least a window earlier. */
  function OpenedAt(times: seq<int>, window: nat): int
    requires times != []
  {
    if |times| == 1 then times[0]
    else
      var before := OpenedAt(Init(times), window);
      if Last(times) >= before + window then Last(times) else before
  }

  /** How many requests the current lifetime has seen. */
  function Seen(times: seq<int>, window: nat): nat
    requires times != []
  {
    if |times| == 1 || Last(times) >= OpenedAt(Init(times), window) + window then 1
    else Seen(Init(times), window) + 1
  }

  /** The counter is the lifetime: it counts the requests since the lifetime
      opened, and it expires one window after it opened, whatever came between. */
  lemma {:induction false} BucketIsLifetime(times: seq<int>, window: nat)
    requires times != []
    ensures Bucket(times, window) == Some(Entry(Seen(times, window), Some(OpenedAt(times, window) + window)))
    ensures Seen(times, window) >= 1
  {
    if |times| == 1 {
      assert Init(times) == [];
    } else {
      BucketIsLifetime(Init(times), window);
    }
  }

  /** Within a lifetime exactly the first `max` requests pass; a window after it
      opened the bucket admits again, however many were refused meanwhile. */
  lemma ReopensOneWindowAfterTheFirst(times: seq<int>, now: int, max: nat, window: nat)
    requires times != [] && max >= 1
    ensures Admitted(times + [now], max, window) <==>
              now >= OpenedAt(times, window) + window || Seen(times, window) < max
    ensures now < OpenedAt(times, window) + window ==>
              OpenedAt(times + [now], window) == OpenedAt(times, window)
  {
    assert Init(times + [now]) == times;
    BucketIsLifetime(times, window);
    BucketIsLifetime(times + [now], window);
  }

  /** How many requests of the current lifetime were admitted. */
  function AdmittedInLifetime(times: seq<int>, max: nat, window: nat): nat
    requires times != []
  {
    var admitted := if Admitted(times, max, window) then 1 else 0;
    if |times| == 1 || Last(times) >= OpenedAt(Init(times), window) + window then admitted
    else AdmittedInLifetime(Init(times), max, window) + admitted
  }

  function Min(a: nat, b: nat): nat {
    if a < b then a else b
  }

  /** A lifetime admits the first `max` of its requests and no others. */
  lemma {:induction false} LifetimeAdmitsItsFirst(times: seq<int>, max: nat, window: nat)
    requires times != []
    ensures AdmittedInLifetime(times, max, window) == Min(Seen(times, window), max)
  {
    BucketIsLifetime(times, window);
    if |times| > 1 {
      LifetimeAdmitsItsFirst(Init(times), max, window);
    }
  }

  // -------------------------------------------------------- any interval of a window

  /** Requests admitted in the half-open interval from `from`, one window long. */
  function AdmittedWithin(times: seq<int>, max: nat, window: nat, from: int): nat {
    if times == [] then 0
    else
      var earlier := AdmittedWithin(Init(times), max, window, from);
      if from <= Last(times) < from + window && Admitted(times, max, window) then earlier + 1 else earlier
  }

  lemma {:induction false} OpenedInPast(times: seq<int>, window: nat)
    requires times != [] && Ordered(times)
    ensures OpenedAt(times, window) <= Last(times)
  {
    if |times| > 1 {
      OpenedInPast(Init(times), window);
    }
  }

  lemma {:induction false} NoneBefore(times: seq<int>, max: nat, window: nat, from: int)
    requires Ordered(times) && (times != [] ==> Last(times) < from)
    ensures AdmittedWithin(times, max, window, from) == 0
  {
    if times != [] {
      NoneBefore(Init(times), max, window, from);
    }
  }

  lemma {:induction false} AdmittedSoFar(times: seq<int>, max: nat, window: nat, from: int)
    requires times != [] && Ordered(times) && max >= 1
    ensures var start, seen := OpenedAt(times, window), Seen(times, window);
            AdmittedWithin(times, max, window, from) <=
              if start < from then Min(seen, max) - 1
              else if start < from + window then max - 1 + Min(seen, max)
              else 2 * max - 1
  {
    BucketIsLifetime(times, window);
    OpenedInPast(times, window);
    if |times| == 1 {
      assert Init(times) == [];
    } else if Last(times) < from {
      NoneBefore(times, max, window, from);
    } else {
      AdmittedSoFar(Init(times), max, window, from);
    }
  }

  lemma {:induction false} OneUnitSoFar(times: seq<int>, max: nat, from: int)
    requires times != [] && Ordered(times) && max >= 1
    ensures var start, seen := OpenedAt(times, 1), Seen(times, 1);
            && Last(times) == start
            && AdmittedWithin(times, max, 1, from) <=
                 if start < from then 0 else if start == from then Min(seen, max) else max
  {
    BucketIsLifetime(times, 1);
    if |times| == 1 {
      assert Init(times) == [];
    } else {
      OneUnitSoFar(Init(times), max, from);
    }
  }

  lemma {:induction false} NothingInNoTime(times: seq<int>, max: nat, from: int)
    ensures AdmittedWithin(times, max, 0, from) == 0
  {
    if times != [] {
      NothingInNoTime(Init(times), max, from);
    }
  }

  /** What an interval one window long can admit: of two lifetimes that meet it, the
      earlier one opened before it, and one unit of time meets only one. */
  function Most(max: nat, window: nat): nat
    requires max >= 1
  {
    if window == 0 then 0 else if window == 1 then max else 2 * max - 1
  }

  /** Any interval one window long admits at most `Most`, always less than twice the
      maximum. */
  lemma WindowAdmitsLessThanTwice(times: seq<int>, max: nat, window: nat, from: int)
    requires Ordered(times) && max >= 1
    ensures AdmittedWithin(times, max, window, from) <= Most(max, window) < 2 * max
  {
    if window == 0 {
      NothingInNoTime(times, max, from);
    } else if times != [] {
      AdmittedSoFar(times, max, window, from);
      if window == 1 {
        OneUnitSoFar(times, max, from);
      }
    }
  }

  function Repeat(t: int, n: nat): seq<int> {
    seq(n, _ => t)
  }

  lemma {:induction false} RepeatInLifetime(times: seq<int>, t: int, n: nat, max: nat, window: nat, from: int)
    requires times != [] && from <= t < from + window && t < OpenedAt(times, window) + window
    requires Seen(times, window) + n <= max
    ensures var longer := times + Repeat(t, n);
            && OpenedAt(longer, window) == OpenedAt(times, window)
            && Seen(longer, window) == Seen(times, window) + n
            && AdmittedWithin(longer, max, window, from) == AdmittedWithin(times, max, window, from) + n
  {
    if n == 0 {
      assert times + Repeat(t, 0) == times;
    } else {
      RepeatInLifetime(times, t, n - 1, max, window, from);
      var longer := times + Repeat(t, n);
      assert Init(longer) == times + Repeat(t, n - 1);
      BucketIsLifetime(longer, window);
    }
  }

  lemma TwoLifetimes(max: nat, window: nat) returns (times: seq<int>)
    requires max >= 1 && window >= 2
    ensures Ordered(times) && AdmittedWithin(times, max, window, 1) == 2 * max - 1
  {
    var first := [0];
    assert Init(first) == [];
    var opening := first + Repeat(window - 1, max - 1);
    RepeatInLifetime(first, window - 1, max - 1, max, window, 1);
    var second := opening + [window];
    assert Init(second) == opening;
    BucketIsLifetime(second, window);
    RepeatInLifetime(second, window, max - 1, max, window, 1);
    times := second + Repeat(window, max - 1);
  }

  /** The bound is reached, for every maximum and window: one request opens a
      lifetime, the rest of its allowance comes just before it closes, and a full
      one just after; in a single unit of time, one allowance. */
  lemma TwiceLessOneIsReached(max: nat, window: nat) returns (times: seq<int>, from: int)
    requires max >= 1
    ensures Ordered(times) && AdmittedWithin(times, max, window, from) == Most(max, window)
  {
    times, from := [], 1;
    if window == 1 {
      times := [1];
      assert Init(times) == [];
      RepeatInLifetime(times, 1, max - 1, max, 1, 1);
      times := times + Repeat(1, max - 1);
    } else if window >= 2 {
      times := TwoLifetimes(max, window);
    }
  }

  // -------------------------------------------------------- losing the EXPIRE command

  function Later(cell: Entry, times: seq<int>, window: nat): Entry
    requires times != []
  {
    Counted(Some(if |times| == 1 then cell else Later(cell, Init(times), window)), window, Last(times))
  }

  /** INCR and EXPIRE are two commands. If the first request's EXPIRE is lost the
      counter has no expiry, and once the allowance is spent it never reopens. */
  lemma {:induction false} LostExpireNeverReopens(cell: Entry, times: seq<int>, max: nat, window: nat)
    requires cell.expiresAt == None && cell.value >= max && max >= 1
    requires times != []
    ensures var after := Later(cell, times, window);
            after.expiresAt == None && after.value > max
  {
    if |times| > 1 {
      LostExpireNeverReopens(cell, Init(times), max, window);
    }
  }
}
