/** The sliding-window limiter of the governance endpoints (src/governance-routes.js:766-780).
    Instants are whole milliseconds. */
module RateLimit {

  datatype Verdict = Verdict(allowed: bool, retryAfterSeconds: int)

  /** The time stamps later than `cutoff`, in order. */
  function After(stamps: seq<int>, cutoff: int): (kept: seq<int>)
    ensures |kept| <= |stamps|
  {
    if |stamps| == 0 then []
    else
      var earlier, last := After(stamps[..|stamps| - 1], cutoff), stamps[|stamps| - 1];
      if last > cutoff then earlier + [last] else earlier
  }

  predicate Allows(stamps: seq<int>, now: int, windowMs: int, max: nat) {
    |After(stamps, now - windowMs)| < max
  }

  /** The time stamps kept for a key after a call at `now`. */
  function Kept(stamps: seq<int>, now: int, windowMs: int, max: nat): seq<int> {
    var recent := After(stamps, now - windowMs);
    if Allows(stamps, now, windowMs, max) then recent + [now] else recent
  }

  /** Milliseconds until a refused caller may be served. */
  function RetryAfterMs(stamps: seq<int>, now: int, windowMs: int, max: nat): int
    requires max > 0 && !Allows(stamps, now, windowMs, max)
  {
    var wait := After(stamps, now - windowMs)[0] + windowMs - now;
    if wait < 1 then 1 else wait
  }

  function CeilSeconds(ms: int): int { (ms + 999) / 1000 }

  class Limiter<Key(==)> {
    var buckets: map<Key, seq<int>>

    constructor ()
      ensures buckets == map[]
    {
      buckets := map[];
    }

    function Stamps(key: Key): seq<int>
      reads this
    {
      if key in buckets then buckets[key] else []
    }

    /** One call: every other key keeps its bucket. */
    method ConsumeRateLimit(key: Key, windowMs: int, max: nat, now: int) returns (v: Verdict)
      requires max > 0
      modifies this
      ensures buckets == old(buckets)[key := Kept(old(Stamps(key)), now, windowMs, max)]
      ensures v.allowed <==> Allows(old(Stamps(key)), now, windowMs, max)
      ensures v.retryAfterSeconds ==
                if v.allowed then 0 else CeilSeconds(RetryAfterMs(old(Stamps(key)), now, windowMs, max))
    {
      var all := Stamps(key);
      var cutoff := now - windowMs;
      var timestamps: seq<int> := [];
      for i := 0 to |all|
        invariant timestamps == After(all[..i], cutoff)
      {
        assert all[..i + 1][..i] == all[..i];
        if all[i] > cutoff {
          timestamps := timestamps + [all[i]];
        }
      }
      assert all[..|all|] == all;
      if |timestamps| >= max {
        var wait := timestamps[0] + windowMs - now;
        var retryAfterMs := if wait < 1 then 1 else wait;
        buckets := buckets[key := timestamps];
        return Verdict(false, (retryAfterMs + 999) / 1000);
      }
      timestamps := timestamps + [now];
      buckets := buckets[key := timestamps];
      return Verdict(true, 0);
    }
  }

  // ---------------------------------------------------------------------
  // Runs of calls for one key
  // ---------------------------------------------------------------------

  /** The bucket of a key, and every instant at which a call was allowed. */
  datatype History = History(bucket: seq<int>, allowed: seq<int>)

  function Call(h: History, now: int, windowMs: int, max: nat): History {
    History(Kept(h.bucket, now, windowMs, max),
            if Allows(h.bucket, now, windowMs, max) then h.allowed + [now] else h.allowed)
  }

  function Run(calls: seq<int>, windowMs: int, max: nat): History {
    if |calls| == 0 then History([], [])
    else Call(Run(calls[..|calls| - 1], windowMs, max), calls[|calls| - 1], windowMs, max)
  }

  predicate AtMost(stamps: seq<int>, now: int) {
    |stamps| > 0 ==> stamps[|stamps| - 1] <= now
  }

  predicate Ascending(calls: seq<int>) {
    |calls| > 0 ==> AtMost(calls[..|calls| - 1], calls[|calls| - 1]) && Ascending(calls[..|calls| - 1])
  }

  lemma AscendingAppend(stamps: seq<int>, now: int)
    requires Ascending(stamps) && AtMost(stamps, now)
    ensures Ascending(stamps + [now])
  {
    assert (stamps + [now])[..|stamps|] == stamps;
  }

  lemma AfterAppend(stamps: seq<int>, now: int, cutoff: int)
    requires now > cutoff
    ensures After(stamps + [now], cutoff) == After(stamps, cutoff) + [now]
  {
    assert (stamps + [now])[..|stamps|] == stamps;
  }

  lemma {:induction false} AfterTwice(stamps: seq<int>, low: int, high: int)
    requires low <= high
    ensures After(After(stamps, low), high) == After(stamps, high)
  {
    if |stamps| > 0 {
      var rest, last := stamps[..|stamps| - 1], stamps[|stamps| - 1];
      AfterTwice(rest, low, high);
      if last > low {
        assert (After(rest, low) + [last])[..|After(rest, low)|] == After(rest, low);
      }
    }
  }

  lemma {:induction false} AfterAscends(stamps: seq<int>, cutoff: int)
    requires Ascending(stamps)
    ensures Ascending(After(stamps, cutoff))
    ensures forall now :: AtMost(stamps, now) ==> AtMost(After(stamps, cutoff), now)
  {
    if |stamps| > 0 {
      var rest, last := stamps[..|stamps| - 1], stamps[|stamps| - 1];
      AfterAscends(rest, cutoff);
      AscendingAppend(After(rest, cutoff), last);
    }
  }

  lemma {:induction false} FirstIsLeast(stamps: seq<int>)
    requires Ascending(stamps) && |stamps| > 0
    ensures stamps[0] <= stamps[|stamps| - 1]
  {
    if |stamps| > 1 {
      FirstIsLeast(stamps[..|stamps| - 1]);
    }
  }

  lemma {:induction false} AfterIsAll(stamps: seq<int>, cutoff: int)
    requires Ascending(stamps)
    ensures |After(stamps, cutoff)| == |stamps| <==> |stamps| == 0 || stamps[0] > cutoff
    ensures |After(stamps, cutoff)| > 0 ==> After(stamps, cutoff)[0] > cutoff
  {
    if |stamps| > 0 {
      var rest := stamps[..|stamps| - 1];
      AfterIsAll(rest, cutoff);
      FirstIsLeast(stamps);
    }
  }

  /** A bucket holds what the allowed calls of the last window leave, and never more than the limit. */
  predicate Sound(h: History, last: int, windowMs: int, max: nat) {
    && Ascending(h.allowed) && AtMost(h.allowed, last)
    && h.bucket == After(h.allowed, last - windowMs)
    && |h.bucket| <= max
  }

  lemma AllowedKeepsSound(allowed: seq<int>, last: int, now: int, windowMs: int, max: nat)
    requires Ascending(allowed) && AtMost(allowed, last) && last <= now && windowMs > 0
    requires |After(allowed, now - windowMs)| < max
    ensures Sound(History(After(allowed, now - windowMs) + [now], allowed + [now]), now, windowMs, max)
  {
    AfterAppend(allowed, now, now - windowMs);
    AscendingAppend(allowed, now);
  }

  lemma RecentIsRecentAllowed(h: History, last: int, now: int, windowMs: int, max: nat)
    requires Sound(h, last, windowMs, max) && last <= now
    ensures After(h.bucket, now - windowMs) == After(h.allowed, now - windowMs)
    ensures |After(h.bucket, now - windowMs)| <= max
  {
    RecentOfRecent(h.bucket, h.allowed, last - windowMs, now - windowMs);
  }

  lemma RecentOfRecent(bucket: seq<int>, allowed: seq<int>, low: int, high: int)
    requires bucket == After(allowed, low) && low <= high
    ensures After(bucket, high) == After(allowed, high) && |After(bucket, high)| <= |bucket|
  {
    AfterTwice(allowed, low, high);
  }

  lemma CallKeepsSound(h: History, last: int, now: int, windowMs: int, max: nat)
    requires Sound(h, last, windowMs, max) && last <= now && windowMs > 0
    ensures Sound(Call(h, now, windowMs, max), now, windowMs, max)
  {
    RecentIsRecentAllowed(h, last, now, windowMs, max);
    if Allows(h.bucket, now, windowMs, max) {
      AllowedKeepsSound(h.allowed, last, now, windowMs, max);
    }
  }

  lemma {:induction false} RunIsSound(calls: seq<int>, last: int, windowMs: int, max: nat)
    requires Ascending(calls) && windowMs > 0 && (if |calls| > 0 then last == calls[|calls| - 1] else true)
    ensures Sound(Run(calls, windowMs, max), last, windowMs, max)
  {
    if |calls| > 0 {
      var earlier := calls[..|calls| - 1];
      var before := if |earlier| > 0 then earlier[|earlier| - 1] else last;
      RunIsSound(earlier, before, windowMs, max);
      CallKeepsSound(Run(earlier, windowMs, max), before, last, windowMs, max);
    }
  }

  /** How many of the stamps lie in the half-open window ending at `t`. */
  function CountIn(stamps: seq<int>, windowMs: int, t: int): nat {
    if |stamps| == 0 then 0
    else
      var last := stamps[|stamps| - 1];
      CountIn(stamps[..|stamps| - 1], windowMs, t) + if t - windowMs < last <= t then 1 else 0
  }

  lemma {:induction false} CountWithin(stamps: seq<int>, windowMs: int, t: int, cutoff: int)
    requires cutoff <= t - windowMs
    ensures CountIn(stamps, windowMs, t) <= |After(stamps, cutoff)|
  {
    if |stamps| > 0 {
      CountWithin(stamps[..|stamps| - 1], windowMs, t, cutoff);
    }
  }

  lemma CountAppend(stamps: seq<int>, windowMs: int, t: int, now: int)
    requires now > t
    ensures CountIn(stamps + [now], windowMs, t) == CountIn(stamps, windowMs, t)
  {
    assert (stamps + [now])[..|stamps|] == stamps;
  }

  lemma LaterCallIsOutside(h: History, windowMs: int, max: nat, t: int, now: int)
    requires now > t
    ensures CountIn(Call(h, now, windowMs, max).allowed, windowMs, t) == CountIn(h.allowed, windowMs, t)
  {
    CountAppend(h.allowed, windowMs, t, now);
  }

  lemma SoundWithin(h: History, windowMs: int, max: nat, t: int, now: int)
    requires Sound(h, now, windowMs, max) && now <= t
    ensures CountIn(h.allowed, windowMs, t) <= max
  {
    CountWithin(h.allowed, windowMs, t, now - windowMs);
  }

  /** In every window, whatever the calls, no more than `max` are allowed. */
  lemma {:induction false} AtMostMaxPerWindow(calls: seq<int>, windowMs: int, max: nat, t: int)
    requires Ascending(calls) && windowMs > 0
    ensures CountIn(Run(calls, windowMs, max).allowed, windowMs, t) <= max
  {
    if |calls| > 0 {
      var earlier, now := calls[..|calls| - 1], calls[|calls| - 1];
      if now <= t {
        RunIsSound(calls, now, windowMs, max);
        SoundWithin(Run(calls, windowMs, max), windowMs, max, t, now);
      } else {
        AtMostMaxPerWindow(earlier, windowMs, max, t);
        LaterCallIsOutside(Run(earlier, windowMs, max), windowMs, max, t, now);
      }
    }
  }

  /** A full bucket admits again as soon as its oldest stamp leaves the window. */
  lemma FullBucketWaits(stamps: seq<int>, later: int, windowMs: int, max: nat)
    requires Ascending(stamps) && |stamps| == max > 0
    ensures Allows(stamps, later, windowMs, max) <==> later >= stamps[0] + windowMs
  {
    AfterIsAll(stamps, later - windowMs);
  }

  /** The bucket a refusal leaves behind. */
  lemma RefusalLeavesFullBucket(h: History, now: int, windowMs: int, max: nat)
    requires max > 0 && windowMs > 0 && Sound(Call(h, now, windowMs, max), now, windowMs, max)
    requires !Allows(h.bucket, now, windowMs, max)
    ensures var stamps := After(h.bucket, now - windowMs);
            Ascending(stamps) && |stamps| == max && now - windowMs < stamps[0] <= now
  {
    var allowed := h.allowed;
    AfterAscends(allowed, now - windowMs);
    AfterIsAll(allowed, now - windowMs);
    FirstIsLeast(After(allowed, now - windowMs));
  }

  /** The retry delay is exact: a refused caller is served by its next call exactly when the delay has passed,
      and the seconds it is told are the least whole number that covers the delay. */
  lemma RetryDelayIsExact(calls: seq<int>, now: int, later: int, windowMs: int, max: nat)
    requires max > 0 && windowMs > 0 && Ascending(calls) && AtMost(calls, now) && now <= later
    requires !Allows(Run(calls, windowMs, max).bucket, now, windowMs, max)
    ensures var delay := RetryAfterMs(Run(calls, windowMs, max).bucket, now, windowMs, max);
            && 0 < delay <= windowMs
            && (Allows(Run(calls + [now], windowMs, max).bucket, later, windowMs, max) <==> later >= now + delay)
            && 1000 * (CeilSeconds(delay) - 1) < delay <= 1000 * CeilSeconds(delay)
  {
    var h := Run(calls, windowMs, max);
    assert (calls + [now])[..|calls|] == calls;
    assert Run(calls + [now], windowMs, max) == Call(h, now, windowMs, max);
    RunIsSound(calls, if |calls| > 0 then calls[|calls| - 1] else now, windowMs, max);
    CallKeepsSound(h, if |calls| > 0 then calls[|calls| - 1] else now, now, windowMs, max);
    RefusalLeavesFullBucket(h, now, windowMs, max);
    FullBucketWaits(After(h.bucket, now - windowMs), later, windowMs, max);
  }
}
