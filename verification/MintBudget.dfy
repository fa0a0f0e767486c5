/** The certificate mint ledger and its token bucket (src/tls-mint-log.js). Instants and
    token counts are real numbers; a ledger holds the instants of recorded mints. */
module MintBudget {
  import opened Prelude

  type Instant = real

  const WINDOW_MS: real := 7.0 * 24.0 * 60.0 * 60.0 * 1000.0

  function RefillIntervalMs(max: real): real
    requires max > 0.0
  {
    WINDOW_MS / max
  }

  /** Tokens that flow back over a stretch of time: its share of the capacity. */
  function Refilled(gap: real, max: real): real {
    gap * max / WINDOW_MS
  }

  /** One token flows back in every refill interval. */
  lemma RefilledPerInterval(gap: real, max: real)
    requires max > 0.0
    ensures RefillIntervalMs(max) > 0.0 && gap / RefillIntervalMs(max) == Refilled(gap, max)
  {
    assert RefillIntervalMs(max) * max == WINDOW_MS;
    assert gap / RefillIntervalMs(max) * RefillIntervalMs(max) == gap;
  }

  function Min(x: real, y: real): real { if x < y then x else y }

  predicate Ascending(mints: seq<Instant>) {
    forall i, j :: 0 <= i < j < |mints| ==> mints[i] <= mints[j]
  }

  lemma AscendingSlice(times: seq<Instant>, a: nat, b: nat)
    requires Ascending(times) && a <= b <= |times|
    ensures Ascending(times[a..b])
  {
  }

  lemma AscendingRest(older: seq<Instant>, rest: seq<Instant>)
    requires Ascending(older + rest)
    ensures Ascending(rest)
  {
    AscendingSlice(older + rest, |older|, |older + rest|);
    assert (older + rest)[|older|..|older + rest|] == rest;
  }

  // ---------------------------------------------------------------------
  // The bucket
  // ---------------------------------------------------------------------

  datatype Bucket = Bucket(tokens: real, cursor: Option<Instant>)

  /** The level at `at`: refilled since the cursor, capped at capacity. */
  function LevelAt(b: Bucket, at: Instant, max: real): real
    requires max > 0.0
  {
    if b.cursor.Some? && at > b.cursor.value
    then Min(max, b.tokens + Refilled(at - b.cursor.value, max))
    else b.tokens
  }

  function Spend(b: Bucket, at: Instant, max: real): Bucket
    requires max > 0.0
  {
    var left := LevelAt(b, at, max) - 1.0;
    Bucket(if left < 0.0 then 0.0 else left,
           if b.cursor.Some? && b.cursor.value > at then b.cursor else Some(at))
  }

  function Simulate(mints: seq<Instant>, max: real): Bucket
    requires max > 0.0
  {
    if |mints| == 0 then Bucket(max, None)
    else Spend(Simulate(mints[..|mints| - 1], max), mints[|mints| - 1], max)
  }

  function Level(mints: seq<Instant>, now: Instant, max: real): real
    requires max > 0.0
  {
    LevelAt(Simulate(mints, max), now, max)
  }

  /** When a bucket that holds `tokens` now will hold one whole token. */
  function WholeAt(tokens: real, now: Instant, max: real): Instant
    requires max > 0.0
  {
    now + (1.0 - tokens) * RefillIntervalMs(max)
  }

  /** When the guard says the next whole token will be there. */
  function NextTokenAt(mints: seq<Instant>, now: Instant, max: real): Instant
    requires max > 0.0
  {
    WholeAt(Level(mints, now, max), now, max)
  }

  method TokensAvailable(mints: seq<Instant>, now: Instant, max: real) returns (tokens: real)
    requires max > 0.0
    ensures tokens == Level(mints, now, max)
    ensures 0.0 <= tokens <= max
  {
    var refillMs := RefillIntervalMs(max);
    var cursor: Option<Instant> := None;
    tokens := max;
    var i := 0;
    while i < |mints|
      invariant 0 <= i <= |mints|
      invariant Simulate(mints[..i], max) == Bucket(tokens, cursor)
    {
      var at := mints[i];
      assert mints[..i + 1][..i] == mints[..i];
      if cursor.Some? && at > cursor.value {
        RefilledPerInterval(at - cursor.value, max);
        tokens := Min(max, tokens + (at - cursor.value) / refillMs);
      }
      cursor := Some(if cursor.None? || cursor.value < at then at else cursor.value);
      tokens := if tokens - 1.0 < 0.0 then 0.0 else tokens - 1.0;
      i := i + 1;
    }
    assert mints[..|mints|] == mints;
    if cursor.Some? && now > cursor.value {
      RefilledPerInterval(now - cursor.value, max);
      tokens := Min(max, tokens + (now - cursor.value) / refillMs);
    }
    LevelInRange(mints, now, max);
  }

  lemma RefilledAdds(x: real, y: real, max: real)
    ensures Refilled(x, max) + Refilled(y, max) == Refilled(x + y, max)
  {
  }

  lemma RefilledTimesInterval(gap: real, max: real)
    requires max > 0.0
    ensures RefillIntervalMs(max) > 0.0 && Refilled(gap, max) * RefillIntervalMs(max) == gap
  {
    RefilledPerInterval(gap, max);
  }

  lemma RefillGrows(b: Bucket, at: Instant, max: real)
    requires max > 0.0
    ensures b.cursor.Some? && at > b.cursor.value ==> Refilled(at - b.cursor.value, max) > 0.0
  {
  }

  /** Past the cursor the level is the refilled tokens, capped; nothing flows back at the cursor itself. */
  lemma LevelPast(b: Bucket, at: Instant, gap: real, max: real)
    requires max > 0.0 && b.cursor == Some(at - gap) && gap >= 0.0 && b.tokens <= max
    ensures LevelAt(b, at, max) == Min(max, b.tokens + Refilled(gap, max)) <= b.tokens + Refilled(gap, max)
  {
    assert at - b.cursor.value == gap;
  }

  lemma {:induction false} SimulateInRange(mints: seq<Instant>, max: real)
    requires max > 0.0
    ensures 0.0 <= Simulate(mints, max).tokens <= max
    ensures Simulate(mints, max).cursor.None? <==> |mints| == 0
  {
    if |mints| > 0 {
      SimulateInRange(mints[..|mints| - 1], max);
      RefillGrows(Simulate(mints[..|mints| - 1], max), mints[|mints| - 1], max);
    }
  }

  /** The level never leaves the range from empty to full. */
  lemma LevelInRange(mints: seq<Instant>, now: Instant, max: real)
    requires max > 0.0
    ensures 0.0 <= Level(mints, now, max) <= max
  {
    SimulateInRange(mints, max);
    RefillGrows(Simulate(mints, max), now, max);
  }

  lemma {:induction false} CursorIsLastMint(mints: seq<Instant>, max: real)
    requires max > 0.0 && |mints| > 0 && Ascending(mints)
    ensures Simulate(mints, max).cursor == Some(mints[|mints| - 1])
  {
    if |mints| > 1 {
      CursorIsLastMint(mints[..|mints| - 1], max);
    }
  }

  /** In whatever order the mints are listed, time is counted from the latest of them. */
  lemma {:induction false} CursorIsLatest(mints: seq<Instant>, max: real)
    requires max > 0.0 && |mints| > 0
    ensures Simulate(mints, max).cursor.Some? && Simulate(mints, max).cursor.value in mints
    ensures forall t :: t in mints ==> t <= Simulate(mints, max).cursor.value
  {
    var shorter, last := mints[..|mints| - 1], mints[|mints| - 1];
    assert mints == shorter + [last];
    if |shorter| > 0 {
      CursorIsLatest(shorter, max);
    }
  }

  /** A fuller bucket with the same cursor stays at least as full. */
  lemma LevelMonotone(b: Bucket, c: Bucket, at: Instant, max: real)
    requires max > 0.0 && b.cursor == c.cursor && b.tokens <= c.tokens
    ensures LevelAt(b, at, max) <= LevelAt(c, at, max)
  {
  }

  lemma SpendMonotone(b: Bucket, c: Bucket, at: Instant, max: real)
    requires max > 0.0 && LevelAt(b, at, max) <= LevelAt(c, at, max)
    ensures Spend(b, at, max).tokens <= Spend(c, at, max).tokens
  {
  }

  /** Dropping the oldest part of a history never lowers the level. */
  lemma {:induction false} DroppingHistoryNeverLowers(older: seq<Instant>, rest: seq<Instant>, now: Instant, max: real)
    requires max > 0.0 && Ascending(older + rest)
    ensures Simulate(older + rest, max).tokens <= Simulate(rest, max).tokens
    ensures Level(older + rest, now, max) <= Level(rest, now, max)
  {
    var mints := older + rest;
    if |rest| == 0 {
      SimulateInRange(mints, max);
      LevelInRange(mints, now, max);
    } else {
      var shorter, last := rest[..|rest| - 1], rest[|rest| - 1];
      assert mints[..|mints| - 1] == older + shorter && mints[|mints| - 1] == last;
      DroppingHistoryNeverLowers(older, shorter, last, max);
      SpendMonotone(Simulate(older + shorter, max), Simulate(shorter, max), last, max);
      AscendingRest(older, rest);
      CursorIsLastMint(mints, max);
      CursorIsLastMint(rest, max);
      LevelMonotone(Simulate(mints, max), Simulate(rest, max), now, max);
    }
  }

  /** The bucket has forgotten `older`: at some instant since then it was full again even with `older` charged,
      or it was drained even without. */
  predicate Forgotten(older: seq<Instant>, rest: seq<Instant>, now: Instant, max: real)
    requires max > 0.0
  {
    || Level(older + rest, now, max) == max
    || (|rest| > 0 &&
        var shorter, last := rest[..|rest| - 1], rest[|rest| - 1];
        Level(shorter, last, max) <= 1.0 || Forgotten(older, shorter, last, max))
  }

  lemma SpendTies(b: Bucket, c: Bucket, at: Instant, max: real)
    requires max > 0.0 && LevelAt(b, at, max) <= LevelAt(c, at, max) <= max
    ensures Spend(b, at, max).tokens == Spend(c, at, max).tokens
        <==> LevelAt(b, at, max) == LevelAt(c, at, max) || LevelAt(c, at, max) <= 1.0
    ensures Spend(b, at, max).tokens < max
  {
  }

  lemma LevelTies(b: Bucket, c: Bucket, at: Instant, max: real)
    requires max > 0.0 && b.cursor == c.cursor && b.tokens <= c.tokens < max
    ensures LevelAt(b, at, max) == LevelAt(c, at, max) <==> b.tokens == c.tokens || LevelAt(b, at, max) == max
  {
  }

  /** Dropping the oldest part of a history leaves the level unchanged exactly when the bucket has forgotten it. */
  lemma {:induction false} DroppingIsExactWhenForgotten(older: seq<Instant>, rest: seq<Instant>, now: Instant,
                                                        max: real)
    requires max > 0.0 && Ascending(older + rest)
    ensures Level(older + rest, now, max) == Level(rest, now, max) <==> Forgotten(older, rest, now, max)
  {
    var mints := older + rest;
    if |rest| == 0 {
      assert Level(rest, now, max) == max;
    } else {
      var shorter, last := rest[..|rest| - 1], rest[|rest| - 1];
      assert mints[..|mints| - 1] == older + shorter && mints[|mints| - 1] == last;
      DroppingIsExactWhenForgotten(older, shorter, last, max);
      DroppingHistoryNeverLowers(older, shorter, last, max);
      LevelInRange(shorter, last, max);
      SpendTies(Simulate(older + shorter, max), Simulate(shorter, max), last, max);
      SpendMonotone(Simulate(older + shorter, max), Simulate(shorter, max), last, max);
      SpendTies(Simulate(shorter, max), Simulate(shorter, max), last, max);
      AscendingRest(older, rest);
      CursorIsLastMint(mints, max);
      CursorIsLastMint(rest, max);
      LevelTies(Simulate(mints, max), Simulate(rest, max), now, max);
    }
  }

  /** The reported next-token time is exactly the first instant the level reaches one token, and it is at most
      one refill interval away. */
  lemma NextTokenTimeIsExact(mints: seq<Instant>, now: Instant, max: real, later: Instant)
    requires max >= 1.0 && |mints| > 0 && Ascending(mints) && mints[|mints| - 1] <= now <= later
    requires Level(mints, now, max) < 1.0
    ensures now < NextTokenAt(mints, now, max) <= now + RefillIntervalMs(max)
    ensures Level(mints, later, max) >= 1.0 <==> later >= NextTokenAt(mints, now, max)
  {
    CursorIsLastMint(mints, max);
    LevelInRange(mints, now, max);
    SimulateInRange(mints, max);
    var b := Simulate(mints, max);
    LevelPast(b, now, now - b.cursor.value, max);
    LevelPast(b, later, later - b.cursor.value, max);
    FirstWholeToken(b.tokens, now - b.cursor.value, later - b.cursor.value, max);
  }

  lemma FirstWholeToken(tokens: real, gap: real, longer: real, max: real)
    requires max > 0.0 && tokens + Refilled(gap, max) < 1.0
    ensures tokens + Refilled(longer, max) >= 1.0
        <==> longer >= gap + (1.0 - (tokens + Refilled(gap, max))) * RefillIntervalMs(max)
    ensures (1.0 - (tokens + Refilled(gap, max))) * RefillIntervalMs(max) > 0.0
    ensures tokens + Refilled(gap, max) >= 0.0
            ==> (1.0 - (tokens + Refilled(gap, max))) * RefillIntervalMs(max) <= RefillIntervalMs(max)
  {
    RefilledTimesInterval(gap, max);
    RefilledTimesInterval(longer, max);
    WholeTokenArithmetic(tokens, Refilled(gap, max), Refilled(longer, max), RefillIntervalMs(max));
  }

  lemma WholeTokenArithmetic(tokens: real, r: real, q: real, k: real)
    requires k > 0.0 && tokens + r < 1.0
    ensures tokens + q >= 1.0 <==> q * k >= r * k + (1.0 - (tokens + r)) * k
    ensures (1.0 - (tokens + r)) * k > 0.0
    ensures tokens + r >= 0.0 ==> (1.0 - (tokens + r)) * k <= k
  {
    Scale(q, 1.0 - tokens, k);
    assert r * k + (1.0 - (tokens + r)) * k == (1.0 - tokens) * k;
    Scale(1.0 - (tokens + r), 0.0, k);
    Scale(1.0, 1.0 - (tokens + r), k);
  }

  lemma Scale(x: real, y: real, k: real)
    requires k > 0.0
    ensures x * k >= y * k <==> x >= y
    ensures x * k > y * k <==> x > y
  {
  }

  // ---------------------------------------------------------------------
  // The ledger
  // ---------------------------------------------------------------------

  function InWindow(mints: seq<Instant>, now: Instant): seq<Instant> {
    if |mints| == 0 then []
    else if mints[0] >= now - WINDOW_MS then [mints[0]] + InWindow(mints[1..], now)
    else InWindow(mints[1..], now)
  }

  function Insert(mints: seq<Instant>, at: Instant): seq<Instant> {
    if |mints| == 0 || at < mints[0] then [at] + mints else [mints[0]] + Insert(mints[1..], at)
  }

  function Sort(mints: seq<Instant>): seq<Instant> {
    if |mints| == 0 then [] else Insert(Sort(mints[..|mints| - 1]), mints[|mints| - 1])
  }

  function PruneToWindow(mints: seq<Instant>, now: Instant): seq<Instant> {
    Sort(InWindow(mints, now))
  }

  /** The ledger after the mints of `times`, each recorded as it happened. */
  function LedgerAfter(times: seq<Instant>): seq<Instant> {
    if |times| == 0 then []
    else
      var now := times[|times| - 1];
      PruneToWindow(LedgerAfter(times[..|times| - 1]), now) + [now]
  }

  /** The guard's verdict on a ledger. */
  predicate GuardPasses(ledger: seq<Instant>, now: Instant, max: real)
    requires max > 0.0
  {
    Level(PruneToWindow(ledger, now), now, max) >= 1.0
  }

  lemma {:induction false} InsertAtEnd(mints: seq<Instant>, at: Instant)
    requires Ascending(mints + [at])
    ensures Insert(mints, at) == mints + [at]
  {
    if |mints| > 0 {
      assert (mints + [at])[0] <= (mints + [at])[|mints|];
      assert forall i :: 0 <= i < |mints| ==> (mints[1..] + [at])[i] == (mints + [at])[i + 1];
      InsertAtEnd(mints[1..], at);
    }
  }

  lemma {:induction false} SortOfAscending(mints: seq<Instant>)
    requires Ascending(mints)
    ensures Sort(mints) == mints
  {
    if |mints| > 0 {
      var shorter := mints[..|mints| - 1];
      SortOfAscending(shorter);
      assert shorter + [mints[|mints| - 1]] == mints;
      InsertAtEnd(shorter, mints[|mints| - 1]);
    }
  }

  /** How many of the ascending `mints` lie before the window of `now`. */
  function Expired(mints: seq<Instant>, now: Instant): (n: nat)
    ensures n <= |mints|
  {
    if |mints| == 0 || mints[0] >= now - WINDOW_MS then 0 else 1 + Expired(mints[1..], now)
  }

  lemma {:induction false} WindowIsSuffix(mints: seq<Instant>, now: Instant)
    requires Ascending(mints)
    ensures InWindow(mints, now) == mints[Expired(mints, now)..]
    ensures forall i :: 0 <= i < |mints| ==> (mints[i] >= now - WINDOW_MS <==> i >= Expired(mints, now))
  {
    if |mints| > 0 {
      WindowIsSuffix(mints[1..], now);
      if mints[0] >= now - WINDOW_MS {
        assert forall i :: 0 <= i < |mints| ==> mints[i] >= mints[0];
        assert Expired(mints[1..], now) == 0 by {
          if |mints| > 1 { assert mints[1..][0] >= mints[0]; }
        }
      }
    }
  }

  predicate AscendingUpTo(times: seq<Instant>, now: Instant) {
    Ascending(times) && (|times| > 0 ==> times[|times| - 1] <= now)
  }

  /** Windows move forward with the clock. */
  lemma ExpiredGrows(before: seq<Instant>, last: Instant, times: seq<Instant>, now: Instant)
    requires Ascending(times) && before <= times && last <= now
    ensures Expired(before, last) <= Expired(times, now)
  {
    assert Ascending(before);
    WindowIsSuffix(before, last);
    WindowIsSuffix(times, now);
    var keep := Expired(times, now);
    assert keep < |before| ==> before[keep] == times[keep] >= now - WINDOW_MS >= last - WINDOW_MS;
  }

  lemma {:induction false} ExpiredOfSuffix(times: seq<Instant>, e: nat, now: Instant)
    requires e <= Expired(times, now)
    ensures Expired(times[e..], now) == Expired(times, now) - e
  {
    if e == 0 {
      assert times[0..] == times;
    } else {
      ExpiredOfSuffix(times[1..], e - 1, now);
      assert times[1..][e - 1..] == times[e..];
    }
  }

  /** Pruning what is left of an ascending history keeps exactly its window. */
  lemma PruneSuffix(times: seq<Instant>, e: nat, now: Instant)
    requires Ascending(times) && e <= Expired(times, now)
    ensures PruneToWindow(times[e..], now) == times[Expired(times, now)..]
  {
    var rest, keep := times[e..], Expired(times, now);
    AscendingSuffix(times, e);
    AscendingSuffix(times, keep);
    ExpiredOfSuffix(times, e, now);
    WindowIsSuffix(rest, now);
    SuffixOfSuffix(times, e, keep);
    SortOfAscending(times[keep..]);
  }

  lemma AscendingSuffix(times: seq<Instant>, e: nat)
    requires Ascending(times) && e <= |times|
    ensures Ascending(times[e..])
  {
  }

  lemma SuffixOfSuffix(times: seq<Instant>, e: nat, keep: nat)
    requires e <= keep <= |times|
    ensures times[e..][keep - e..] == times[keep..]
  {
  }

  lemma PrefixAscends(times: seq<Instant>)
    requires Ascending(times) && |times| > 0
    ensures AscendingUpTo(times[..|times| - 1], times[|times| - 1])
  {
  }

  /** Although it is pruned on every read and write, what the guard reads is exactly the part of the whole
      mint history that lies in the window. */
  lemma {:induction false} PrunedLedgerIsWindow(times: seq<Instant>, now: Instant)
    requires AscendingUpTo(times, now)
    ensures PruneToWindow(LedgerAfter(times), now) == times[Expired(times, now)..]
  {
    if |times| > 0 {
      var n := |times| - 1;
      var before, last := times[..n], times[n];
      PrefixAscends(times);
      PrunedLedgerIsWindow(before, last);
      var e := Expired(before, last);
      assert LedgerAfter(times) == before[e..] + [last] == times[e..];
      ExpiredGrows(before, last, times, now);
      PruneSuffix(times, e, now);
    }
  }

  // ---------------------------------------------------------------------
  // How many mints the guard lets through
  // ---------------------------------------------------------------------

  /** Every one of these mints passed the guard on the ledger of the mints before it. */
  predicate Guarded(times: seq<Instant>, max: real)
    requires max > 0.0
  {
    && Ascending(times)
    && forall k {:trigger LedgerAfter(times[..k])} ::
      0 <= k < |times| ==> GuardPasses(LedgerAfter(times[..k]), times[k], max)
  }

  /** What the guard saw at mint `m` is the window of the mints before it. */
  lemma GuardSawWindow(times: seq<Instant>, max: real, m: nat)
    requires max > 0.0 && Guarded(times, max) && m < |times|
    ensures Level(times[Expired(times[..m], times[m])..m], times[m], max) >= 1.0
  {
    var before, e := times[..m], Expired(times[..m], times[m]);
    AscendingSlice(times, 0, m);
    assert before == times[0..m];
    PrunedLedgerIsWindow(before, times[m]);
    assert GuardPasses(LedgerAfter(before), times[m], max);
    assert before[e..] == times[e..m];
  }

  /** Seen from any later window, the guard's verdict at each mint still stands. */
  lemma GuardStillStands(times: seq<Instant>, max: real, from: nat, m: nat)
    requires max > 0.0 && Guarded(times, max) && from <= m < |times|
    requires from >= Expired(times[..m], times[m])
    ensures Level(times[from..m], times[m], max) >= 1.0
  {
    var e := Expired(times[..m], times[m]);
    GuardSawWindow(times, max, m);
    AscendingSlice(times, e, m);
    assert times[e..from] + times[from..m] == times[e..m];
    DroppingHistoryNeverLowers(times[e..from], times[from..m], times[m], max);
  }

  /** The window of mint `m` opens no earlier than that of any mint before it. */
  lemma EarlierWindowsOpenEarlier(times: seq<Instant>, k: nat, m: nat)
    requires Ascending(times) && k <= m < |times|
    ensures Expired(times[..k], times[k]) <= Expired(times[..m], times[m])
  {
    ExpiredGrows(times[..k], times[k], times[..m], times[m]);
  }

  lemma GainSinceLast(seen: seq<Instant>, at: Instant, max: real)
    requires max > 0.0 && |seen| > 0 && Ascending(seen) && seen[|seen| - 1] <= at
    ensures Level(seen, at, max) <= Simulate(seen, max).tokens + Refilled(at - seen[|seen| - 1], max)
  {
    CursorIsLastMint(seen, max);
    SimulateInRange(seen, max);
    LevelPast(Simulate(seen, max), at, at - seen[|seen| - 1], max);
  }

  /** One more mint: the bucket started at `from` loses a token and gains what flowed back since the last. */
  lemma OneMoreMint(times: seq<Instant>, max: real, from: nat, m: nat)
    requires max > 0.0 && Guarded(times, max) && from <= m < |times|
    requires from >= Expired(times[..m], times[m])
    ensures Simulate(times[from..m + 1], max).tokens == Level(times[from..m], times[m], max) - 1.0
    ensures from < m ==> Level(times[from..m], times[m], max) <=
                           Simulate(times[from..m], max).tokens + Refilled(times[m] - times[m - 1], max)
  {
    GuardStillStands(times, max, from, m);
    assert times[from..m + 1][..m - from] == times[from..m];
    if from < m {
      AscendingSlice(times, from, m);
      assert times[from..m][m - from - 1] == times[m - 1];
      GainSinceLast(times[from..m], times[m], max);
    }
  }

  /** After mint `m`, a bucket started at `from` has been charged for every mint from `i` on. */
  lemma {:induction false} ChargedForEachMint(times: seq<Instant>, max: real, from: nat, i: nat, m: nat)
    requires max > 0.0 && Guarded(times, max) && from <= i <= m < |times|
    requires from >= Expired(times[..m], times[m])
    ensures Simulate(times[from..m + 1], max).tokens <=
              max - 1.0 + Refilled(times[m] - times[i], max) - (m - i) as real
  {
    OneMoreMint(times, max, from, m);
    LevelInRange(times[from..m], times[m], max);
    if i == m {
      RefilledTimesInterval(0.0, max);
    } else {
      EarlierWindowsOpenEarlier(times, m - 1, m);
      ChargedForEachMint(times, max, from, i, m - 1);
      RefilledAdds(times[m] - times[m - 1], times[m - 1] - times[i], max);
    }
  }

  lemma StretchLiesInWindow(times: seq<Instant>, i: nat, j: nat)
    requires Ascending(times) && i <= j < |times| && times[j] - times[i] <= WINDOW_MS
    ensures Expired(times[..j], times[j]) <= i
  {
    WindowIsSuffix(times[..j], times[j]);
    assert i < j ==> times[..j][i] >= times[j] - WINDOW_MS;
  }

  /** Any stretch of time no longer than the window holds at most `max` mints plus what refills meanwhile. */
  lemma MintsInAnyStretch(times: seq<Instant>, max: real, i: nat, j: nat)
    requires max > 0.0 && Guarded(times, max) && i <= j < |times|
    requires times[j] - times[i] <= WINDOW_MS
    ensures (j - i + 1) as real <= max + (times[j] - times[i]) * max / WINDOW_MS
  {
    var from := Expired(times[..j], times[j]);
    StretchLiesInWindow(times, i, j);
    ChargedForEachMint(times, max, from, i, j);
    SimulateInRange(times[from..j + 1], max);
  }

  lemma ShareOfWindow(gap: real, max: real)
    requires max > 0.0 && gap <= WINDOW_MS
    ensures gap * max / WINDOW_MS <= max
  {
    Scale(WINDOW_MS, gap, max);
  }

  /** Hence at most twice the capacity in any seven days. */
  lemma AtMostTwiceCapacityPerWindow(times: seq<Instant>, max: real, i: nat, j: nat)
    requires max > 0.0 && Guarded(times, max) && i <= j < |times|
    requires times[j] - times[i] <= WINDOW_MS
    ensures (j - i + 1) as real <= 2.0 * max
  {
    MintsInAnyStretch(times, max, i, j);
    ShareOfWindow(times[j] - times[i], max);
  }

  lemma SimulateStep(mints: seq<Instant>, at: Instant, max: real)
    requires max > 0.0
    ensures Simulate(mints + [at], max) == Spend(Simulate(mints, max), at, max)
  {
    assert (mints + [at])[..|mints|] == mints;
  }

  const HALF_WINDOW: real := WINDOW_MS / 2.0

  lemma HalfWindowRefillsOne(gap: real)
    requires gap == HALF_WINDOW
    ensures Refilled(gap, 2.0) == 1.0
  {
  }

  lemma DrainedHistory()
    ensures Simulate([0.0, 0.0, HALF_WINDOW], 2.0) == Bucket(0.0, Some(HALF_WINDOW))
  {
    SimulateStep([], 0.0, 2.0);
    SimulateStep([0.0], 0.0, 2.0);
    SimulateStep([0.0, 0.0], HALF_WINDOW, 2.0);
    assert [] + [0.0] == [0.0] && [0.0] + [0.0] == [0.0, 0.0] && [0.0, 0.0] + [HALF_WINDOW] == [0.0, 0.0, HALF_WINDOW];
    HalfWindowRefillsOne(HALF_WINDOW - 0.0);
  }

  lemma PrunedHistory(now: Instant)
    requires now == WINDOW_MS + 1.0
    ensures PruneToWindow([0.0, 0.0, HALF_WINDOW], now) == [HALF_WINDOW]
    ensures Simulate([HALF_WINDOW], 2.0) == Bucket(1.0, Some(HALF_WINDOW))
  {
    var times := [0.0, 0.0, HALF_WINDOW];
    assert times[1..] == [0.0, HALF_WINDOW] && [0.0, HALF_WINDOW][1..] == [HALF_WINDOW] && [HALF_WINDOW][1..] == [];
    assert InWindow([HALF_WINDOW], now) == [HALF_WINDOW];
    assert InWindow([0.0, HALF_WINDOW], now) == [HALF_WINDOW];
    SortOfAscending([HALF_WINDOW]);
    SimulateStep([], HALF_WINDOW, 2.0);
    assert [] + [HALF_WINDOW] == [HALF_WINDOW];
  }

  /** Dropping history can raise the level: two mints just outside the window still weigh on one inside it. */
  lemma PruningCanRaiseTheLevel()
    ensures var times, now := [0.0, 0.0, HALF_WINDOW], WINDOW_MS + 1.0;
            Level(times, now, 2.0) < Level(PruneToWindow(times, now), now, 2.0)
  {
    var now := WINDOW_MS + 1.0;
    DrainedHistory();
    PrunedHistory(now);
    LevelPast(Bucket(0.0, Some(HALF_WINDOW)), now, HALF_WINDOW + 1.0, 2.0);
    LevelPast(Bucket(1.0, Some(HALF_WINDOW)), now, HALF_WINDOW + 1.0, 2.0);
    HalfWindowRefillsOne(HALF_WINDOW);
    RefilledAdds(HALF_WINDOW, 1.0, 2.0);
    assert Refilled(1.0, 2.0) < 1.0 / 10.0;
  }

  // ---------------------------------------------------------------------
  // What the guard promises a caller
  // ---------------------------------------------------------------------

  lemma {:induction false} EachMintCostsAtMostOne(mints: seq<Instant>, max: real)
    requires max > 0.0
    ensures Simulate(mints, max).tokens >= max - |mints| as real
  {
    if |mints| > 0 {
      var shorter := mints[..|mints| - 1];
      EachMintCostsAtMostOne(shorter, max);
      SimulateInRange(shorter, max);
      RefillGrows(Simulate(shorter, max), mints[|mints| - 1], max);
    }
  }

  /** With fewer mints than the capacity there is always a token. */
  lemma FewMintsLeaveAToken(mints: seq<Instant>, now: Instant, max: real)
    requires max > 0.0 && |mints| as real <= max - 1.0
    ensures Level(mints, now, max) >= 1.0
  {
    EachMintCostsAtMostOne(mints, max);
    SimulateInRange(mints, max);
    RefillGrows(Simulate(mints, max), now, max);
  }

  /** Without a token, the next one is less than a refill interval away, or just that. */
  lemma NextTokenIsSoon(mints: seq<Instant>, now: Instant, max: real)
    requires max > 0.0 && Level(mints, now, max) < 1.0
    ensures now < NextTokenAt(mints, now, max) <= now + RefillIntervalMs(max)
  {
    var level := Level(mints, now, max);
    LevelInRange(mints, now, max);
    RefilledPerInterval(0.0, max);
    WholeTokenArithmetic(level, 0.0, 0.0, RefillIntervalMs(max));
    assert level + 0.0 == level;
  }

  /** No mint is recorded ahead of `now`, and none leaves the window until `later`. */
  predicate WindowStays(ledger: seq<Instant>, now: Instant, later: Instant) {
    now <= later && AscendingUpTo(PruneToWindow(ledger, now), now)
    && PruneToWindow(ledger, later) == PruneToWindow(ledger, now)
  }

  lemma EmptyIsFull(now: Instant, max: real)
    requires max > 0.0
    ensures Level([], now, max) == max
  {
  }

  /** While the window stays as it is, a refused mint is let through exactly from the reported instant on. */
  lemma RefusalEndsExactly(ledger: seq<Instant>, now: Instant, later: Instant, max: real)
    requires max >= 1.0 && WindowStays(ledger, now, later)
    requires Level(PruneToWindow(ledger, now), now, max) < 1.0
    ensures Level(PruneToWindow(ledger, later), later, max) >= 1.0
        <==> later >= NextTokenAt(PruneToWindow(ledger, now), now, max)
  {
    var mints := PruneToWindow(ledger, now);
    EmptyIsFull(now, max);
    assert mints != [];
    NextTokenTimeIsExact(mints, now, max, later);
  }

  /** While the window stays as it is, the ledger lets a mint through exactly from `at` on. */
  ghost predicate RefusedUntil(ledger: seq<Instant>, now: Instant, max: real, at: Instant)
    requires max > 0.0
  {
    forall later: Instant :: WindowStays(ledger, now, later) ==>
      (Level(PruneToWindow(ledger, later), later, max) >= 1.0 <==> later >= at)
  }

  lemma RefusalEnds(ledger: seq<Instant>, now: Instant, max: real)
    requires max >= 1.0 && Level(PruneToWindow(ledger, now), now, max) < 1.0
    ensures RefusedUntil(ledger, now, max, NextTokenAt(PruneToWindow(ledger, now), now, max))
  {
    forall later: Instant | WindowStays(ledger, now, later)
      ensures Level(PruneToWindow(ledger, later), later, max) >= 1.0
          <==> later >= NextTokenAt(PruneToWindow(ledger, now), now, max)
    {
      RefusalEndsExactly(ledger, now, later, max);
    }
  }

  // ---------------------------------------------------------------------
  // The guard and the recorder
  // ---------------------------------------------------------------------

  datatype Status = Status(lastMintAt: Option<Instant>, windowCount: nat, tokensAvailable: Option<real>,
                           readError: bool)

  datatype Refusal = BudgetExhausted(nextTokenAt: Instant)

  function RoundTokens(tokens: real): real {
    (tokens * 100.0 + 0.5).Floor as real / 100.0
  }

  /** The level is reported to the nearest hundredth of a token, halves upwards. */
  lemma RoundsToHundredths(tokens: real)
    ensures tokens - 0.005 < RoundTokens(tokens) <= tokens + 0.005
    ensures (RoundTokens(tokens) * 100.0).Floor as real == RoundTokens(tokens) * 100.0
  {
    assert RoundTokens(tokens) * 100.0 == (tokens * 100.0 + 0.5).Floor as real;
  }

  function StatusOf(mints: seq<Instant>, now: Instant, max: real): Status
    requires max > 0.0
  {
    Status(if |mints| == 0 then None else Some(mints[|mints| - 1]), |mints|,
           Some(RoundTokens(Level(mints, now, max))), false)
  }

  /** What is reported of a ledger: how many mints it holds, the last of them, and the level to within half a
      hundredth. */
  lemma StatusTells(mints: seq<Instant>, now: Instant, max: real)
    requires max > 0.0
    ensures var status := StatusOf(mints, now, max);
            && status.windowCount == |mints| && !status.readError
            && (status.lastMintAt.None? <==> mints == [])
            && (mints != [] ==> status.lastMintAt == Some(mints[|mints| - 1]))
            && status.tokensAvailable.Some?
            && Level(mints, now, max) - 0.005 < status.tokensAvailable.value <= Level(mints, now, max) + 0.005
  {
    RoundsToHundredths(Level(mints, now, max));
  }

  class MintLog {
    var ledger: seq<Instant>
    var lastStatus: Status

    constructor ()
      ensures ledger == LedgerAfter([]) && lastStatus == Status(None, 0, None, false)
    {
      ledger, lastStatus := [], Status(None, 0, None, false);
    }

    /** Refuses exactly when the guard fails on the stored ledger; a read error lets the mint through. */
    method AssertMintWithinWeeklyBudget(now: Instant, max: real, readable: bool) returns (r: Result<(), Refusal>)
      requires max > 0.0
      modifies this`lastStatus
      ensures r.Ok? <==> !readable || GuardPasses(ledger, now, max)
      ensures r.Ok? <==> !readable || Level(PruneToWindow(ledger, now), now, max) >= 1.0
      ensures |PruneToWindow(ledger, now)| as real <= max - 1.0 ==> r.Ok?
      ensures r.Err? ==> now < r.error.nextTokenAt <= now + RefillIntervalMs(max)
      ensures r.Err? && max >= 1.0 ==> RefusedUntil(ledger, now, max, r.error.nextTokenAt)
      ensures lastStatus == if readable then StatusOf(PruneToWindow(ledger, now), now, max)
                            else old(lastStatus).(readError := true)
    {
      if !readable {
        lastStatus := lastStatus.(readError := true);
        return Ok(());
      }
      var mints := PruneToWindow(ledger, now);
      var tokens := TokensAvailable(mints, now, max);
      var lastMintAt := if |mints| == 0 then None else Some(mints[|mints| - 1]);
      lastStatus := Status(lastMintAt, |mints|, Some(RoundTokens(tokens)), false);
      if tokens < 1.0 {
        NextTokenIsSoon(mints, now, max);
        if max >= 1.0 {
          RefusalEnds(ledger, now, max);
        }
        if |mints| as real <= max - 1.0 {
          FewMintsLeaveAToken(mints, now, max);
        }
        return Err(BudgetExhausted(WholeAt(tokens, now, max)));
      }
      return Ok(());
    }

    /** Appends the mint to the pruned ledger, whatever was stored; an I/O error changes nothing. So a ledger that
        holds every mint so far goes on to hold this one. */
    method RecordSuccessfulMint(now: Instant, max: real, stored: bool)
      requires max > 0.0
      modifies this
      ensures ledger == if stored then PruneToWindow(old(ledger), now) + [now] else old(ledger)
      ensures forall times :: stored && old(ledger) == LedgerAfter(times) ==> ledger == LedgerAfter(times + [now])
      ensures lastStatus == if stored then StatusOf(PruneToWindow(old(ledger), now) + [now], now, max)
                            else old(lastStatus)
    {
      assert forall times: seq<Instant> :: (times + [now])[..|times|] == times;
      if stored {
        var mints := PruneToWindow(ledger, now) + [now];
        ledger := mints;
        var tokens := TokensAvailable(mints, now, max);
        lastStatus := Status(Some(now), |mints|, Some(RoundTokens(tokens)), false);
      }
    }
  }
}
