/**
 The sliding-window rate limiter: one deque of admission times per bucket, pruned on every hit.

 `HitBucket` is one hit on one bucket. The reference is `NaiveRun`, which keeps every admission time
 and counts those inside the window. Clock readings are reals; window lengths are whole seconds.
 */
module RateLimiter {

  datatype Rule = Rule(name: string, maxRequests: int, windowSeconds: int)

  /** The guard of the `rate_limit` dependency lets only such rules reach the limiter. */
  predicate Positive(rule: Rule) {
    rule.maxRequests > 0 && rule.windowSeconds > 0
  }

  datatype Decision = Allowed | Denied(retryAfter: int)

  type BucketKey = (string, string)

  type Buckets = map<BucketKey, seq<real>>

  // ---------------------------------------------------------------- one hit

  /** Drops the leading times at or before the cutoff. */
  function Prune(bucket: seq<real>, cutoff: real): seq<real> {
    if bucket != [] && bucket[0] <= cutoff then Prune(bucket[1..], cutoff) else bucket
  }

  /** Python's `int()` truncates toward zero. */
  function Truncate(x: real): int {
    if x < 0.0 then -((-x).Floor) else x.Floor
  }

  function RetryAfter(oldest: real, rule: Rule, now: real): int {
    var whole := Truncate(rule.windowSeconds as real - (now - oldest));
    if whole > 1 then whole else 1
  }

  function HitBucket(bucket: seq<real>, rule: Rule, now: real): (r: (seq<real>, Decision))
    requires rule.maxRequests > 0
  {
    var kept := Prune(bucket, now - rule.windowSeconds as real);
    if |kept| >= rule.maxRequests then (kept, Denied(RetryAfter(kept[0], rule, now)))
    else (kept + [now], Allowed)
  }

  // ---------------------------------------------------------------- runs of one bucket

  /** What a run of hits leaves and answers. */
  datatype Outcome = Outcome(bucket: seq<real>, decisions: seq<bool>)

  function Run(times: seq<real>, rule: Rule): Outcome
    requires rule.maxRequests > 0
  {
    if times == [] then Outcome([], []) else
      var before := Run(times[..|times| - 1], rule);
      var (bucket, decision) := HitBucket(before.bucket, rule, times[|times| - 1]);
      Outcome(bucket, before.decisions + [decision.Allowed?])
  }

  /** The admission times later than the cutoff. */
  function Recent(admitted: seq<real>, cutoff: real): seq<real> {
    if admitted == [] then [] else
      var later := Recent(admitted[1..], cutoff);
      if admitted[0] > cutoff then [admitted[0]] + later else later
  }

  /** The reference: the whole history of admissions, counted anew on every hit. */
  function NaiveRun(times: seq<real>, rule: Rule): Outcome {
    if times == [] then Outcome([], []) else
      var before := NaiveRun(times[..|times| - 1], rule);
      var now := times[|times| - 1];
      if |Recent(before.bucket, now - rule.windowSeconds as real)| < rule.maxRequests
      then Outcome(before.bucket + [now], before.decisions + [true])
      else Outcome(before.bucket, before.decisions + [false])
  }

  ghost predicate Sorted(s: seq<real>) {
    forall i, j :: 0 <= i < j < |s| ==> s[i] <= s[j]
  }

  lemma {:induction false} PruneIsRecent(s: seq<real>, cutoff: real)
    requires Sorted(s)
    ensures Prune(s, cutoff) == Recent(s, cutoff)
  {
    if s != [] {
      PruneIsRecent(s[1..], cutoff);
      if s[0] > cutoff {
        assert s == [s[0]] + s[1..];
        assert s[1..] != [] ==> s[1..][0] >= s[0];
      }
    }
  }

  lemma {:induction false} PruneTwice(s: seq<real>, c: real, d: real)
    requires c <= d
    ensures Prune(Prune(s, c), d) == Prune(s, d)
  {
    if s != [] && s[0] <= c {
      PruneTwice(s[1..], c, d);
    }
  }

  lemma {:induction false} PruneSnoc(s: seq<real>, x: real, c: real)
    requires x > c
    ensures Prune(s + [x], c) == Prune(s, c) + [x]
  {
    if s == [] {
      assert s + [x] == [x];
    } else {
      assert (s + [x])[1..] == s[1..] + [x];
      if s[0] <= c {
        PruneSnoc(s[1..], x, c);
      }
    }
  }

  lemma {:induction false} NaiveAdmitsInOrder(times: seq<real>, rule: Rule)
    requires Sorted(times)
    ensures Sorted(NaiveRun(times, rule).bucket)
    ensures forall x :: x in NaiveRun(times, rule).bucket ==> x in times
  {
    if times != [] {
      var n := |times| - 1;
      NaiveAdmitsInOrder(times[..n], rule);
      forall x | x in NaiveRun(times[..n], rule).bucket ensures x in times && x <= times[n] {
        var i :| 0 <= i < n && times[..n][i] == x;
        assert times[i] == x;
      }
      var history := NaiveRun(times[..n], rule).bucket;
      assert forall i :: 0 <= i < |history| ==> history[i] in history;
    }
  }

  /** The pruned deque before a hit, cut again, is the history cut at the new cutoff. */
  lemma CutAgain(history: seq<real>, bucket: seq<real>, earlier: real, cutoff: real)
    requires Sorted(history) && bucket == Recent(history, earlier) && earlier <= cutoff
    ensures Prune(bucket, cutoff) == Recent(history, cutoff)
  {
    PruneIsRecent(history, earlier);
    PruneIsRecent(history, cutoff);
    PruneTwice(history, earlier, cutoff);
  }

  lemma RecentSnoc(history: seq<real>, now: real, cutoff: real)
    requires Sorted(history + [now]) && now > cutoff
    ensures Recent(history + [now], cutoff) == Recent(history, cutoff) + [now]
  {
    assert forall i :: 0 <= i < |history| ==> history[i] == (history + [now])[i];
    PruneIsRecent(history, cutoff);
    PruneIsRecent(history + [now], cutoff);
    PruneSnoc(history, now, cutoff);
  }

  lemma NowIsLast(times: seq<real>, rule: Rule)
    requires Sorted(times) && times != []
    ensures Sorted(NaiveRun(times[..|times| - 1], rule).bucket + [times[|times| - 1]])
  {
    var before, now := times[..|times| - 1], times[|times| - 1];
    var history := NaiveRun(before, rule).bucket;
    NaiveAdmitsInOrder(before, rule);
    forall i | 0 <= i < |history| ensures history[i] <= now {
      assert history[i] in history && history[i] in before;
    }
  }

  /** The next hit keeps the deque equal to the recent part of the history. */
  lemma HitAgrees(history: seq<real>, bucket: seq<real>, rule: Rule, now: real)
    requires Positive(rule) && Sorted(history + [now])
    requires |bucket| <= rule.maxRequests
    requires Prune(bucket, now - rule.windowSeconds as real) == Recent(history, now - rule.windowSeconds as real)
    ensures var cutoff := now - rule.windowSeconds as real;
      var admits := |Recent(history, cutoff)| < rule.maxRequests;
      && HitBucket(bucket, rule, now).1.Allowed? == admits
      && HitBucket(bucket, rule, now).0 == Recent(if admits then history + [now] else history, cutoff)
      && |HitBucket(bucket, rule, now).0| <= rule.maxRequests
  {
    var cutoff := now - rule.windowSeconds as real;
    PruneShrinks(bucket, cutoff);
    if |Recent(history, cutoff)| < rule.maxRequests {
      RecentSnoc(history, now, cutoff);
    }
  }

  /** On a clock that does not run backwards, the pruned deque holds exactly the admission times
      inside the window, and every decision is the one the full history gives. */
  lemma {:induction false} PrunedAgreesWithHistory(times: seq<real>, rule: Rule)
    requires Positive(rule) && Sorted(times)
    ensures Run(times, rule).decisions == NaiveRun(times, rule).decisions
    ensures times != [] ==>
      Run(times, rule).bucket
        == Recent(NaiveRun(times, rule).bucket, times[|times| - 1] - rule.windowSeconds as real)
    ensures |Run(times, rule).bucket| <= rule.maxRequests
  {
    if times != [] {
      var n := |times| - 1;
      var before, now := times[..n], times[n];
      var cutoff := now - rule.windowSeconds as real;
      PrunedAgreesWithHistory(before, rule);
      NaiveAdmitsInOrder(before, rule);
      NowIsLast(times, rule);
      var history := NaiveRun(before, rule).bucket;
      if before != [] {
        CutAgain(history, Run(before, rule).bucket, before[n - 1] - rule.windowSeconds as real, cutoff);
      }
      HitAgrees(history, Run(before, rule).bucket, rule, now);
    }
  }

  /** The times of the hits that were let through. */
  function Admitted(times: seq<real>, decisions: seq<bool>): seq<real>
    requires |times| == |decisions|
  {
    if times == [] then [] else
      var n := |times| - 1;
      var before := Admitted(times[..n], decisions[..n]);
      if decisions[n] then before + [times[n]] else before
  }

  lemma {:induction false} HistoryIsAdmitted(times: seq<real>, rule: Rule)
    ensures |NaiveRun(times, rule).decisions| == |times|
    ensures NaiveRun(times, rule).bucket == Admitted(times, NaiveRun(times, rule).decisions)
  {
    if times != [] {
      var n := |times| - 1;
      HistoryIsAdmitted(times[..n], rule);
      assert NaiveRun(times, rule).decisions[..n] == NaiveRun(times[..n], rule).decisions;
    }
  }

  // ---------------------------------------------------------------- the bound, for every window

  /** The number of times in the window of length `length` that starts at `start`, which is included
      on the left (`closedLeft`) or on the right. */
  function CountIn(s: seq<real>, start: real, length: real, closedLeft: bool): nat {
    if s == [] then 0 else
      CountIn(s[..|s| - 1], start, length, closedLeft)
      + if InWindow(s[|s| - 1], start, length, closedLeft) then 1 else 0
  }

  predicate InWindow(x: real, start: real, length: real, closedLeft: bool) {
    if closedLeft then start <= x < start + length else start < x <= start + length
  }

  /** Of any admission and the one `maxRequests` places earlier, one window length lies between. */
  ghost predicate Spaced(s: seq<real>, rule: Rule)
    requires rule.maxRequests > 0
  {
    forall j :: rule.maxRequests <= j < |s| ==> s[j - rule.maxRequests] <= s[j] - rule.windowSeconds as real
  }

  lemma {:induction false} RecentLength(s: seq<real>, cutoff: real)
    requires Sorted(s)
    ensures |Recent(s, cutoff)| <= |s|
    ensures forall i :: |s| - |Recent(s, cutoff)| <= i < |s| ==> s[i] > cutoff
    ensures forall i :: 0 <= i < |s| - |Recent(s, cutoff)| ==> s[i] <= cutoff
  {
    if s != [] {
      RecentLength(s[1..], cutoff);
      assert |s| > 1 ==> s[1..][0] == s[1] && s[0] <= s[1];
      assert forall i :: 1 <= i < |s| ==> s[i] == s[1..][i - 1];
    }
  }

  lemma {:induction false} AdmissionsAreSpaced(times: seq<real>, rule: Rule)
    requires Positive(rule) && Sorted(times)
    ensures Spaced(NaiveRun(times, rule).bucket, rule)
  {
    if times != [] {
      var n := |times| - 1;
      AdmissionsAreSpaced(times[..n], rule);
      NaiveAdmitsInOrder(times[..n], rule);
      RecentLength(NaiveRun(times[..n], rule).bucket, times[n] - rule.windowSeconds as real);
    }
  }

  lemma {:induction false} SpacedWindowsAreBounded(s: seq<real>, rule: Rule, start: real, closedLeft: bool)
    requires Positive(rule) && Sorted(s) && Spaced(s, rule)
    ensures CountIn(s, start, rule.windowSeconds as real, closedLeft) <= rule.maxRequests
  {
    var length := rule.windowSeconds as real;
    if s != [] {
      var n := |s| - 1;
      if !InWindow(s[n], start, length, closedLeft) {
        SpacedWindowsAreBounded(s[..n], rule, start, closedLeft);
      } else if n >= rule.maxRequests {
        var k := n - rule.maxRequests;
        assert s[k] <= s[n] - length;
        CountSplit(s, k + 1, start, length, closedLeft);
        NoneBefore(s[..k + 1], start, length, closedLeft);
      } else {
        CountSplit(s, 0, start, length, closedLeft);
      }
    }
  }

  /** Only the times from position `k` on can be counted beyond those before it. */
  lemma {:induction false} CountSplit(s: seq<real>, k: nat, start: real, length: real, closedLeft: bool)
    requires k <= |s|
    ensures CountIn(s, start, length, closedLeft) <= CountIn(s[..k], start, length, closedLeft) + |s| - k
  {
    if k == |s| {
      assert s[..k] == s;
    } else {
      var n := |s| - 1;
      assert s[..n][..k] == s[..k];
      CountSplit(s[..n], k, start, length, closedLeft);
    }
  }

  lemma {:induction false} NoneBefore(s: seq<real>, start: real, length: real, closedLeft: bool)
    requires forall i :: 0 <= i < |s| ==> !InWindow(s[i], start, length, closedLeft)
    ensures CountIn(s, start, length, closedLeft) == 0
  {
    if s != [] {
      NoneBefore(s[..|s| - 1], start, length, closedLeft);
    }
  }

  /** Wherever a half-open window of the rule's length is placed in time, the limiter lets at most
      `maxRequests` hits inside it through. */
  lemma EveryWindowIsBounded(times: seq<real>, rule: Rule, start: real, closedLeft: bool)
    requires Positive(rule) && Sorted(times)
    ensures var decisions := Run(times, rule).decisions;
      |decisions| == |times| &&
      CountIn(Admitted(times, decisions), start, rule.windowSeconds as real, closedLeft) <= rule.maxRequests
  {
    PrunedAgreesWithHistory(times, rule);
    HistoryIsAdmitted(times, rule);
    NaiveAdmitsInOrder(times, rule);
    AdmissionsAreSpaced(times, rule);
    SpacedWindowsAreBounded(NaiveRun(times, rule).bucket, rule, start, closedLeft);
  }

  // ---------------------------------------------------------------- windows closed at both ends

  function CountClosed(s: seq<real>, start: real, length: real): nat {
    if s == [] then 0 else
      CountClosed(s[..|s| - 1], start, length) + if start <= s[|s| - 1] <= start + length then 1 else 0
  }

  lemma {:induction false} ClosedIsTwoWindows(s: seq<real>, start: real, length: real)
    requires length > 0.0
    ensures CountClosed(s, start, length) <= CountIn(s, start, length, true) + CountIn(s, start, length, false)
  {
    if s != [] {
      ClosedIsTwoWindows(s[..|s| - 1], start, length);
    }
  }

  /** A window closed at both ends holds at most twice `maxRequests` admissions. */
  lemma ClosedWindowIsBounded(times: seq<real>, rule: Rule, start: real)
    requires Positive(rule) && Sorted(times)
    ensures var decisions := Run(times, rule).decisions;
      |decisions| == |times| &&
      CountClosed(Admitted(times, decisions), start, rule.windowSeconds as real) <= 2 * rule.maxRequests
  {
    EveryWindowIsBounded(times, rule, start, true);
    EveryWindowIsBounded(times, rule, start, false);
    ClosedIsTwoWindows(Admitted(times, Run(times, rule).decisions), start, rule.windowSeconds as real);
  }

  function Repeat<T>(x: T, n: nat): (r: seq<T>)
    ensures |r| == n && forall i :: 0 <= i < n ==> r[i] == x
  {
    if n == 0 then [] else Repeat(x, n - 1) + [x]
  }

  /** `maxRequests` hits at 0 and again at the end of the window. */
  function BothEnds(rule: Rule, n: nat): seq<real>
    requires Positive(rule)
  {
    if n == 0 then Repeat(0.0, rule.maxRequests) else BothEnds(rule, n - 1) + [rule.windowSeconds as real]
  }

  lemma RunSnoc(times: seq<real>, now: real, rule: Rule)
    requires rule.maxRequests > 0
    ensures var before := Run(times, rule);
      var (bucket, decision) := HitBucket(before.bucket, rule, now);
      Run(times + [now], rule) == Outcome(bucket, before.decisions + [decision.Allowed?])
  {
    assert (times + [now])[..|times|] == times;
  }

  lemma {:induction false} FirstBurst(rule: Rule, n: nat)
    requires Positive(rule) && n <= rule.maxRequests
    ensures Run(Repeat(0.0, n), rule) == Outcome(Repeat(0.0, n), Repeat(true, n))
  {
    if n > 0 {
      FirstBurst(rule, n - 1);
      RunSnoc(Repeat(0.0, n - 1), 0.0, rule);
    }
  }

  lemma {:induction false} PruneAll(s: seq<real>, c: real)
    requires forall i :: 0 <= i < |s| ==> s[i] <= c
    ensures Prune(s, c) == []
  {
    if s != [] {
      PruneAll(s[1..], c);
    }
  }

  /** A hit that finds every admission expired starts the bucket anew. */
  lemma ExpiredBucket(bucket: seq<real>, rule: Rule, now: real)
    requires Positive(rule) && forall i :: 0 <= i < |bucket| ==> bucket[i] <= now - rule.windowSeconds as real
    ensures HitBucket(bucket, rule, now) == (Repeat(now, 1), Allowed)
  {
    PruneAll(bucket, now - rule.windowSeconds as real);
    assert Repeat(now, 1) == [now];
  }

  /** A hit at the time of all admissions there are joins them. */
  lemma SameInstant(rule: Rule, now: real, n: nat)
    requires Positive(rule) && 0 < n < rule.maxRequests
    ensures HitBucket(Repeat(now, n), rule, now) == (Repeat(now, n + 1), Allowed)
  {
    assert Repeat(now, n)[0] > now - rule.windowSeconds as real;
  }

  /** What the first burst and `n` hits of the second leave. */
  ghost predicate AllPass(times: seq<real>, rule: Rule, bucket: seq<real>)
    requires rule.maxRequests > 0
  {
    Run(times, rule) == Outcome(bucket, Repeat(true, |times|))
  }

  lemma OneMorePasses(times: seq<real>, now: real, rule: Rule, bucket: seq<real>, after: seq<real>)
    requires rule.maxRequests > 0 && AllPass(times, rule, bucket) && HitBucket(bucket, rule, now) == (after, Allowed)
    ensures AllPass(times + [now], rule, after)
  {
    RunSnoc(times, now, rule);
  }

  lemma {:induction false} SecondBurst(rule: Rule, n: nat)
    requires Positive(rule) && 0 < n <= rule.maxRequests
    ensures AllPass(BothEnds(rule, n), rule, Repeat(rule.windowSeconds as real, n))
  {
    var length := rule.windowSeconds as real;
    if n == 1 {
      FirstBurst(rule, rule.maxRequests);
      ExpiredBucket(Repeat(0.0, rule.maxRequests), rule, length);
      OneMorePasses(BothEnds(rule, 0), length, rule, Repeat(0.0, rule.maxRequests), Repeat(length, 1));
    } else {
      SecondBurst(rule, n - 1);
      SameInstant(rule, length, n - 1);
      OneMorePasses(BothEnds(rule, n - 1), length, rule, Repeat(length, n - 1), Repeat(length, n));
    }
  }

  lemma {:induction false} AllAdmitted(times: seq<real>)
    ensures Admitted(times, Repeat(true, |times|)) == times
  {
    if times != [] {
      var n := |times| - 1;
      AllAdmitted(times[..n]);
      assert Repeat(true, n + 1)[..n] == Repeat(true, n);
      assert times == times[..n] + [times[n]];
    }
  }

  lemma {:induction false} CountRepeat(x: real, n: nat, start: real, length: real)
    requires start <= x <= start + length
    ensures CountClosed(Repeat(x, n), start, length) == n
  {
    if n > 0 {
      CountRepeat(x, n - 1, start, length);
      assert Repeat(x, n)[..n - 1] == Repeat(x, n - 1);
    }
  }

  lemma {:induction false} CountBothEnds(rule: Rule, n: nat)
    requires Positive(rule)
    ensures |BothEnds(rule, n)| == rule.maxRequests + n
    ensures CountClosed(BothEnds(rule, n), 0.0, rule.windowSeconds as real) == rule.maxRequests + n
  {
    if n == 0 {
      CountRepeat(0.0, rule.maxRequests, 0.0, rule.windowSeconds as real);
    } else {
      CountBothEnds(rule, n - 1);
      assert BothEnds(rule, n)[..|BothEnds(rule, n)| - 1] == BothEnds(rule, n - 1);
    }
  }

  /** And that many pass, for every positive rule: `maxRequests` hits at 0 and as many one window later. */
  lemma ClosedWindowCanHoldTwice(rule: Rule)
    requires Positive(rule)
    ensures var times := BothEnds(rule, rule.maxRequests);
      var decisions := Run(times, rule).decisions;
      && |decisions| == |times| && Admitted(times, decisions) == times
      && CountClosed(times, 0.0, rule.windowSeconds as real) == 2 * rule.maxRequests
  {
    var times := BothEnds(rule, rule.maxRequests);
    CountBothEnds(rule, rule.maxRequests);
    AllAdmitted(times);
    assert Run(times, rule).decisions == Repeat(true, |times|) by {
      SecondBurst(rule, rule.maxRequests);
    }
  }

  // ---------------------------------------------------------------- waiting

  /** After a denial, a later hit on the same bucket is admitted exactly when the oldest admission
      has left the window; until then nothing else changes the bucket. */
  lemma AdmittedFromExpiryOn(bucket: seq<real>, rule: Rule, now: real, later: real)
    requires Positive(rule) && Sorted(bucket) && |bucket| <= rule.maxRequests
    requires HitBucket(bucket, rule, now).1.Denied? && now <= later
    ensures var kept := HitBucket(bucket, rule, now).0;
      && kept != [] && kept[0] > now - rule.windowSeconds as real
      && (HitBucket(kept, rule, later).1.Allowed? <==> kept[0] + rule.windowSeconds as real <= later)
      && (HitBucket(kept, rule, later).1.Denied? ==> HitBucket(kept, rule, later).0 == kept)
  {
    PruneShrinks(bucket, now - rule.windowSeconds as real);
    var kept := HitBucket(bucket, rule, now).0;
    if kept[0] <= later - rule.windowSeconds as real {
      PruneShrinks(kept[1..], later - rule.windowSeconds as real);
    }
  }

  lemma {:induction false} PruneShrinks(s: seq<real>, c: real)
    ensures |Prune(s, c)| <= |s|
    ensures Prune(s, c) != [] ==> Prune(s, c)[0] > c
  {
    if s != [] && s[0] <= c {
      PruneShrinks(s[1..], c);
    }
  }

  /** Waiting for the advertised `retry_after` is enough exactly when the remaining time is at most
      one second or a whole number of seconds; a fraction above one second is cut off. */
  lemma RetryAfterSufficesIff(bucket: seq<real>, rule: Rule, now: real)
    requires Positive(rule) && Sorted(bucket) && |bucket| <= rule.maxRequests
    requires HitBucket(bucket, rule, now).1.Denied?
    ensures var (kept, decision) := HitBucket(bucket, rule, now);
      kept != [] &&
      var remaining := kept[0] + rule.windowSeconds as real - now;
      && decision.retryAfter >= 1
      && (HitBucket(kept, rule, now + decision.retryAfter as real).1.Allowed?
          <==> remaining <= 1.0 || remaining == remaining.Floor as real)
  {
    var (kept, decision) := HitBucket(bucket, rule, now);
    AdmittedFromExpiryOn(bucket, rule, now, now + decision.retryAfter as real);
  }

  /** The promise fails: with one request a minute, a hit half a second after the first is told to wait 59
      seconds, and a hit exactly then is denied again. */
  lemma WaitingWasTooShort()
    ensures var rule := Rule("auth_login", 1, 60);
      && HitBucket([0.0], rule, 0.5) == ([0.0], Denied(59))
      && Run([0.0, 0.5, 59.5], rule).decisions == [true, false, false]
  {
    var rule := Rule("auth_login", 1, 60);
    assert [0.0] == [] + [0.0] && [0.0, 0.5] == [0.0] + [0.5] && [0.0, 0.5, 59.5] == [0.0, 0.5] + [59.5];
    RunSnoc([], 0.0, rule);
    RunSnoc([0.0], 0.5, rule);
    RunSnoc([0.0, 0.5], 59.5, rule);
  }

  /** On a clock that ticks in whole seconds, `retry_after` is the earliest admitting wait. */
  lemma RetryAfterIsEarliestOnWholeSeconds(bucket: seq<real>, rule: Rule, now: real, wait: nat)
    requires Positive(rule) && Sorted(bucket) && |bucket| <= rule.maxRequests
    requires now == now.Floor as real && forall x :: x in bucket ==> x == x.Floor as real
    requires HitBucket(bucket, rule, now).1.Denied?
    ensures var (kept, decision) := HitBucket(bucket, rule, now);
      HitBucket(kept, rule, now + wait as real).1.Allowed? <==> decision.retryAfter <= wait
  {
    AdmittedFromExpiryOn(bucket, rule, now, now + wait as real);
    var (kept, decision) := HitBucket(bucket, rule, now);
    PruneMembers(bucket, now - rule.windowSeconds as real);
    var oldest, current := kept[0].Floor, now.Floor;
    assert kept[0] in bucket;
    TruncateWhole(rule.windowSeconds as real - (now - kept[0]), rule.windowSeconds - (current - oldest));
    WholeSecondsOrder(oldest, rule.windowSeconds, current, wait);
  }

  lemma TruncateWhole(x: real, k: int)
    requires x == k as real
    ensures Truncate(x) == k
  {
    if x < 0.0 {
      assert -x == (-k) as real;
    }
  }

  lemma WholeSecondsOrder(oldest: int, window: int, now: int, wait: int)
    ensures oldest as real + window as real <= now as real + wait as real <==> window - (now - oldest) <= wait
  {
    assert oldest as real + window as real == (oldest + window) as real;
    assert now as real + wait as real == (now + wait) as real;
  }

  lemma {:induction false} PruneMembers(s: seq<real>, c: real)
    ensures forall x :: x in Prune(s, c) ==> x in s
  {
    if s != [] && s[0] <= c {
      PruneMembers(s[1..], c);
    }
  }

  // ---------------------------------------------------------------- many buckets

  /** A hit under some rule; rules share one limiter, and a bucket belongs to a rule's name and a client. */
  datatype Request = Request(rule: Rule, client: string, now: real)

  function KeyOf(r: Request): BucketKey {
    (r.rule.name, r.client)
  }

  function BucketAt(buckets: Buckets, key: BucketKey): seq<real> {
    if key in buckets then buckets[key] else []
  }

  predicate Serviceable(requests: seq<Request>) {
    forall i :: 0 <= i < |requests| ==> requests[i].rule.maxRequests > 0
  }

  /** A run of hits under any rules, over any keys. */
  function Serve(requests: seq<Request>): (Buckets, seq<bool>)
    requires Serviceable(requests)
  {
    if requests == [] then (map[], []) else
      var (buckets, decisions) := Serve(requests[..|requests| - 1]);
      var r := requests[|requests| - 1];
      var (bucket, decision) := HitBucket(BucketAt(buckets, KeyOf(r)), r.rule, r.now);
      (buckets[KeyOf(r) := bucket], decisions + [decision.Allowed?])
  }

  /** The hits on one bucket. */
  function RequestsFor(requests: seq<Request>, key: BucketKey): seq<Request> {
    if requests == [] then [] else
      var before, r := RequestsFor(requests[..|requests| - 1], key), requests[|requests| - 1];
      if KeyOf(r) == key then before + [r] else before
  }

  /** The decisions on the hits of one bucket. */
  function DecisionsFor(requests: seq<Request>, decisions: seq<bool>, key: BucketKey): seq<bool>
    requires |requests| == |decisions|
  {
    if requests == [] then [] else
      var n := |requests| - 1;
      var before := DecisionsFor(requests[..n], decisions[..n], key);
      if KeyOf(requests[n]) == key then before + [decisions[n]] else before
  }

  /** Hits on a single bucket, each under its own rule. */
  function RunRequests(requests: seq<Request>): Outcome
    requires Serviceable(requests)
  {
    if requests == [] then Outcome([], []) else
      var before, r := RunRequests(requests[..|requests| - 1]), requests[|requests| - 1];
      var (bucket, decision) := HitBucket(before.bucket, r.rule, r.now);
      Outcome(bucket, before.decisions + [decision.Allowed?])
  }

  lemma {:induction false} RequestsForServiceable(requests: seq<Request>, key: BucketKey)
    requires Serviceable(requests)
    ensures Serviceable(RequestsFor(requests, key))
  {
    if requests != [] {
      RequestsForServiceable(requests[..|requests| - 1], key);
    }
  }

  lemma RunRequestsSnoc(requests: seq<Request>, r: Request)
    requires Serviceable(requests) && r.rule.maxRequests > 0
    ensures var before := RunRequests(requests);
      var (bucket, decision) := HitBucket(before.bucket, r.rule, r.now);
      RunRequests(requests + [r]) == Outcome(bucket, before.decisions + [decision.Allowed?])
  {
    assert (requests + [r])[..|requests|] == requests;
  }

  lemma {:induction false} OneDecisionEach(requests: seq<Request>)
    requires Serviceable(requests)
    ensures |Serve(requests).1| == |requests|
  {
    if requests != [] {
      OneDecisionEach(requests[..|requests| - 1]);
    }
  }

  /** Every bucket runs on its own hits alone, with the same decisions, however they are interleaved with
      the hits of other clients and under other rules. */
  lemma {:induction false} BucketsAreIndependent(requests: seq<Request>, key: BucketKey)
    requires Serviceable(requests)
    ensures |Serve(requests).1| == |requests| && Serviceable(RequestsFor(requests, key))
    ensures BucketAt(Serve(requests).0, key) == RunRequests(RequestsFor(requests, key)).bucket
    ensures DecisionsFor(requests, Serve(requests).1, key) == RunRequests(RequestsFor(requests, key)).decisions
  {
    OneDecisionEach(requests);
    RequestsForServiceable(requests, key);
    if requests != [] {
      var n := |requests| - 1;
      BucketsAreIndependent(requests[..n], key);
      assert Serve(requests).1[..n] == Serve(requests[..n]).1;
      if KeyOf(requests[n]) == key {
        RunRequestsSnoc(RequestsFor(requests[..n], key), requests[n]);
      }
    }
  }

  function TimesOf(requests: seq<Request>): seq<real> {
    seq(|requests|, i requires 0 <= i < |requests| => requests[i].now)
  }

  /** So a bucket whose hits all come under one rule is a run of that rule. */
  lemma {:induction false} OneRuleIsRun(requests: seq<Request>, rule: Rule)
    requires rule.maxRequests > 0 && forall i :: 0 <= i < |requests| ==> requests[i].rule == rule
    ensures RunRequests(requests) == Run(TimesOf(requests), rule)
  {
    if requests != [] {
      var n := |requests| - 1;
      OneRuleIsRun(requests[..n], rule);
      assert TimesOf(requests)[..n] == TimesOf(requests[..n]);
    }
  }

  // ---------------------------------------------------------------- the limiter object

  datatype Verdict = Passed | TooManyRequests(retryAfter: int)

  class InMemoryRateLimiter {
    var buckets: Buckets

    constructor ()
      ensures buckets == map[]
    {
      buckets := map[];
    }

    /** With no room in an empty bucket the source fails on `bucket[0]`, hence the requirement. */
    method Hit(rule: Rule, key: string, now: real) returns (allowed: bool, retryAfter: int)
      requires rule.maxRequests > 0
      modifies this
      ensures var (bucket, decision) := HitBucket(BucketAt(old(buckets), (rule.name, key)), rule, now);
        && buckets == old(buckets)[(rule.name, key) := bucket]
        && allowed == decision.Allowed?
        && retryAfter == if allowed then 0 else decision.retryAfter
    {
      var cutoff := now - rule.windowSeconds as real;
      var bucketKey := (rule.name, key);
      var bucket := BucketAt(buckets, bucketKey);
      while bucket != [] && bucket[0] <= cutoff
        invariant Prune(bucket, cutoff) == Prune(BucketAt(old(buckets), bucketKey), cutoff)
        decreases |bucket|
      {
        bucket := bucket[1..];
      }
      if |bucket| >= rule.maxRequests {
        buckets := buckets[bucketKey := bucket];
        var whole := Truncate(rule.windowSeconds as real - (now - bucket[0]));
        return false, if whole > 1 then whole else 1;
      }
      buckets := buckets[bucketKey := bucket + [now]];
      return true, 0;
    }

    /** The request dependency: a disabled limiter or a rule that is not positive checks nothing. */
    method CheckRequest(enabled: bool, rule: Rule, key: string, now: real) returns (verdict: Verdict)
      modifies this
      ensures !enabled || !Positive(rule) ==> verdict == Passed && buckets == old(buckets)
      ensures enabled && Positive(rule) ==>
        var (bucket, decision) := HitBucket(BucketAt(old(buckets), (rule.name, key)), rule, now);
        && buckets == old(buckets)[(rule.name, key) := bucket]
        && verdict == if decision.Allowed? then Passed else TooManyRequests(decision.retryAfter)
    {
      if !enabled {
        return Passed;
      }
      if rule.maxRequests <= 0 || rule.windowSeconds <= 0 {
        return Passed;
      }
      var allowed, retryAfter := Hit(rule, key, now);
      return if allowed then Passed else TooManyRequests(retryAfter);
    }
  }
}
