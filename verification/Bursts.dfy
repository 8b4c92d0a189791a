/**
 The rate rule that decides when a repeated fault is news: ten of the same fault
 inside eight minutes (internal/daemon/faults.go). `Scan` is what the tally keeps per
 fault; the theorem says what the number of bursts it reports means.
 */
module Bursts {

  const BURST_SIZE: nat := 10
  const BURST_WINDOW: int := 480_000_000_000

  /** What one fault's entry remembers: the last occurrences since the last burst, and
      the number of bursts. */
  datatype Run = Run(recent: seq<int>, bursts: nat)

  /** The window after one more occurrence, before the burst decision. */
  function Push(recent: seq<int>, at: int): (r: seq<int>)
    ensures r != []
  {
    var r := recent + [at];
    if |r| > BURST_SIZE then r[1..] else r
  }

  predicate Completes(r: seq<int>, at: int)
    requires r != []
  {
    !(|r| < BURST_SIZE || at - r[0] > BURST_WINDOW)
  }

  function After(run: Run, at: int): Run {
    var r := Push(run.recent, at);
    if Completes(r, at) then Run([], run.bursts + 1) else Run(r, run.bursts)
  }

  /** The entry after the first `n` occurrences. */
  function Scan(times: seq<int>, n: nat): Run
    requires n <= |times|
  {
    if n == 0 then Run([], 0) else After(Scan(times, n - 1), times[n - 1])
  }

  function Entry(times: seq<int>): Run {
    Scan(times, |times|)
  }

  lemma {:induction false} ScanIgnoresLater(times: seq<int>, at: int, n: nat)
    requires n <= |times|
    ensures Scan(times + [at], n) == Scan(times, n)
  {
    if n > 0 {
      ScanIgnoresLater(times, at, n - 1);
    }
  }

  lemma EntryAfter(times: seq<int>, at: int)
    ensures Entry(times + [at]) == After(Entry(times), at)
  {
    ScanIgnoresLater(times, at, |times|);
  }

  // ----- what the count means

  /** Ten consecutive occurrences starting at index `s` that span at most the window. */
  predicate Fast(times: seq<int>, s: nat) {
    s + BURST_SIZE <= |times| && times[s + BURST_SIZE - 1] - times[s] <= BURST_WINDOW
  }

  /** Disjoint fast runs within the first `n` occurrences, given by their first indices
      in order. */
  predicate Disjoint(times: seq<int>, n: nat, starts: seq<nat>) {
    && (forall i :: 0 <= i < |starts| ==> starts[i] + BURST_SIZE <= n && Fast(times, starts[i]))
    && (forall i, j :: 0 <= i < j < |starts| ==> starts[i] + BURST_SIZE <= starts[j])
  }

  /** On times that never go back, a fast run is one whose occurrences all fall within the
      window of each other. */
  lemma FastMeansAllWithinWindow(times: seq<int>, s: nat)
    requires forall i, j :: 0 <= i <= j < |times| ==> times[i] <= times[j]
    requires s + 10 <= |times|
    ensures Fast(times, s) <==> forall i, j :: s <= i <= j < s + 10 ==> times[j] - times[i] <= 480_000_000_000
  {
    if Fast(times, s) {
      forall i, j | s <= i <= j < s + BURST_SIZE
        ensures times[j] - times[i] <= BURST_WINDOW
      {
        assert times[s] <= times[i] && times[j] <= times[s + BURST_SIZE - 1];
      }
    }
  }

  /** Where the current run begins: just past the last reported burst. */
  ghost function Base(times: seq<int>, n: nat): nat
    requires n <= |times|
  {
    if n == 0 then 0 else BaseAfter(Scan(times, n - 1), Base(times, n - 1), times[n - 1], n)
  }

  ghost function BaseAfter(before: Run, base: nat, at: int, n: nat): nat {
    if Completes(Push(before.recent, at), at) then n else base
  }

  /** `recent` holds the latest of the first `n` occurrences, back to `base` but no more than
      ten of them. */
  ghost predicate IsTail(times: seq<int>, n: nat, recent: seq<int>, base: nat)
    requires n <= |times|
  {
    && base <= n
    && |recent| == (if n - base < BURST_SIZE then n - base else BURST_SIZE)
    && forall i :: 0 <= i < |recent| ==> recent[i] == times[n - |recent| + i]
  }

  lemma PushKeepsTail(times: seq<int>, n: nat, recent: seq<int>, base: nat)
    requires n < |times| && IsTail(times, n, recent, base)
    ensures IsTail(times, n + 1, Push(recent, times[n]), base)
  {
  }

  lemma EmptyTail(times: seq<int>, n: nat)
    requires n <= |times|
    ensures IsTail(times, n, [], n)
  {
  }

  lemma AfterKeepsTail(times: seq<int>, n: nat, before: Run, base: nat)
    requires 0 < n <= |times| && IsTail(times, n - 1, before.recent, base)
    ensures IsTail(times, n, After(before, times[n - 1]).recent, BaseAfter(before, base, times[n - 1], n))
  {
    hide IsTail;
    PushKeepsTail(times, n - 1, before.recent, base);
    EmptyTail(times, n);
  }

  lemma {:induction false} RecentIsTail(times: seq<int>, n: nat)
    requires n <= |times|
    ensures IsTail(times, n, Scan(times, n).recent, Base(times, n))
  {
    hide IsTail, After, BaseAfter;
    if n == 0 {
      EmptyTail(times, n);
    } else {
      RecentIsTail(times, n - 1);
      AfterKeepsTail(times, n, Scan(times, n - 1), Base(times, n - 1));
    }
  }

  lemma {:induction false} BaseMovesWithBursts(times: seq<int>, n: nat)
    requires n <= |times|
    ensures Base(times, n) == 0 <==> Scan(times, n).bursts == 0
  {
    if n > 0 {
      hide Push, Completes;
      BaseMovesWithBursts(times, n - 1);
    }
  }

  lemma CompletesWhenFast(times: seq<int>, n: nat, pushed: seq<int>, base: nat)
    requires 0 < n <= |times| && pushed != [] && IsTail(times, n, pushed, base)
    ensures Completes(pushed, times[n - 1]) <==> base + BURST_SIZE <= n && Fast(times, n - BURST_SIZE)
  {
  }

  /** The scan's standing after `n` occurrences, as two numbers. */
  datatype Standing = Standing(bursts: nat, base: nat)

  ghost function StandingAt(times: seq<int>, n: nat): Standing
    requires n <= |times|
  {
    Standing(Scan(times, n).bursts, Base(times, n))
  }

  ghost predicate Follows(times: seq<int>, n: nat, before: Standing, after: Standing) {
    if before.base + BURST_SIZE <= n && Fast(times, n - BURST_SIZE)
    then after == Standing(before.bursts + 1, n)
    else after == before
  }

  /** The step of the scan, in terms of positions: a burst is reported exactly when a fast
      run that starts at or after the base ends here. */
  lemma StandingStep(times: seq<int>, n: nat)
    requires 0 < n <= |times|
    ensures Follows(times, n, StandingAt(times, n - 1), StandingAt(times, n))
    ensures StandingAt(times, n - 1).base == 0 <==> StandingAt(times, n - 1).bursts == 0
    ensures StandingAt(times, n - 1).base <= n - 1
  {
    hide Fast, Completes, Push;
    RecentIsTail(times, n - 1);
    BaseMovesWithBursts(times, n - 1);
    var recent, base := Scan(times, n - 1).recent, Base(times, n - 1);
    PushKeepsTail(times, n - 1, recent, base);
    CompletesWhenFast(times, n, Push(recent, times[n - 1]), base);
  }

  /** No packing beats the count, and one that equals it ends no earlier than the base. */
  ghost predicate Unbeaten(starts: seq<nat>, standing: Standing) {
    && |starts| <= standing.bursts
    && (starts != [] && |starts| == standing.bursts ==> standing.base <= starts[|starts| - 1] + BURST_SIZE)
  }

  /** The exchange step: a packing whose last run ends at `n`, given that the rest of it does
      not beat the standing before `n`. */
  lemma LastRunExchange(times: seq<int>, n: nat, starts: seq<nat>, before: Standing, after: Standing)
    requires 0 < n <= |times| && Disjoint(times, n, starts) && starts != []
    requires starts[|starts| - 1] + BURST_SIZE == n
    requires before.base == 0 <==> before.bursts == 0
    requires Follows(times, n, before, after) && before.base <= n
    requires Unbeaten(starts[..|starts| - 1], before)
    ensures Unbeaten(starts, after)
  {
    hide Fast;
    var init := starts[..|starts| - 1];
    if init != [] {
      assert init[|init| - 1] + BURST_SIZE <= starts[|starts| - 1];
    }
  }

  lemma StaysUnbeaten(times: seq<int>, n: nat, starts: seq<nat>, before: Standing, after: Standing)
    requires Follows(times, n, before, after) && Unbeaten(starts, before)
    requires starts != [] && starts[|starts| - 1] + BURST_SIZE < n
    ensures Unbeaten(starts, after)
  {
    hide Fast;
  }

  /** A packing within `n` occurrences is one within fewer, but perhaps for its last run. */
  lemma PackingShrinks(times: seq<int>, n: nat, starts: seq<nat>)
    requires Disjoint(times, n, starts) && starts != []
    ensures var last := starts[|starts| - 1] + BURST_SIZE;
            (&& 0 < last <= n && (last < n ==> Disjoint(times, n - 1, starts))
             && (last == n ==> Disjoint(times, n - 1, starts[..|starts| - 1])))
  {
    hide Fast;
    var last := starts[|starts| - 1];
    forall i | 0 <= i < |starts| - 1 ensures starts[i] + BURST_SIZE <= last {
    }
  }

  lemma {:induction false} NoPackingBeatsScan(times: seq<int>, n: nat, starts: seq<nat>)
    requires n <= |times| && Disjoint(times, n, starts)
    ensures Unbeaten(starts, StandingAt(times, n))
    decreases n
  {
    if starts != [] {
      hide StandingAt, Unbeaten, Disjoint, Follows;
      PackingShrinks(times, n, starts);
      var before, after := StandingAt(times, n - 1), StandingAt(times, n);
      StandingStep(times, n);
      if starts[|starts| - 1] + BURST_SIZE < n {
        NoPackingBeatsScan(times, n - 1, starts);
        StaysUnbeaten(times, n, starts, before, after);
      } else {
        NoPackingBeatsScan(times, n - 1, starts[..|starts| - 1]);
        LastRunExchange(times, n, starts, before, after);
      }
    }
  }

  /** A packing that attains the count and lies before the base. */
  ghost predicate Attains(times: seq<int>, n: nat, starts: seq<nat>, standing: Standing) {
    && Disjoint(times, n, starts)
    && |starts| == standing.bursts
    && forall i :: 0 <= i < |starts| ==> starts[i] + BURST_SIZE <= standing.base
  }

  lemma PackingExtends(times: seq<int>, n: nat, starts: seq<nat>, before: Standing, after: Standing)
    returns (longer: seq<nat>)
    requires 0 < n <= |times| && before.base <= n && Follows(times, n, before, after)
    requires Attains(times, n - 1, starts, before)
    ensures Attains(times, n, longer, after)
  {
    hide Fast;
    longer := if after == before then starts else starts + [n - BURST_SIZE];
  }

  lemma {:induction false} ScanIsAPacking(times: seq<int>, n: nat) returns (starts: seq<nat>)
    requires n <= |times|
    ensures Attains(times, n, starts, StandingAt(times, n))
  {
    if n == 0 {
      starts := [];
      assert StandingAt(times, 0) == Standing(0, 0);
    } else {
      hide Attains, StandingAt;
      starts := ScanIsAPacking(times, n - 1);
      StandingStep(times, n);
      starts := PackingExtends(times, n, starts, StandingAt(times, n - 1), StandingAt(times, n));
    }
  }

  /** The number of bursts reported is the largest number of disjoint fast runs: starting
      again after each report loses none and invents none. */
  lemma BurstsAreOptimal(times: seq<int>)
    ensures exists starts :: Disjoint(times, |times|, starts) && |starts| == Entry(times).bursts
    ensures forall starts :: Disjoint(times, |times|, starts) ==> |starts| <= Entry(times).bursts
  {
    var packing := ScanIsAPacking(times, |times|);
    forall starts | Disjoint(times, |times|, starts) ensures |starts| <= Entry(times).bursts {
      NoPackingBeatsScan(times, |times|, starts);
    }
  }
}
