/**
 Counting the errors a child process repeats (internal/daemon/faults.go). The tally keeps
 a mutable entry per fault; its meaning is stated over the sequence of calls made since
 the last reset. The fault key is taken as given: the expressions that compute it from a
 log line are not modelled.
 */
module Faults {
  import opened Bursts
  import Strings

  /** One call to add: the reduced message, when it happened, and how that is written. */
  datatype Call = Call(source: string, key: string, at: int, stamp: string)

  datatype CoreFault = CoreFault(source: string, message: string, count: nat, first: string, last: string)

  datatype Seen = Seen(nth: nat, burst: bool, span: int)

  // ----- the calls, read directly

  function Calls(calls: seq<Call>, key: string): seq<Call> {
    if calls == [] then []
    else
      var rest := Calls(calls[..|calls| - 1], key);
      var c := calls[|calls| - 1];
      if c.key == key then rest + [c] else rest
  }

  function Times(calls: seq<Call>): (r: seq<int>)
    ensures |r| == |calls|
    ensures forall i :: 0 <= i < |r| ==> r[i] == calls[i].at
  {
    seq(|calls|, i requires 0 <= i < |calls| => calls[i].at)
  }

  function Keys(calls: seq<Call>): set<string> {
    if calls == [] then {} else Keys(calls[..|calls| - 1]) + {calls[|calls| - 1].key}
  }

  /** The faults being counted: the first `limit` different ones. */
  function Admitted(calls: seq<Call>, limit: nat): set<string> {
    if calls == [] then {}
    else
      var before := Admitted(calls[..|calls| - 1], limit);
      if |before| >= limit then before else before + {calls[|calls| - 1].key}
  }

  /** Calls turned away because the table was full. */
  function Missed(calls: seq<Call>, limit: nat): nat {
    if calls == [] then 0
    else
      var before := calls[..|calls| - 1];
      Missed(before, limit) + if calls[|calls| - 1].key in Admitted(calls, limit) then 0 else 1
  }

  lemma {:induction false} AdmittedUntilFull(calls: seq<Call>, limit: nat)
    ensures Admitted(calls, limit) <= Keys(calls)
    ensures |Admitted(calls, limit)| <= limit
    ensures |Keys(calls)| <= limit ==> Admitted(calls, limit) == Keys(calls)
    ensures |Keys(calls)| > limit ==> |Admitted(calls, limit)| == limit
  {
    if calls != [] {
      var before, c := calls[..|calls| - 1], calls[|calls| - 1];
      AdmittedUntilFull(before, limit);
      if c.key in Keys(before) {
        assert Keys(calls) == Keys(before);
      }
    }
  }

  /** A fault is counted exactly when fewer than `limit` different faults had been seen
      before one of its calls; it is then counted from its very first call. */
  lemma {:induction false} AdmittedMeans(calls: seq<Call>, limit: nat, key: string)
    ensures key in Admitted(calls, limit) <==>
            exists i :: EarlyCall(calls, limit, key, i)
  {
    if calls != [] {
      var n := |calls| - 1;
      var before, c := calls[..n], calls[n];
      AdmittedMeans(before, limit, key);
      AdmittedUntilFull(before, limit);
      assert EarlyCall(calls, limit, key, n) <==> c.key == key && |Keys(before)| < limit;
      assert forall i :: 0 <= i < n ==> calls[..i] == before[..i];
      assert forall i :: 0 <= i < n ==> (EarlyCall(calls, limit, key, i) <==> EarlyCall(before, limit, key, i));
    }
  }

  /** A call for `key` made when fewer than `limit` different faults had been seen. */
  ghost predicate EarlyCall(calls: seq<Call>, limit: nat, key: string, i: nat) {
    i < |calls| && calls[i].key == key && |Keys(calls[..i])| < limit
  }

  /** How many calls carry a key in `keys`. */
  function Carrying(calls: seq<Call>, keys: set<string>): nat {
    if calls == [] then 0
    else Carrying(calls[..|calls| - 1], keys) + if calls[|calls| - 1].key in keys then 1 else 0
  }

  ghost function TotalCount(calls: seq<Call>, keys: set<string>): nat {
    if keys == {} then 0
    else var key :| key in keys; |Calls(calls, key)| + TotalCount(calls, keys - {key})
  }

  lemma {:induction false} CarryingSplits(calls: seq<Call>, keys: set<string>, key: string)
    requires key in keys
    ensures Carrying(calls, keys) == |Calls(calls, key)| + Carrying(calls, keys - {key})
  {
    if calls != [] {
      CarryingSplits(calls[..|calls| - 1], keys, key);
    }
  }

  lemma {:induction false} TotalIsCarrying(calls: seq<Call>, keys: set<string>)
    ensures TotalCount(calls, keys) == Carrying(calls, keys)
  {
    if keys == {} {
      NoneCarryNothing(calls);
    } else {
      var key :| key in keys && TotalCount(calls, keys) == |Calls(calls, key)| + TotalCount(calls, keys - {key});
      CarryingSplits(calls, keys, key);
      TotalIsCarrying(calls, keys - {key});
    }
  }

  lemma {:induction false} NoneCarryNothing(calls: seq<Call>)
    ensures Carrying(calls, {}) == 0
  {
    if calls != [] {
      NoneCarryNothing(calls[..|calls| - 1]);
    }
  }

  lemma {:induction false} CarryingNew(calls: seq<Call>, keys: set<string>, key: string)
    requires key !in Keys(calls)
    ensures Carrying(calls, keys + {key}) == Carrying(calls, keys)
  {
    if calls != [] {
      var before := calls[..|calls| - 1];
      CarryingNew(before, keys, key);
    }
  }

  /** Nothing is lost: the counts of the faults in the table and the number of missed calls
      add up to all the calls made. */
  lemma {:induction false} CountsAndMissedAddUp(calls: seq<Call>, limit: nat)
    ensures TotalCount(calls, Admitted(calls, limit)) + Missed(calls, limit) == |calls|
  {
    TotalIsCarrying(calls, Admitted(calls, limit));
    CarryingAndMissedAddUp(calls, limit);
  }

  lemma {:induction false} CarryingAndMissedAddUp(calls: seq<Call>, limit: nat)
    ensures Carrying(calls, Admitted(calls, limit)) + Missed(calls, limit) == |calls|
  {
    if calls != [] {
      var before, c := calls[..|calls| - 1], calls[|calls| - 1];
      CarryingAndMissedAddUp(before, limit);
      AdmittedUntilFull(before, limit);
      if |Admitted(before, limit)| < limit {
        assert Admitted(before, limit) == Keys(before);
        if c.key !in Keys(before) {
          CarryingNew(before, Keys(before), c.key);
        } else {
          assert Keys(before) + {c.key} == Keys(before);
        }
      }
    }
  }

  // ----- the tally

  /** One counted fault. */
  datatype FaultEntry = FaultEntry(fault: CoreFault, firstAt: int, recent: seq<int>, bursts: nat) {

    /** The entry is what the calls for its key amount to. */
    ghost predicate Counts(mine: seq<Call>) {
      && mine != []
      && fault == CoreFault(mine[0].source, mine[0].key, |mine|, mine[0].stamp, mine[|mine| - 1].stamp)
      && firstAt == mine[0].at
      && Run(recent, bursts) == Entry(Times(mine))
    }

    /** A new entry, about to receive its first call. */
    ghost predicate Awaits(c: Call) {
      this == FaultEntry(CoreFault(c.source, c.key, 0, c.stamp, ""), c.at, [], 0)
    }
  }

  /** How one more call moves its fault's entry, and what the oldest time kept is. */
  lemma CallRecorded(mine: seq<Call>, c: Call)
    ensures var times, more := Times(mine), Times(mine + [c]);
            && more == times + [c.at]
            && more[..|more| - 1] == times
            && Entry(more) == After(Entry(times), c.at)
            && OldestKept(more, Push(Entry(times).recent, c.at))
  {
    var times, more := Times(mine), Times(mine + [c]);
    assert more == times + [c.at];
    EntryAfter(times, c.at);
    RecentIsTail(times, |times|);
    TailAfterPush(times, c.at, Entry(times), Base(times, |times|));
  }

  ghost predicate OldestKept(times: seq<int>, recent: seq<int>) {
    |recent| >= BURST_SIZE ==> |times| >= BURST_SIZE && recent[0] == times[|times| - BURST_SIZE]
  }

  lemma TailAfterPush(times: seq<int>, at: int, run: Run, base: nat)
    requires IsTail(times, |times|, run.recent, base)
    ensures OldestKept(times + [at], Push(run.recent, at))
  {
    var n := |times|;
    if |run.recent| >= BURST_SIZE {
      assert run.recent[1] == times[n - BURST_SIZE + 1];
    }
  }

  /** What an occurrence amounted to, said of all the times of its fault so far. */
  ghost predicate SeenIs(s: Seen, times: seq<int>) {
    && times != []
    && s.nth == |times|
    && (s.burst <==> Entry(times).bursts == Entry(times[..|times| - 1]).bursts + 1)
    && (s.burst ==> |times| >= BURST_SIZE
                    && s.span == times[|times| - 1] - times[|times| - BURST_SIZE] <= BURST_WINDOW)
  }

  /** An entry updated as Add updates it counts one call more, and Add's answer is right. */
  lemma Recording(f: FaultEntry, mine: seq<Call>, c: Call, g: FaultEntry, s: Seen)
    requires if mine == [] then f.Awaits(c) else f.Counts(mine) && mine[0].key == c.key
    requires var pushed := Push(f.recent, c.at);
             var fault := f.fault.(count := f.fault.count + 1, last := c.stamp);
             if Completes(pushed, c.at)
             then g == FaultEntry(fault, f.firstAt, [], f.bursts + 1) && s == Seen(fault.count, true, c.at - pushed[0])
             else g == FaultEntry(fault, f.firstAt, pushed, f.bursts) && s == Seen(fault.count, false, 0)
    ensures g.Counts(mine + [c])
    ensures SeenIs(s, Times(mine + [c]))
  {
    CallRecorded(mine, c);
  }

  lemma {:induction false} CallsHaveKey(calls: seq<Call>, key: string)
    ensures forall i :: 0 <= i < |Calls(calls, key)| ==> Calls(calls, key)[i].key == key
    ensures key !in Keys(calls) ==> Calls(calls, key) == []
    ensures key in Keys(calls) ==> Calls(calls, key) != []
  {
    if calls != [] {
      var before := calls[..|calls| - 1];
      CallsHaveKey(before, key);
    }
  }

  /** Worst first: by count, then the most recently seen, then by message. */
  predicate Before(a: CoreFault, b: CoreFault) {
    if a.count != b.count then a.count > b.count
    else if a.last != b.last then Strings.Less(b.last, a.last)
    else Strings.Less(a.message, b.message)
  }

  lemma BeforeIsAnOrder(a: CoreFault, b: CoreFault, c: CoreFault)
    ensures !(Before(a, b) && Before(b, a))
    ensures a.message != b.message ==> Before(a, b) || Before(b, a)
    ensures Before(a, b) && Before(b, c) ==> Before(a, c)
  {
    Strings.LessTotal(a.last, b.last);
    Strings.LessTotal(a.message, b.message);
    Strings.LessTotal(b.last, c.last);
    Strings.LessTotal(a.last, c.last);
    if Before(a, b) && Before(b, c) {
      if Strings.Less(b.last, a.last) && Strings.Less(c.last, b.last) {
        Strings.LessTransitive(c.last, b.last, a.last);
      }
      if Strings.Less(a.message, b.message) && Strings.Less(b.message, c.message) {
        Strings.LessTransitive(a.message, b.message, c.message);
      }
    }
  }

  predicate Ranked(s: seq<CoreFault>) {
    forall i, j :: 0 <= i < j < |s| ==> Before(s[i], s[j])
  }

  /** More often comes first, then later, then by message. */
  lemma RankedMeans(s: seq<CoreFault>)
    requires Ranked(s)
    ensures forall i, j :: 0 <= i < j < |s| ==>
              && s[i].count >= s[j].count
              && (s[i].count == s[j].count ==>
                    && !Strings.Less(s[i].last, s[j].last)
                    && (s[i].last == s[j].last ==> Strings.Less(s[i].message, s[j].message)))
  {
    hide Strings.Less;
    forall i, j | 0 <= i < j < |s|
      ensures s[i].count == s[j].count ==> !Strings.Less(s[i].last, s[j].last)
    {
      assert Before(s[i], s[j]);
      Strings.LessTotal(s[i].last, s[j].last);
    }
    forall i, j | 0 <= i < j < |s|
      ensures s[i].count >= s[j].count
      ensures s[i].count == s[j].count && s[i].last == s[j].last ==> Strings.Less(s[i].message, s[j].message)
    {
      assert Before(s[i], s[j]);
    }
  }

  predicate DistinctMessages(s: seq<CoreFault>) {
    forall i, j :: 0 <= i < j < |s| ==> s[i].message != s[j].message
  }

  /** One entry put in its place. */
  method InsertRanked(r: seq<CoreFault>, f: CoreFault) returns (q: seq<CoreFault>)
    requires Ranked(r) && forall i :: 0 <= i < |r| ==> r[i].message != f.message
    ensures Ranked(q) && multiset(q) == multiset(r) + multiset{f}
  {
    var i := 0;
    while i < |r| && Before(r[i], f)
      invariant i <= |r|
      invariant forall j :: 0 <= j < i ==> Before(r[j], f)
    {
      i := i + 1;
    }
    forall j | i <= j < |r| ensures Before(f, r[j]) {
      BeforeIsAnOrder(f, r[i], r[j]);
    }
    assert r == r[..i] + r[i..];
    q := r[..i] + [f] + r[i..];
  }

  /** Sorting by rank, as a library sort would: the same entries, in order. */
  method SortFaults(s: seq<CoreFault>) returns (r: seq<CoreFault>)
    requires DistinctMessages(s)
    ensures Ranked(r) && multiset(r) == multiset(s)
  {
    r := [];
    for n := 0 to |s|
      invariant Ranked(r) && multiset(r) == multiset(s[..n])
    {
      forall i | 0 <= i < |r| ensures r[i].message != s[n].message {
        assert r[i] in multiset(s[..n]);
      }
      r := InsertRanked(r, s[n]);
      assert s[..n + 1] == s[..n] + [s[n]];
    }
    assert s[..|s|] == s;
  }

  lemma SameMembers(s: seq<CoreFault>, t: seq<CoreFault>)
    requires multiset(s) == multiset(t)
    ensures forall f :: f in s <==> f in t
  {
    forall f ensures f in s <==> f in t {
      assert f in multiset(s) <==> f in multiset(t);
    }
  }

  lemma FirstBeatTheRest(s: seq<CoreFault>, n: nat)
    requires Ranked(s) && n <= |s|
    ensures forall f :: f in s && f !in s[..n] ==> forall i :: 0 <= i < n ==> Before(s[i], f)
  {
    forall f, i | f in s && f !in s[..n] && 0 <= i < n ensures Before(s[i], f) {
      assert s == s[..n] + s[n..];
      var j :| n <= j < |s| && s[j] == f;
    }
  }

  /** What one more call changes in the readings of the call sequence. */
  lemma OneMoreCall(calls: seq<Call>, limit: nat, c: Call)
    ensures var more := calls + [c];
            && Admitted(more, limit) == (if |Admitted(calls, limit)| >= limit then Admitted(calls, limit)
                                         else Admitted(calls, limit) + {c.key})
            && Missed(more, limit) == Missed(calls, limit) + (if c.key in Admitted(more, limit) then 0 else 1)
            && Calls(more, c.key) == Calls(calls, c.key) + [c]
            && (forall k :: k != c.key ==> Calls(more, k) == Calls(calls, k))
            && Keys(more) == Keys(calls) + {c.key}
  {
    var more := calls + [c];
    assert more[..|more| - 1] == calls;
  }

  /** The table's contents, said of the calls: which faults it counts, which calls each of
      them has had, and how many calls were turned away. */
  ghost predicate Explains(calls: seq<Call>, limit: nat, counted: map<string, seq<Call>>, missed: nat) {
    && counted.Keys == Admitted(calls, limit)
    && (forall k :: k in counted ==> counted[k] == Calls(calls, k) && counted[k] != [] && counted[k][0].key == k)
    && missed == Missed(calls, limit)
    && "" !in Keys(calls)
  }

  /** The counted calls with one more. */
  ghost function Recorded(counted: map<string, seq<Call>>, c: Call): map<string, seq<Call>> {
    counted[c.key := Mine(counted, c.key) + [c]]
  }

  ghost function Mine(counted: map<string, seq<Call>>, key: string): seq<Call> {
    if key in counted then counted[key] else []
  }

  lemma ExplainsNext(calls: seq<Call>, limit: nat, counted: map<string, seq<Call>>, missed: nat, c: Call)
    requires Explains(calls, limit, counted, missed)
    ensures "" !in Admitted(calls, limit)
    ensures c.key != "" ==>
              if c.key !in counted && |counted.Keys| >= limit
              then Explains(calls + [c], limit, counted, missed + 1)
              else Explains(calls + [c], limit, Recorded(counted, c), missed)
  {
    hide Calls, Admitted, Missed, Keys;
    OneMoreCall(calls, limit, c);
    CallsHaveKey(calls, c.key);
    AdmittedUntilFull(calls, limit);
  }

  lemma ExplainsMeans(calls: seq<Call>, limit: nat, counted: map<string, seq<Call>>, missed: nat)
    requires Explains(calls, limit, counted, missed)
    ensures Admitted(calls, limit) == counted.Keys
    ensures forall k :: k in counted ==> counted[k] == Calls(calls, k) && counted[k] != [] && counted[k][0].key == k
  {
    hide Calls, Admitted, Missed, Keys;
  }

  /** Every entry of the table is what its counted calls amount to. */
  ghost predicate Tallies(items: map<string, FaultEntry>, counted: map<string, seq<Call>>) {
    && items.Keys == counted.Keys
    && forall k :: k in items ==> counted[k] != [] && counted[k][0].key == k && items[k].Counts(counted[k])
  }

  lemma TalliesMeans(items: map<string, FaultEntry>, counted: map<string, seq<Call>>)
    requires Tallies(items, counted)
    ensures items.Keys == counted.Keys && |items| == |counted.Keys|
    ensures forall k :: k in items ==> counted[k] != [] && counted[k][0].key == k && items[k].Counts(counted[k])
    ensures forall k :: k in items ==> items[k].fault.message == k
  {
    assert |items.Keys| == |items|;
  }

  lemma TalliesNext(items: map<string, FaultEntry>, counted: map<string, seq<Call>>, f: FaultEntry, c: Call)
    requires Tallies(items, counted)
    requires f.Counts(Mine(counted, c.key) + [c])
    ensures Recorded(counted, c).Keys == counted.Keys + {c.key}
    ensures Recorded(counted, c)[c.key] == Mine(counted, c.key) + [c]
    ensures Tallies(items[c.key := f], Recorded(counted, c))
  {
    hide FaultEntry.Counts;
  }

  /** The faults that have burst at least once, in no particular order. */
  method BurstFaults(items: map<string, FaultEntry>) returns (all: seq<CoreFault>)
    requires forall k :: k in items ==> items[k].fault.message == k
    ensures DistinctMessages(all)
    ensures forall f :: f in all <==> f.message in items && items[f.message].bursts > 0 && items[f.message].fault == f
  {
    all := [];
    var left := items.Keys;
    while left != {}
      invariant left <= items.Keys
      invariant DistinctMessages(all)
      invariant forall f :: f in all <==>
                  f.message in items.Keys - left && items[f.message].bursts > 0 && items[f.message].fault == f
      decreases |left|
    {
      var k :| k in left;
      if items[k].bursts != 0 {
        forall i | 0 <= i < |all| ensures all[i].message != k {
          assert all[i] in all;
        }
        all := all + [items[k].fault];
      }
      left := left - {k};
    }
  }

  class FaultTally {
    var items: map<string, FaultEntry>
    var limit: nat
    var missed: nat
    ghost var calls: seq<Call>
    ghost var counted: map<string, seq<Call>>

    ghost predicate Valid()
      reads this
    {
      && limit > 0
      && Tallies(items, counted)
      && Explains(calls, limit, counted, missed)
    }

    constructor (limit: int)
      ensures Valid() && calls == [] && this.limit == if limit <= 0 then 40 else limit
    {
      this.limit := if limit <= 0 then 40 else limit;
      items := map[];
      missed := 0;
      calls, counted := [], map[];
    }

    /** Records one occurrence and says what it amounted to. */
    method Add(source: string, key: string, now: int, stamp: string) returns (s: Seen)
      requires Valid()
      modifies this
      ensures Valid() && limit == old(limit)
      ensures key == "" ==> calls == old(calls) && s == Seen(0, false, 0)
      ensures key != "" ==> calls == old(calls) + [Call(source, key, now, stamp)]
      ensures key != "" && key !in Admitted(calls, limit) ==> s == Seen(0, false, 0)
      ensures key in Admitted(calls, limit) ==> SeenIs(s, Times(Calls(calls, key)))
    {
      hide Explains, Tallies, Recorded, FaultEntry.Counts, Calls, Admitted, Missed, Keys, SeenIs, Times, Entry;
      ghost var call := Call(source, key, now, stamp);
      ExplainsNext(calls, limit, counted, missed, call);
      ExplainsMeans(calls, limit, counted, missed);
      TalliesMeans(items, counted);
      if key == "" {
        return Seen(0, false, 0);
      }
      ghost var mine := Mine(counted, key);
      calls := calls + [call];
      var f: FaultEntry;
      if key in items {
        f := items[key];
      } else if |items| >= limit {
        missed := missed + 1;
        ExplainsMeans(calls, limit, counted, missed);
        return Seen(0, false, 0);
      } else {
        f := FaultEntry(CoreFault(source, key, 0, stamp, ""), now, [], 0);
      }
      ghost var entry := f;
      f := f.(fault := f.fault.(count := f.fault.count + 1, last := stamp), recent := f.recent + [now]);
      if |f.recent| > BURST_SIZE {
        f := f.(recent := f.recent[1..]);
      }
      if |f.recent| < BURST_SIZE || now - f.recent[0] > BURST_WINDOW {
        s := Seen(f.fault.count, false, 0);
      } else {
        var span := now - f.recent[0];
        f := f.(recent := [], bursts := f.bursts + 1);
        s := Seen(f.fault.count, true, span);
      }
      Recording(entry, mine, call, f, s);
      TalliesNext(items, counted, f, call);
      items := items[key := f];
      counted := Recorded(counted, call);
      ExplainsMeans(calls, limit, counted, missed);
    }

    /** The faults worth showing: those that have burst, worst first, at most `n` of them. */
    method Top(n: int) returns (out: seq<CoreFault>)
      requires Valid()
      ensures Ranked(out)
      ensures forall i, j :: 0 <= i < j < |out| ==>
                && out[i].count >= out[j].count
                && (out[i].count == out[j].count ==>
                      && !Strings.Less(out[i].last, out[j].last)
                      && (out[i].last == out[j].last ==> Strings.Less(out[i].message, out[j].message)))
      ensures forall f :: f in out ==> f.message in items && items[f.message].bursts > 0 && items[f.message].fault == f
      ensures n <= 0 || |out| <= n
      ensures forall k :: k in items && items[k].bursts > 0 && items[k].fault !in out ==>
                && n > 0 && |out| == n
                && forall i :: 0 <= i < n ==>
                     Before(out[i], items[k].fault) && out[i].count >= items[k].fault.count
    {
      hide Explains, Entry, Times;
      TalliesMeans(items, counted);
      var all := BurstFaults(items);
      out := SortFaults(all);
      SameMembers(out, all);
      if n > 0 && |out| > n {
        FirstBeatTheRest(out, n);
        out := out[..n];
      }
      RankedMeans(out);
    }

    /** Forgets everything, which is done when a core is started. */
    method Reset()
      requires Valid()
      modifies this
      ensures Valid() && calls == [] && missed == 0 && items == map[] && limit == old(limit)
    {
      items := map[];
      missed := 0;
      calls, counted := [], map[];
    }
  }
}
