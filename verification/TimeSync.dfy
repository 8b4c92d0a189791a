/**
 Setting the clock from the network (internal/daemon/timesync.go): a time counts when two hosts
 agree on it. Times are whole seconds.
 */
module TimeSync {
  import opened Optional

  const AGREEMENT: int := 10

  /** Another answer is this one or at most ten seconds older. */
  ghost predicate Backed(seen: multiset<int>, t: int) {
    t in seen && exists u :: u in seen - multiset{t} && t - 10 <= u <= t
  }

  /** The earliest answer that another one backs. */
  ghost predicate Agreed(seen: multiset<int>, r: Option<int>) {
    match r
    case None => forall t :: !Backed(seen, t)
    case Some(at) => Backed(seen, at) && forall t :: Backed(seen, t) ==> at <= t
  }

  ghost predicate Sorted(s: seq<int>) {
    forall i, j :: 0 <= i < j < |s| ==> s[i] <= s[j]
  }

  method SortTimes(seen: seq<int>) returns (sorted: seq<int>)
    ensures Sorted(sorted) && multiset(sorted) == multiset(seen)
  {
    sorted := [];
    for i := 0 to |seen|
      invariant Sorted(sorted) && multiset(sorted) == multiset(seen[..i])
    {
      assert seen[..i + 1] == seen[..i] + [seen[i]];
      sorted := Insert(sorted, seen[i]);
    }
    assert seen[..|seen|] == seen;
  }

  method Insert(s: seq<int>, t: int) returns (r: seq<int>)
    requires Sorted(s)
    ensures Sorted(r) && multiset(r) == multiset(s) + multiset{t}
  {
    var k := 0;
    while k < |s| && s[k] <= t
      invariant 0 <= k <= |s| && forall i :: 0 <= i < k ==> s[i] <= t
    {
      k := k + 1;
    }
    PutIn(s, k, t);
    r := s[..k] + [t] + s[k..];
  }

  lemma PutIn(s: seq<int>, k: nat, t: int)
    requires k <= |s| && Sorted(s) && (k == |s| || t < s[k]) && forall i :: 0 <= i < k ==> s[i] <= t
    ensures Sorted(s[..k] + [t] + s[k..])
    ensures multiset(s[..k] + [t] + s[k..]) == multiset(s) + multiset{t}
  {
    OneMoreTime(s[..k], t, s[k..]);
    assert s == s[..k] + s[k..];
    StaysSorted(s[..k], t, s[k..]);
  }

  lemma OneMoreTime(a: seq<int>, t: int, b: seq<int>)
    ensures multiset(a + [t] + b) == multiset(a + b) + multiset{t}
  {
    assert multiset(a + [t] + b) == multiset(a) + multiset([t]) + multiset(b);
    assert multiset(a + b) == multiset(a) + multiset(b);
  }

  lemma StaysSorted(a: seq<int>, t: int, b: seq<int>)
    requires Sorted(a + b) && (forall i :: 0 <= i < |a| ==> a[i] <= t) && (b != [] ==> t < b[0])
    ensures Sorted(a + [t] + b)
  {
    var s, r := a + b, a + [t] + b;
    assert forall i :: 0 <= i < |a| ==> s[i] == a[i] && r[i] == a[i];
    assert forall i :: 0 <= i < |b| ==> s[|a| + i] == b[i] && r[|a| + 1 + i] == b[i];
    forall i, j | 0 <= i < j < |r| ensures r[i] <= r[j] {
      var p, q := if i <= |a| then i else i - 1, if j <= |a| then j else j - 1;
      if i == |a| {
        assert s[|a|] <= s[q];
      } else if j != |a| {
        assert s[p] <= s[q];
      }
    }
  }

  lemma WithoutOne(s: seq<int>, i: nat)
    requires i < |s|
    ensures multiset(s[..i] + s[i + 1..]) == multiset(s) - multiset{s[i]}
  {
    assert s == s[..i] + [s[i]] + s[i + 1..];
    OneMoreTime(s[..i], s[i], s[i + 1..]);
  }

  lemma OtherPlace(s: seq<int>, i: nat, j: nat)
    requires i < |s| && j < |s| && i != j
    ensures s[j] in multiset(s) - multiset{s[i]}
  {
    var rest := s[..i] + s[i + 1..];
    WithoutOne(s, i);
    assert rest[if j < i then j else j - 1] == s[j];
    assert s[j] in rest;
  }

  lemma TwoPlaces(s: seq<int>, t: int, u: int) returns (i: nat, j: nat)
    requires t in multiset(s) && u in multiset(s) - multiset{t}
    ensures i < |s| && j < |s| && i != j && s[i] == t && s[j] == u
  {
    i :| i < |s| && s[i] == t;
    if t != u {
      assert u in multiset(s);
      j :| j < |s| && s[j] == u;
    } else {
      var rest := s[..i] + s[i + 1..];
      WithoutOne(s, i);
      assert u in rest;
      var k: nat :| k < |rest| && rest[k] == u;
      j := if k < i then k else k + 1;
    }
  }

  ghost predicate WideGaps(s: seq<int>, n: nat) {
    forall k :: 0 <= k < n && k + 1 < |s| ==> s[k + 1] - s[k] > AGREEMENT
  }

  /** Whoever backs an answer ahead of which all gaps are wide comes right behind it. */
  lemma BackerIsNext(s: seq<int>, n: nat, t: int) returns (a: nat)
    requires Sorted(s) && WideGaps(s, n) && Backed(multiset(s), t)
    ensures a < |s| && s[a] == t && (a <= n ==> a + 1 < |s| && s[a + 1] == t)
  {
    var u :| u in multiset(s) - multiset{t} && t - AGREEMENT <= u <= t;
    var b;
    a, b := TwoPlaces(s, t, u);
    if a <= n {
      if b < a {
        WideBelow(s, n, b, a);
      } else {
        assert s[a] <= s[a + 1] <= s[b];
      }
    }
  }

  lemma WideBelow(s: seq<int>, n: nat, b: nat, a: nat)
    requires Sorted(s) && WideGaps(s, n) && b < a < |s| && a <= n
    ensures s[a] - s[b] > AGREEMENT
  {
    var k := a - 1;
    assert s[k + 1] - s[k] > AGREEMENT && s[b] <= s[k];
  }

  /** In sorted answers the first two neighbours close enough settle it. */
  lemma FirstCloseNeighbours(s: seq<int>, i: nat)
    requires Sorted(s) && i + 1 < |s| && s[i + 1] - s[i] <= AGREEMENT && WideGaps(s, i)
    ensures Agreed(multiset(s), Some(s[i + 1]))
  {
    OtherPlace(s, i + 1, i);
    forall t | Backed(multiset(s), t) ensures s[i + 1] <= t {
      hide Backed;
      var a := BackerIsNext(s, i, t);
    }
  }

  lemma NoCloseNeighbours(s: seq<int>)
    requires Sorted(s) && WideGaps(s, |s|)
    ensures Agreed(multiset(s), None)
  {
    hide Backed;
    forall t ensures !Backed(multiset(s), t) {
      if Backed(multiset(s), t) {
        var a := BackerIsNext(s, |s|, t);
      }
    }
  }

  /** The time two answers agree on, whatever order they came in. */
  method AgreedTime(seen: seq<int>) returns (r: Option<int>)
    ensures Agreed(multiset(seen), r)
  {
    hide Agreed;
    var sorted := SortTimes(seen);
    var i := 0;
    while i + 1 < |sorted|
      invariant 0 <= i && WideGaps(sorted, i)
    {
      if sorted[i + 1] - sorted[i] <= AGREEMENT {
        FirstCloseNeighbours(sorted, i);
        return Some(sorted[i + 1]);
      }
      i := i + 1;
    }
    NoCloseNeighbours(sorted);
    return None;
  }

  /** The hosts that answered, of the first few. */
  function Answers(hosts: seq<Option<int>>): seq<int> {
    if hosts == [] then []
    else
      var init := Answers(hosts[..|hosts| - 1]);
      if hosts[|hosts| - 1].Some? then init + [hosts[|hosts| - 1].value] else init
  }

  lemma MoreAnswersStillAgree(seen: multiset<int>, more: multiset<int>, t: int)
    requires Backed(seen, t) && seen <= more
    ensures Backed(more, t)
  {
    var u :| u in seen - multiset{t} && t - AGREEMENT <= u <= t;
    assert u in more - multiset{t};
  }

  lemma {:induction false} FewerAnswers(hosts: seq<Option<int>>, n: nat)
    requires n <= |hosts|
    ensures multiset(Answers(hosts[..n])) <= multiset(Answers(hosts))
    decreases |hosts|
  {
    if n == |hosts| {
      assert hosts[..n] == hosts;
    } else {
      var init := hosts[..|hosts| - 1];
      FewerAnswers(init, n);
      assert init[..n] == hosts[..n];
    }
  }

  /** Asks one host after the other, no more than are needed for two to agree. It finds a time if
      and only if two of all the hosts would agree. */
  method NetworkTime(hosts: seq<Option<int>>) returns (r: Option<int>, asked: nat)
    ensures asked <= |hosts| && Agreed(multiset(Answers(hosts[..asked])), r)
    ensures r.Some? ==> asked > 0 && Agreed(multiset(Answers(hosts[..asked - 1])), None)
    ensures r.Some? <==> exists t :: Backed(multiset(Answers(hosts)), t)
  {
    hide Backed;
    var seen := [];
    NobodyAsked();
    for i := 0 to |hosts|
      invariant seen == Answers(hosts[..i]) && Agreed(multiset(seen), None)
    {
      assert hosts[..i + 1][..i] == hosts[..i];
      if hosts[i] == None {
        continue;
      }
      seen := seen + [hosts[i].value];
      r := AgreedTime(seen);
      if r.Some? {
        asked := i + 1;
        FewerAnswers(hosts, i + 1);
        MoreAnswersStillAgree(multiset(seen), multiset(Answers(hosts)), r.value);
        return;
      }
    }
    assert hosts[..|hosts|] == hosts;
    asked := |hosts|;
    r := AgreedTime(seen);
  }

  lemma NobodyAsked()
    ensures Agreed(multiset([]), None)
  {
  }

  /** When all answers but one lie within ten seconds of each other, whatever the odd one says,
      a time that is agreed on is within twenty seconds of the earliest of the others. */
  lemma OneWrongHostIsNotBelieved(seen: seq<int>, odd: nat, low: int, r: Option<int>)
    requires odd < |seen| && Agreed(multiset(seen), r) && r.Some?
    requires forall i :: 0 <= i < |seen| && i != odd ==> low <= seen[i] <= low + 10
    ensures low <= r.value <= low + 20
  {
    var u :| u in multiset(seen) - multiset{r.value} && r.value - AGREEMENT <= u <= r.value;
    var i, j := TwoPlaces(seen, r.value, u);
  }
}
