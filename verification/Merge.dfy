/**
 Merging a subscription into the stored profiles (internal/model/model.go): which server keeps
 which id, and what becomes of the groups that name those ids.
 */
module Merge {

  /** Where a server is and who logs in there. */
  datatype Identity = Identity(
    proto: string, address: string, port: int, uuid: string, password: string, path: string, sni: string)

  /** The other fields of a profile, its name among them, are `rest`. */
  datatype Profile = Profile(id: string, server: Identity, pinnedCert: string, subscription: string, rest: string)

  datatype Group = Group(id: string, members: seq<string>)

  predicate SameServer(a: Profile, b: Profile) {
    a.server == b.server
  }

  // ----- what merging comes to

  function Theirs(stored: seq<Profile>, subID: string): seq<Profile> {
    if stored == [] then []
    else
      var init := Theirs(stored[..|stored| - 1], subID);
      if stored[|stored| - 1].subscription == subID then init else init + [stored[|stored| - 1]]
  }

  function Mine(stored: seq<Profile>, subID: string): seq<Profile> {
    if stored == [] then []
    else
      var init := Mine(stored[..|stored| - 1], subID);
      if stored[|stored| - 1].subscription == subID then init + [stored[|stored| - 1]] else init
  }

  /** Who is matched with whom: for every listed server the place of a stored one, or -1. */
  type Matching = seq<int>

  predicate Takes(m: Matching, j: int) {
    exists i :: 0 <= i < |m| && m[i] == j
  }

  function FirstFree(mine: seq<Profile>, m: Matching, p: Profile, from: nat): int
    requires from <= |mine|
    decreases |mine| - from
  {
    if from == |mine| then -1
    else if !Takes(m, from) && SameServer(mine[from], p) then from
    else FirstFree(mine, m, p, from + 1)
  }

  /** Every listed server in turn takes the first stored one that is the same and still free. */
  function Greedy(mine: seq<Profile>, listed: seq<Profile>): (m: Matching)
    ensures |m| == |listed|
  {
    if listed == [] then []
    else
      var m := Greedy(mine, listed[..|listed| - 1]);
      m + [FirstFree(mine, m, listed[|listed| - 1], 0)]
  }

  /** A listed server as it is stored: with the id and the certificate of its match, if any. */
  function Adopted(p: Profile, mine: seq<Profile>, j: int, subID: string): Profile
    requires j < |mine|
  {
    if j < 0 then p.(subscription := subID)
    else p.(subscription := subID, id := mine[j].id,
            pinnedCert := if p.pinnedCert == "" then mine[j].pinnedCert else p.pinnedCert)
  }

  function Merged(mine: seq<Profile>, listed: seq<Profile>, subID: string, newIDs: seq<string>): (seq<Profile>, nat)
    requires |newIDs| >= |listed|
    ensures |Merged(mine, listed, subID, newIDs).0| == |listed|
    ensures Merged(mine, listed, subID, newIDs).1 <= |listed|
  {
    if listed == [] then ([], 0)
    else
      var (out, n) := Merged(mine, listed[..|listed| - 1], subID, newIDs);
      var m := Greedy(mine, listed);
      GreedyInRange(mine, listed, |listed| - 1);
      var p := Adopted(listed[|listed| - 1], mine, m[|listed| - 1], subID);
      if p.id == "" then (out + [p.(id := newIDs[n])], n + 1) else (out + [p], n)
  }

  lemma {:induction false} FirstFreeMeans(mine: seq<Profile>, m: Matching, p: Profile, from: nat)
    requires from <= |mine|
    ensures var j := FirstFree(mine, m, p, from);
            if j < 0 then j == -1 && forall k :: from <= k < |mine| ==> Takes(m, k) || !SameServer(mine[k], p)
            else from <= j < |mine| && !Takes(m, j) && SameServer(mine[j], p)
                 && forall k :: from <= k < j ==> Takes(m, k) || !SameServer(mine[k], p)
    decreases |mine| - from
  {
    if from < |mine| {
      FirstFreeMeans(mine, m, p, from + 1);
    }
  }

  lemma {:induction false} GreedyInRange(mine: seq<Profile>, listed: seq<Profile>, i: nat)
    requires i < |listed|
    ensures -1 <= Greedy(mine, listed)[i] < |mine|
  {
    var init := listed[..|listed| - 1];
    FirstFreeMeans(mine, Greedy(mine, init), listed[|listed| - 1], 0);
    if i < |init| {
      GreedyInRange(mine, init, i);
    }
  }

  // ----- the method

  /** Looks for the match of one listed server among the stored ones not in use. */
  method TakeFirstFree(mine: seq<Profile>, used: array<bool>, p: Profile, ghost m: Matching) returns (j: int)
    requires used.Length == |mine|
    requires forall k :: 0 <= k < |mine| ==> (used[k] <==> Takes(m, k))
    modifies used
    ensures j == FirstFree(mine, m, p, 0)
    ensures -1 <= j < |mine|
    ensures forall k :: 0 <= k < |mine| ==> (used[k] <==> Takes(m + [j], k))
  {
    hide Takes;
    TakesOneMore(m);
    for k := 0 to |mine|
      invariant FirstFree(mine, m, p, 0) == FirstFree(mine, m, p, k)
      invariant forall l :: 0 <= l < |mine| ==> used[l] == old(used[l])
    {
      if used[k] || !SameServer(mine[k], p) {
        continue;
      }
      used[k] := true;
      return k;
    }
    return -1;
  }

  lemma TakesOneMore(m: Matching)
    ensures forall j, k :: Takes(m + [j], k) <==> Takes(m, k) || j == k
  {
    forall j, k ensures Takes(m + [j], k) <==> Takes(m, k) || j == k {
      if Takes(m, k) {
        var i :| 0 <= i < |m| && m[i] == k;
        assert (m + [j])[i] == k;
      }
      assert (m + [j])[|m|] == j;
    }
  }

  /** Reconciles the stored profiles with a listing. `newIDs` are what asking for new ids gives. */
  method MergeSubscription(stored: seq<Profile>, fetched: seq<Profile>, subID: string, newIDs: seq<string>)
    returns (out: seq<Profile>)
    requires |newIDs| >= |fetched|
    ensures out == Theirs(stored, subID) + Merged(Mine(stored, subID), fetched, subID, newIDs).0
  {
    hide Takes, FirstFree;
    out := [];
    var mine := [];
    for i := 0 to |stored|
      invariant out == Theirs(stored[..i], subID) && mine == Mine(stored[..i], subID)
    {
      assert stored[..i + 1][..i] == stored[..i];
      if stored[i].subscription == subID {
        mine := mine + [stored[i]];
      } else {
        out := out + [stored[i]];
      }
    }
    assert stored[..|stored|] == stored;
    ghost var theirs := out;
    var used := new bool[|mine|](_ => false);
    NothingTaken();
    assert theirs + [] == theirs;
    var asked := 0;
    for i := 0 to |fetched|
      invariant out == theirs + Merged(mine, fetched[..i], subID, newIDs).0
      invariant asked == Merged(mine, fetched[..i], subID, newIDs).1
      invariant forall k :: 0 <= k < |mine| ==> (used[k] <==> Takes(Greedy(mine, fetched[..i]), k))
    {
      assert fetched[..i + 1][..i] == fetched[..i];
      var p := fetched[i].(subscription := subID);
      SameSearch(mine, Greedy(mine, fetched[..i]), fetched[i], p, 0);
      var j := TakeFirstFree(mine, used, p, Greedy(mine, fetched[..i]));
      if j >= 0 {
        p := p.(id := mine[j].id);
        if p.pinnedCert == "" {
          p := p.(pinnedCert := mine[j].pinnedCert);
        }
      }
      if p.id == "" {
        p := p.(id := newIDs[asked]);
        asked := asked + 1;
      }
      assert theirs + (Merged(mine, fetched[..i], subID, newIDs).0 + [p]) == out + [p];
      out := out + [p];
    }
    assert fetched[..|fetched|] == fetched;
  }

  lemma NothingTaken()
    ensures forall k :: !Takes([], k)
  {
  }

  lemma {:induction false} SameSearch(mine: seq<Profile>, m: Matching, p: Profile, q: Profile, from: nat)
    requires from <= |mine| && SameServer(p, q)
    ensures FirstFree(mine, m, p, from) == FirstFree(mine, m, q, from)
    decreases |mine| - from
  {
    if from < |mine| {
      SameSearch(mine, m, p, q, from + 1);
    }
  }

  // ----- as many ids as possible are kept

  function CountOf(profiles: seq<Profile>, v: Identity): nat {
    if profiles == [] then 0
    else CountOf(profiles[..|profiles| - 1], v) + if profiles[|profiles| - 1].server == v then 1 else 0
  }

  /** How many listed servers of an identity are matched. */
  function Kept(m: Matching, listed: seq<Profile>, v: Identity): nat
    requires |m| == |listed|
  {
    if m == [] then 0
    else
      Kept(m[..|m| - 1], listed[..|m| - 1], v)
      + if m[|m| - 1] >= 0 && listed[|m| - 1].server == v then 1 else 0
  }

  /** Matches equal servers, no stored one twice. */
  ghost predicate Proper(m: Matching, mine: seq<Profile>, listed: seq<Profile>) {
    && |m| == |listed|
    && (forall i :: 0 <= i < |m| ==> -1 <= m[i] < |mine|)
    && (forall i :: 0 <= i < |m| && m[i] >= 0 ==> mine[m[i]].server == listed[i].server)
    && forall i, j :: 0 <= i < j < |m| && m[i] >= 0 ==> m[i] != m[j]
  }

  function PlacesOf(mine: seq<Profile>, v: Identity): set<int> {
    set j | 0 <= j < |mine| && mine[j].server == v
  }

  function TakenOf(m: Matching, mine: seq<Profile>, v: Identity): set<int> {
    set i | 0 <= i < |m| && 0 <= m[i] < |mine| && mine[m[i]].server == v :: m[i]
  }

  lemma {:induction false} PlacesCount(mine: seq<Profile>, v: Identity)
    ensures |PlacesOf(mine, v)| == CountOf(mine, v)
  {
    if mine == [] {
      assert PlacesOf(mine, v) == {};
    } else {
      var n := |mine| - 1;
      PlacesCount(mine[..n], v);
      assert PlacesOf(mine, v) == PlacesOf(mine[..n], v) + if mine[n].server == v then {n} else {};
      assert n !in PlacesOf(mine[..n], v);
    }
  }

  lemma {:induction false} TakenCount(m: Matching, mine: seq<Profile>, listed: seq<Profile>, v: Identity)
    requires Proper(m, mine, listed)
    ensures |TakenOf(m, mine, v)| == Kept(m, listed, v)
  {
    if m == [] {
      assert TakenOf(m, mine, v) == {};
    } else {
      var n := |m| - 1;
      var init := m[..n];
      FewerIsProper(m, mine, listed);
      TakenCount(init, mine, listed[..n], v);
      TakenNext(m, mine, v);
      if m[n] >= 0 {
        assert m[n] !in TakenOf(init, mine, v);
      }
    }
  }

  lemma FewerIsProper(m: Matching, mine: seq<Profile>, listed: seq<Profile>)
    requires Proper(m, mine, listed) && m != []
    ensures Proper(m[..|m| - 1], mine, listed[..|m| - 1])
  {
  }

  lemma TakenNext(m: Matching, mine: seq<Profile>, v: Identity)
    requires m != [] && m[|m| - 1] < |mine|
    ensures var last := m[|m| - 1];
            TakenOf(m, mine, v) ==
            TakenOf(m[..|m| - 1], mine, v) + if last >= 0 && mine[last].server == v then {last} else {}
  {
    var init, last := m[..|m| - 1], m[|m| - 1];
    forall x | x in TakenOf(init, mine, v) ensures x in TakenOf(m, mine, v) {
      var i :| 0 <= i < |init| && init[i] == x && 0 <= init[i] < |mine| && mine[init[i]].server == v;
      assert m[i] == x;
    }
    forall x | x in TakenOf(m, mine, v) && x != last ensures x in TakenOf(init, mine, v) {
      var i :| 0 <= i < |m| && m[i] == x && 0 <= m[i] < |mine| && mine[m[i]].server == v;
      assert init[i] == x;
    }
  }

  lemma Subset(a: set<int>, b: set<int>)
    requires a <= b
    ensures |a| <= |b| && (|a| == |b| ==> a == b)
  {
    assert b == a + (b - a);
  }

  lemma {:induction false} KeptAtMostListed(m: Matching, listed: seq<Profile>, v: Identity)
    requires |m| == |listed|
    ensures Kept(m, listed, v) <= CountOf(listed, v)
  {
    if m != [] {
      KeptAtMostListed(m[..|m| - 1], listed[..|m| - 1], v);
    }
  }

  /** No matching keeps more of an identity than there are on either side. */
  lemma KeptAtMost(m: Matching, mine: seq<Profile>, listed: seq<Profile>, v: Identity)
    requires Proper(m, mine, listed)
    ensures Kept(m, listed, v) <= CountOf(mine, v) && Kept(m, listed, v) <= CountOf(listed, v)
  {
    hide Kept, CountOf;
    TakenCount(m, mine, listed, v);
    PlacesCount(mine, v);
    Subset(TakenOf(m, mine, v), PlacesOf(mine, v));
    KeptAtMostListed(m, listed, v);
  }

  lemma {:induction false} GreedyIsProper(mine: seq<Profile>, listed: seq<Profile>)
    ensures Proper(Greedy(mine, listed), mine, listed)
  {
    if listed != [] {
      hide FirstFree, SameServer;
      var init, p := listed[..|listed| - 1], listed[|listed| - 1];
      var m := Greedy(mine, init);
      GreedyIsProper(mine, init);
      FirstFreeMeans(mine, m, p, 0);
      OneMoreIsProper(m, FirstFree(mine, m, p, 0), mine, init, p);
      assert init + [p] == listed;
    }
  }

  lemma OneMoreIsProper(m: Matching, j: int, mine: seq<Profile>, listed: seq<Profile>, p: Profile)
    requires Proper(m, mine, listed) && -1 <= j < |mine|
    requires j >= 0 ==> !Takes(m, j) && SameServer(mine[j], p)
    ensures Proper(m + [j], mine, listed + [p])
  {
    var more := m + [j];
    forall i, k | 0 <= i < k < |more| && more[i] >= 0 ensures more[i] != more[k] {
      assert k == |m| && m[i] == j ==> Takes(m, j);
    }
  }

  function Min(a: nat, b: nat): nat {
    if a < b then a else b
  }

  /** Of every identity as many ids are kept as there are servers on both sides: the smaller of
      the stored and the listed count, which no other way of matching exceeds. */
  lemma {:induction false} KeepsTheMost(mine: seq<Profile>, listed: seq<Profile>, v: Identity)
    ensures Kept(Greedy(mine, listed), listed, v) == Min(CountOf(mine, v), CountOf(listed, v))
    ensures forall m :: Proper(m, mine, listed) ==> Kept(m, listed, v) <= Kept(Greedy(mine, listed), listed, v)
  {
    hide FirstFree, SameServer, Kept, CountOf, Proper;
    if listed == [] {
      NothingKept(mine, v);
    } else {
      var init, p := listed[..|listed| - 1], listed[|listed| - 1];
      KeepsTheMost(mine, init, v);
      GreedyNext(mine, init, p, v);
      assert init + [p] == listed;
    }
    NoneKeepsMore(mine, listed, v);
  }

  lemma NoneKeepsMore(mine: seq<Profile>, listed: seq<Profile>, v: Identity)
    ensures forall m :: Proper(m, mine, listed) ==> Kept(m, listed, v) <= Min(CountOf(mine, v), CountOf(listed, v))
  {
    hide Kept, CountOf;
    forall m | Proper(m, mine, listed) ensures Kept(m, listed, v) <= Min(CountOf(mine, v), CountOf(listed, v)) {
      KeptAtMost(m, mine, listed, v);
    }
  }

  lemma NothingKept(mine: seq<Profile>, v: Identity)
    ensures Kept(Greedy(mine, []), [], v) == 0 == CountOf([], v)
  {
  }

  lemma KeptNext(m: Matching, listed: seq<Profile>, j: int, p: Profile, v: Identity)
    requires |m| == |listed|
    ensures Kept(m + [j], listed + [p], v) == Kept(m, listed, v) + if j >= 0 && p.server == v then 1 else 0
    ensures CountOf(listed + [p], v) == CountOf(listed, v) + if p.server == v then 1 else 0
  {
    assert (m + [j])[..|m|] == m && (listed + [p])[..|m|] == listed;
  }

  lemma GreedyNext(mine: seq<Profile>, listed: seq<Profile>, p: Profile, v: Identity)
    requires Kept(Greedy(mine, listed), listed, v) == Min(CountOf(mine, v), CountOf(listed, v))
    ensures Kept(Greedy(mine, listed + [p]), listed + [p], v) == Min(CountOf(mine, v), CountOf(listed + [p], v))
  {
    hide FirstFree, Kept, CountOf, Proper;
    var m := Greedy(mine, listed);
    var j := FirstFree(mine, m, p, 0);
    assert (listed + [p])[..|listed|] == listed;
    GreedyIsProper(mine, listed);
    GreedyIsProper(mine, listed + [p]);
    KeptNext(m, listed, j, p, v);
    KeptAtMost(m + [j], mine, listed + [p], v);
    FirstFreeMeans(mine, m, p, 0);
    if p.server == v && j < 0 {
      AllTaken(m, mine, listed, v);
    }
  }

  /** When no server of an identity is free, all of them are taken. */
  lemma AllTaken(m: Matching, mine: seq<Profile>, listed: seq<Profile>, v: Identity)
    requires Proper(m, mine, listed)
    requires forall k :: 0 <= k < |mine| ==> Takes(m, k) || mine[k].server != v
    ensures Kept(m, listed, v) == CountOf(mine, v)
  {
    hide Kept, CountOf;
    TakenCount(m, mine, listed, v);
    PlacesCount(mine, v);
    forall k | k in PlacesOf(mine, v) ensures k in TakenOf(m, mine, v) {
      assert Takes(m, k);
      var i :| 0 <= i < |m| && m[i] == k;
    }
    Subset(TakenOf(m, mine, v), PlacesOf(mine, v));
    Subset(PlacesOf(mine, v), TakenOf(m, mine, v));
  }

  // ----- the ids that come out

  function IdOf(mine: seq<Profile>, m: Matching, listed: seq<Profile>, i: nat): string
    requires i < |m| == |listed| && m[i] < |mine|
  {
    if m[i] >= 0 then mine[m[i]].id else listed[i].id
  }

  /** What each entry of the merged listing is. */
  ghost predicate Explained(p: Profile, listed: Profile, mine: seq<Profile>, j: int, subID: string, newID: string)
    requires j < |mine|
  {
    && p.server == listed.server && p.rest == listed.rest && p.subscription == subID
    && p.pinnedCert == (if listed.pinnedCert != "" || j < 0 then listed.pinnedCert else mine[j].pinnedCert)
    && var kept := if j >= 0 then mine[j].id else listed.id;
       p.id == if kept != "" then kept else newID
  }

  /** The entries that need a new id get one each, in order. */
  function FreshBefore(mine: seq<Profile>, listed: seq<Profile>, i: nat): nat
    requires i <= |listed|
  {
    if i == 0 then 0
    else
      GreedyInRange(mine, listed, i - 1);
      FreshBefore(mine, listed, i - 1) + if IdOf(mine, Greedy(mine, listed), listed, i - 1) == "" then 1 else 0
  }

  lemma {:induction false} GreedyPrefix(mine: seq<Profile>, listed: seq<Profile>, n: nat)
    requires n <= |listed|
    ensures Greedy(mine, listed)[..n] == Greedy(mine, listed[..n])
  {
    if n == |listed| {
      assert listed[..n] == listed;
    } else {
      var init := listed[..|listed| - 1];
      GreedyPrefix(mine, init, n);
      assert init[..n] == listed[..n];
      assert Greedy(mine, listed)[..n] == Greedy(mine, init)[..n];
    }
  }

  lemma {:induction false} FreshPrefix(mine: seq<Profile>, listed: seq<Profile>, n: nat, i: nat)
    requires i <= n <= |listed|
    ensures FreshBefore(mine, listed, i) == FreshBefore(mine, listed[..n], i)
  {
    if i > 0 {
      hide Greedy;
      FreshPrefix(mine, listed, n, i - 1);
      GreedyPrefix(mine, listed, n);
      assert Greedy(mine, listed)[..n][i - 1] == Greedy(mine, listed)[i - 1];
    }
  }

  /** Entry by entry: the listing's own fields, the certificate of the match where the listing has
      none, the id of the match, or a new one. */
  lemma {:induction false} MergedMeans(mine: seq<Profile>, listed: seq<Profile>, subID: string,
                                       newIDs: seq<string>, i: nat)
    requires |newIDs| >= |listed| && i < |listed|
    ensures FreshBefore(mine, listed, i) < |newIDs| && -1 <= Greedy(mine, listed)[i] < |mine|
    ensures Explained(Merged(mine, listed, subID, newIDs).0[i], listed[i], mine, Greedy(mine, listed)[i], subID,
                      newIDs[FreshBefore(mine, listed, i)])
    ensures Merged(mine, listed, subID, newIDs).1 == FreshBefore(mine, listed, |listed|)
  {
    hide Greedy, FreshBefore;
    var n := |listed| - 1;
    var init := listed[..n];
    GreedyInRange(mine, listed, i);
    GreedyInRange(mine, listed, n);
    FreshPrefix(mine, listed, n, n);
    FreshPrefix(mine, listed, n, i);
    GreedyPrefix(mine, listed, n);
    FreshNext(mine, listed, n);
    if n > 0 {
      MergedMeans(mine, init, subID, newIDs, if i < n then i else 0);
      if i < n {
        assert Greedy(mine, listed)[..n][i] == Greedy(mine, listed)[i];
      }
    } else {
      NothingFresh(mine, init);
    }
  }

  lemma NothingFresh(mine: seq<Profile>, listed: seq<Profile>)
    ensures FreshBefore(mine, listed, 0) == 0
  {
  }

  lemma FreshNext(mine: seq<Profile>, listed: seq<Profile>, i: nat)
    requires i < |listed|
    ensures -1 <= Greedy(mine, listed)[i] < |mine|
    ensures FreshBefore(mine, listed, i + 1) ==
            FreshBefore(mine, listed, i) + if IdOf(mine, Greedy(mine, listed), listed, i) == "" then 1 else 0
  {
    GreedyInRange(mine, listed, i);
  }

  // ----- ids stay unique

  ghost predicate DistinctIDs(profiles: seq<Profile>) {
    forall i, j :: 0 <= i < j < |profiles| ==> profiles[i].id != profiles[j].id
  }

  /** What the caller sees to: the listing brings no ids, the stored ones are set and differ, and
      the new ones are set, differ and are none of the stored ones. */
  ghost predicate GoodIDs(stored: seq<Profile>, listed: seq<Profile>, newIDs: seq<string>) {
    && DistinctIDs(stored)
    && (forall i :: 0 <= i < |stored| ==> stored[i].id != "" && stored[i].id !in newIDs)
    && (forall i :: 0 <= i < |listed| ==> listed[i].id == "")
    && (forall i :: 0 <= i < |newIDs| ==> newIDs[i] != "")
    && forall i, j :: 0 <= i < j < |newIDs| ==> newIDs[i] != newIDs[j]
  }

  lemma {:induction false} Parted(stored: seq<Profile>, subID: string)
    requires DistinctIDs(stored)
    ensures DistinctIDs(Theirs(stored, subID) + Mine(stored, subID))
    ensures forall p :: p in Theirs(stored, subID) || p in Mine(stored, subID) ==> p in stored
    ensures forall p :: p in Theirs(stored, subID) ==> p.subscription != subID
  {
    if stored != [] {
      hide DistinctIDs;
      var init, last := stored[..|stored| - 1], stored[|stored| - 1];
      LastHasItsOwnID(stored);
      Parted(init, subID);
      assert stored == init + [last];
      var theirs, mine := Theirs(init, subID), Mine(init, subID);
      forall p: Profile | p in theirs + mine ensures p.id != last.id {
        assert p in init;
      }
      DistinctInserted(theirs, mine, last);
    }
  }

  lemma LastHasItsOwnID(stored: seq<Profile>)
    requires DistinctIDs(stored) && stored != []
    ensures var init, last := stored[..|stored| - 1], stored[|stored| - 1];
            DistinctIDs(init) && forall p: Profile :: p in init ==> p.id != last.id
  {
    forall p: Profile | p in stored[..|stored| - 1] ensures p.id != stored[|stored| - 1].id {
      var i :| 0 <= i < |stored| - 1 && stored[i] == p;
    }
  }

  lemma DistinctInserted(a: seq<Profile>, b: seq<Profile>, p: Profile)
    requires DistinctIDs(a + b) && forall q: Profile :: q in a + b ==> q.id != p.id
    ensures DistinctIDs((a + [p]) + b) && DistinctIDs(a + (b + [p]))
  {
    var s := a + b;
    var left, right := (a + [p]) + b, a + (b + [p]);
    assert right == s + [p];
    forall i, j | 0 <= i < j < |left| ensures left[i].id != left[j].id {
      var i' := if i < |a| then i else i - 1;
      var j' := if j < |a| then j else j - 1;
      if i == |a| {
        assert left[j] == s[j'] && s[j'] in s;
      } else if j == |a| {
        assert left[i] == s[i'] && s[i'] in s;
      } else {
        assert left[i] == s[i'] && left[j] == s[j'];
      }
    }
  }

  lemma {:induction false} FreshGrows(mine: seq<Profile>, listed: seq<Profile>, i: nat, j: nat)
    requires i <= j <= |listed|
    ensures FreshBefore(mine, listed, i) <= FreshBefore(mine, listed, j) <= FreshBefore(mine, listed, i) + (j - i)
    ensures i < |listed| ==> -1 <= Greedy(mine, listed)[i] < |mine|
    ensures i < j && IdOf(mine, Greedy(mine, listed), listed, i) == "" ==>
              FreshBefore(mine, listed, i) < FreshBefore(mine, listed, j)
  {
    hide Greedy;
    if i < |listed| {
      GreedyInRange(mine, listed, i);
    }
    if i < j {
      FreshGrows(mine, listed, i, j - 1);
    }
  }

  lemma EntriesDiffer(mine: seq<Profile>, listed: seq<Profile>, subID: string, newIDs: seq<string>, i: nat, j: nat)
    requires |newIDs| >= |listed| && i < j < |listed| && GoodIDs(mine, listed, newIDs)
    ensures Merged(mine, listed, subID, newIDs).0[i].id != Merged(mine, listed, subID, newIDs).0[j].id
  {
    hide Greedy, Merged, FreshBefore;
    var m := Greedy(mine, listed);
    MergedMeans(mine, listed, subID, newIDs, i);
    MergedMeans(mine, listed, subID, newIDs, j);
    FreshGrows(mine, listed, i, j);
    GreedyIsProper(mine, listed);
    assert newIDs[FreshBefore(mine, listed, i)] in newIDs && newIDs[FreshBefore(mine, listed, j)] in newIDs;
    if m[i] >= 0 && m[j] >= 0 {
      assert m[i] != m[j];
    }
  }

  function MergedAll(stored: seq<Profile>, listed: seq<Profile>, subID: string, newIDs: seq<string>): seq<Profile>
    requires |newIDs| >= |listed|
  {
    Theirs(stored, subID) + Merged(Mine(stored, subID), listed, subID, newIDs).0
  }

  lemma PartIsGood(stored: seq<Profile>, listed: seq<Profile>, subID: string, newIDs: seq<string>)
    requires GoodIDs(stored, listed, newIDs)
    ensures GoodIDs(Mine(stored, subID), listed, newIDs)
  {
    hide Theirs, Mine;
    Parted(stored, subID);
    var theirs, mine := Theirs(stored, subID), Mine(stored, subID);
    forall i | 0 <= i < |mine| ensures mine[i].id != "" && mine[i].id !in newIDs {
      assert mine[i] in mine;
    }
    forall i, j | 0 <= i < j < |mine| ensures mine[i].id != mine[j].id {
      assert (theirs + mine)[|theirs| + i] == mine[i] && (theirs + mine)[|theirs| + j] == mine[j];
    }
  }

  lemma TheirsAreApart(stored: seq<Profile>, listed: seq<Profile>, subID: string, newIDs: seq<string>, i: nat)
    requires GoodIDs(stored, listed, newIDs) && i < |Theirs(stored, subID)|
    ensures var theirs, mine := Theirs(stored, subID), Mine(stored, subID);
            && theirs[i].id != "" && theirs[i].id !in newIDs
            && forall k :: 0 <= k < |mine| ==> theirs[i].id != mine[k].id
  {
    hide Theirs, Mine;
    var theirs, mine := Theirs(stored, subID), Mine(stored, subID);
    Parted(stored, subID);
    assert theirs[i] in theirs;
    forall k | 0 <= k < |mine| ensures theirs[i].id != mine[k].id {
      assert (theirs + mine)[i] == theirs[i] && (theirs + mine)[|theirs| + k] == mine[k];
    }
  }

  lemma EntryIsNotTheirs(stored: seq<Profile>, listed: seq<Profile>, subID: string, newIDs: seq<string>, i: nat, j: nat)
    requires |newIDs| >= |listed| && GoodIDs(stored, listed, newIDs)
    requires i < |Theirs(stored, subID)| && j < |listed|
    ensures Theirs(stored, subID)[i].id != Merged(Mine(stored, subID), listed, subID, newIDs).0[j].id
    ensures Theirs(stored, subID)[i].id != "" && Merged(Mine(stored, subID), listed, subID, newIDs).0[j].id != ""
  {
    hide Greedy, Merged, FreshBefore, Theirs, Mine;
    var mine := Mine(stored, subID);
    PartIsGood(stored, listed, subID, newIDs);
    MergedMeans(mine, listed, subID, newIDs, j);
    TheirsAreApart(stored, listed, subID, newIDs, i);
    assert newIDs[FreshBefore(mine, listed, j)] in newIDs;
    var k := Greedy(mine, listed)[j];
    if k >= 0 {
      assert mine[k].id != "";
    }
  }

  /** Profiles from elsewhere stay as they are and in order, everything else is of this
      subscription, and no two profiles share an id. */
  lemma IDsStayUnique(stored: seq<Profile>, listed: seq<Profile>, subID: string, newIDs: seq<string>)
    requires |newIDs| >= |listed| && GoodIDs(stored, listed, newIDs)
    ensures var out := MergedAll(stored, listed, subID, newIDs);
            DistinctIDs(out) && Theirs(out, subID) == Theirs(stored, subID)
  {
    hide Greedy, Merged, Mine, Theirs;
    var theirs, entries := Theirs(stored, subID), Merged(Mine(stored, subID), listed, subID, newIDs).0;
    var out := theirs + entries;
    PartIsGood(stored, listed, subID, newIDs);
    forall i, j | 0 <= i < j < |out| ensures out[i].id != out[j].id {
      if j < |theirs| {
        Parted(stored, subID);
        assert (theirs + Mine(stored, subID))[i] == theirs[i] && (theirs + Mine(stored, subID))[j] == theirs[j];
      } else if i < |theirs| {
        EntryIsNotTheirs(stored, listed, subID, newIDs, i, j - |theirs|);
      } else {
        EntriesDiffer(Mine(stored, subID), listed, subID, newIDs, i - |theirs|, j - |theirs|);
      }
    }
    MineAgain(stored, listed, subID, newIDs);
  }

  lemma PartsNext(stored: seq<Profile>, p: Profile, subID: string)
    ensures Theirs(stored + [p], subID) ==
            if p.subscription == subID then Theirs(stored, subID) else Theirs(stored, subID) + [p]
    ensures Mine(stored + [p], subID) ==
            if p.subscription == subID then Mine(stored, subID) + [p] else Mine(stored, subID)
  {
    assert (stored + [p])[..|stored|] == stored;
  }

  lemma NoParts(subID: string)
    ensures Theirs([], subID) == [] && Mine([], subID) == []
  {
  }

  predicate NoneOf(profiles: seq<Profile>, subID: string) {
    forall i :: 0 <= i < |profiles| ==> profiles[i].subscription != subID
  }

  predicate AllOf(profiles: seq<Profile>, subID: string) {
    forall i :: 0 <= i < |profiles| ==> profiles[i].subscription == subID
  }

  lemma {:induction false} OnlyTheirs(theirs: seq<Profile>, subID: string)
    requires NoneOf(theirs, subID)
    ensures Theirs(theirs, subID) == theirs && Mine(theirs, subID) == []
  {
    hide Theirs, Mine;
    if theirs == [] {
      NoParts(subID);
    } else {
      var init, p := theirs[..|theirs| - 1], theirs[|theirs| - 1];
      assert theirs == init + [p];
      OnlyTheirs(init, subID);
      PartsNext(init, p, subID);
    }
  }

  lemma {:induction false} PartsOf(theirs: seq<Profile>, entries: seq<Profile>, subID: string)
    requires NoneOf(theirs, subID) && AllOf(entries, subID)
    ensures Theirs(theirs + entries, subID) == theirs && Mine(theirs + entries, subID) == entries
  {
    hide Theirs, Mine, NoneOf;
    if entries == [] {
      assert theirs + entries == theirs;
      OnlyTheirs(theirs, subID);
    } else {
      var init, p := entries[..|entries| - 1], entries[|entries| - 1];
      assert theirs + entries == (theirs + init) + [p] && entries == init + [p];
      PartsOf(theirs, init, subID);
      PartsNext(theirs + init, p, subID);
    }
  }

  lemma {:induction false} TheirsAreTheirs(stored: seq<Profile>, subID: string)
    ensures NoneOf(Theirs(stored, subID), subID)
  {
    if stored != [] {
      TheirsAreTheirs(stored[..|stored| - 1], subID);
    }
  }

  lemma MineAgain(stored: seq<Profile>, listed: seq<Profile>, subID: string, newIDs: seq<string>)
    requires |newIDs| >= |listed|
    ensures var out := MergedAll(stored, listed, subID, newIDs);
            && Theirs(out, subID) == Theirs(stored, subID)
            && Mine(out, subID) == Merged(Mine(stored, subID), listed, subID, newIDs).0
  {
    hide Greedy, Merged, Mine, Theirs, FreshBefore;
    var mine := Mine(stored, subID);
    var entries := Merged(mine, listed, subID, newIDs).0;
    TheirsAreTheirs(stored, subID);
    forall i | 0 <= i < |entries| ensures entries[i].subscription == subID {
      MergedMeans(mine, listed, subID, newIDs, i);
    }
    PartsOf(Theirs(stored, subID), entries, subID);
  }

  // ----- the same listing again

  predicate SameServers(a: seq<Profile>, b: seq<Profile>) {
    |a| == |b| && forall i :: 0 <= i < |a| ==> a[i].server == b[i].server
  }

  /** Against servers that are the listed ones, every listed server takes the one in its place. */
  lemma {:induction false} InPlace(mine: seq<Profile>, listed: seq<Profile>, n: nat)
    requires SameServers(mine, listed) && n <= |listed|
    ensures Greedy(mine, listed[..n]) == seq(n, i => i)
  {
    if n > 0 {
      hide FirstFree;
      InPlace(mine, listed, n - 1);
      assert listed[..n][..n - 1] == listed[..n - 1];
      var m := Greedy(mine, listed[..n - 1]);
      var j := FirstFree(mine, m, listed[n - 1], 0);
      FirstFreeMeans(mine, m, listed[n - 1], 0);
      forall k ensures Takes(m, k) <==> 0 <= k < n - 1 {
        if 0 <= k < n - 1 {
          assert m[k] == k;
        }
      }
      assert j == n - 1;
    }
  }

  /** Merging the same listing once more changes nothing, whatever new ids are offered. */
  lemma MergingAgain(stored: seq<Profile>, listed: seq<Profile>, subID: string, newIDs: seq<string>,
                     moreIDs: seq<string>)
    requires |newIDs| >= |listed| && |moreIDs| >= |listed| && GoodIDs(stored, listed, newIDs)
    ensures var once := MergedAll(stored, listed, subID, newIDs);
            MergedAll(once, listed, subID, moreIDs) == once
  {
    hide Greedy, Merged, Mine, Theirs, FreshBefore;
    var mine := Mine(stored, subID);
    var entries := Merged(mine, listed, subID, newIDs).0;
    MineAgain(stored, listed, subID, newIDs);
    PartIsGood(stored, listed, subID, newIDs);
    forall i | 0 <= i < |listed| ensures entries[i].server == listed[i].server {
      MergedMeans(mine, listed, subID, newIDs, i);
    }
    InPlace(entries, listed, |listed|);
    assert listed[..|listed|] == listed;
    var again := Merged(entries, listed, subID, moreIDs).0;
    forall i | 0 <= i < |listed| ensures again[i] == entries[i] {
      MergedMeans(mine, listed, subID, newIDs, i);
      MergedMeans(entries, listed, subID, moreIDs, i);
      assert newIDs[FreshBefore(mine, listed, i)] != "";
    }
    assert again == entries;
  }

  // ----- the groups

  function Pruned(members: seq<string>, alive: set<string>): seq<string> {
    if members == [] then []
    else
      var init := Pruned(members[..|members| - 1], alive);
      if members[|members| - 1] in alive then init + [members[|members| - 1]] else init
  }

  function IDs(profiles: seq<Profile>): set<string> {
    set i | 0 <= i < |profiles| :: profiles[i].id
  }

  method PruneMembers(groups: seq<Group>, profiles: seq<Profile>) returns (out: seq<Group>)
    ensures |out| == |groups|
    ensures forall i :: 0 <= i < |groups| ==> out[i] == groups[i].(members := Pruned(groups[i].members, IDs(profiles)))
  {
    var alive: set<string> := {};
    for i := 0 to |profiles|
      invariant alive == IDs(profiles[..i])
    {
      assert IDs(profiles[..i + 1]) == IDs(profiles[..i]) + {profiles[i].id} by {
        assert forall j :: 0 <= j < i ==> profiles[..i + 1][j] == profiles[..i][j];
        assert profiles[..i + 1][i] == profiles[i];
      }
      alive := alive + {profiles[i].id};
    }
    assert profiles[..|profiles|] == profiles;
    out := [];
    for i := 0 to |groups|
      invariant |out| == i
      invariant forall j :: 0 <= j < i ==> out[j] == groups[j].(members := Pruned(groups[j].members, IDs(profiles)))
    {
      var kept := Keep(groups[i].members, alive);
      out := out + [groups[i].(members := kept)];
    }
  }

  method Keep(members: seq<string>, alive: set<string>) returns (kept: seq<string>)
    ensures kept == Pruned(members, alive)
  {
    kept := [];
    for i := 0 to |members|
      invariant kept == Pruned(members[..i], alive)
    {
      assert members[..i + 1][..i] == members[..i];
      if members[i] in alive {
        kept := kept + [members[i]];
      }
    }
    assert members[..|members|] == members;
  }

  /** Members are kept in their order, so that the first that is still there comes first. */
  lemma {:induction false} PrunedJoins(a: seq<string>, b: seq<string>, alive: set<string>)
    ensures Pruned(a + b, alive) == Pruned(a, alive) + Pruned(b, alive)
    ensures |a| == 1 ==> Pruned(a, alive) == if a[0] in alive then a else []
  {
    if b == [] {
      assert a + b == a;
    } else {
      assert (a + b)[..|a + b| - 1] == a + b[..|b| - 1];
      PrunedJoins(a, b[..|b| - 1], alive);
    }
  }

  lemma {:induction false} PrunedMeans(members: seq<string>, alive: set<string>)
    ensures forall id :: id in Pruned(members, alive) <==> id in members && id in alive
  {
    if members != [] {
      PrunedMeans(members[..|members| - 1], alive);
      assert members == members[..|members| - 1] + [members[|members| - 1]];
    }
  }

  lemma EntryHasIdOf(mine: seq<Profile>, listed: seq<Profile>, subID: string, newIDs: seq<string>, i: nat, j: nat)
    requires |newIDs| >= |listed| && GoodIDs(mine, listed, newIDs) && i < |listed| && j < |mine|
    ensures Merged(mine, listed, subID, newIDs).0[i].id == mine[j].id <==> Greedy(mine, listed)[i] == j
  {
    hide Greedy, Merged, FreshBefore;
    var k := Greedy(mine, listed)[i];
    MergedMeans(mine, listed, subID, newIDs, i);
    assert newIDs[FreshBefore(mine, listed, i)] in newIDs;
    if k >= 0 {
      assert mine[k].id != "" && (k < j || j < k ==> mine[k].id != mine[j].id);
    }
  }

  predicate HasID(profiles: seq<Profile>, id: string) {
    exists i :: 0 <= i < |profiles| && profiles[i].id == id
  }

  lemma EntryWithId(mine: seq<Profile>, listed: seq<Profile>, subID: string, newIDs: seq<string>, j: nat)
    requires |newIDs| >= |listed| && GoodIDs(mine, listed, newIDs) && j < |mine|
    ensures HasID(Merged(mine, listed, subID, newIDs).0, mine[j].id) <==> Takes(Greedy(mine, listed), j)
  {
    hide Greedy, Merged, GoodIDs;
    var m, entries := Greedy(mine, listed), Merged(mine, listed, subID, newIDs).0;
    forall i | 0 <= i < |listed| ensures entries[i].id == mine[j].id <==> m[i] == j {
      EntryHasIdOf(mine, listed, subID, newIDs, i, j);
    }
    if Takes(m, j) {
      var i :| 0 <= i < |m| && m[i] == j;
      assert entries[i].id == mine[j].id;
    }
    if HasID(entries, mine[j].id) {
      var i :| 0 <= i < |entries| && entries[i].id == mine[j].id;
      assert m[i] == j;
    }
  }

  /** After a refresh a group has lost exactly the members whose server was of this subscription
      and found no match; a server that is listed as often as it is stored always finds one. */
  lemma MembersAreKept(stored: seq<Profile>, listed: seq<Profile>, subID: string, newIDs: seq<string>,
                       members: seq<string>, j: nat)
    requires |newIDs| >= |listed| && GoodIDs(stored, listed, newIDs) && j < |Mine(stored, subID)|
    requires Mine(stored, subID)[j].id in members
    ensures var mine := Mine(stored, subID);
            var kept := Pruned(members, IDs(MergedAll(stored, listed, subID, newIDs)));
            && (mine[j].id in kept <==> Takes(Greedy(mine, listed), j))
            && (CountOf(listed, mine[j].server) >= CountOf(mine, mine[j].server) ==> mine[j].id in kept)
  {
    hide Greedy, Merged, Mine, Theirs, CountOf, Kept;
    var mine := Mine(stored, subID);
    var theirs, entries := Theirs(stored, subID), Merged(mine, listed, subID, newIDs).0;
    var out := theirs + entries;
    PrunedMeans(members, IDs(out));
    PartIsGood(stored, listed, subID, newIDs);
    EntryWithId(mine, listed, subID, newIDs, j);
    assert out == MergedAll(stored, listed, subID, newIDs);
    Parted(stored, subID);
    forall i | 0 <= i < |theirs| ensures theirs[i].id != mine[j].id {
      assert (theirs + mine)[i] == theirs[i] && (theirs + mine)[|theirs| + j] == mine[j];
    }
    IdAmong(theirs, entries, mine[j].id);
    if CountOf(listed, mine[j].server) >= CountOf(mine, mine[j].server) {
      AllAreTaken(mine, listed, j);
    }
  }

  lemma IdAmong(a: seq<Profile>, b: seq<Profile>, id: string)
    requires forall i :: 0 <= i < |a| ==> a[i].id != id
    ensures id in IDs(a + b) <==> HasID(b, id)
  {
    if i :| 0 <= i < |b| && b[i].id == id {
      assert (a + b)[|a| + i].id == id;
    }
  }

  lemma AllAreTaken(mine: seq<Profile>, listed: seq<Profile>, j: nat)
    requires j < |mine| && CountOf(listed, mine[j].server) >= CountOf(mine, mine[j].server)
    ensures Takes(Greedy(mine, listed), j)
  {
    hide Greedy, CountOf, Kept;
    var m, v := Greedy(mine, listed), mine[j].server;
    KeepsTheMost(mine, listed, v);
    GreedyIsProper(mine, listed);
    TakenCount(m, mine, listed, v);
    PlacesCount(mine, v);
    Subset(TakenOf(m, mine, v), PlacesOf(mine, v));
    assert j in TakenOf(m, mine, v);
  }
}
