/** A ring of slots that keeps the newest values: what `entries`, `next` and `full` stand for in
    the log, the journal and the output tail. */
module Rings {

  function LastOf<T>(s: seq<T>, n: nat): seq<T> {
    if |s| <= n then s else s[|s| - n..]
  }

  /** The slots in the order they were written. */
  function Ordered<T>(slots: seq<T>, next: nat, full: bool): seq<T>
    requires next <= |slots|
  {
    if full then slots[next..] + slots[..next] else slots[..next]
  }

  /** The slots hold the newest of everything that was ever written; the others are blank. */
  ghost predicate Keeps<T>(slots: seq<T>, next: nat, full: bool, all: seq<T>, blank: T) {
    && next < |slots|
    && Ordered(slots, next, full) == LastOf(all, |slots|)
    && (if full then |all| >= |slots| else |all| == next)
    && (!full ==> forall i :: next <= i < |slots| ==> slots[i] == blank)
  }

  lemma EmptyKeeps<T>(slots: seq<T>, blank: T)
    requires |slots| > 0 && forall i :: 0 <= i < |slots| ==> slots[i] == blank
    ensures Keeps(slots, 0, false, [], blank)
  {
  }

  function Following(next: nat, size: nat): nat
    requires next < size
  {
    (next + 1) % size
  }

  lemma FollowingMeans(next: nat, size: nat)
    requires next < size
    ensures Following(next, size) == if next + 1 == size then 0 else next + 1
  {
  }

  /** Writing the next slot adds a value and lets go of the oldest one when the ring is full. */
  lemma Written<T>(slots: seq<T>, next: nat, full: bool, all: seq<T>, blank: T, e: T)
    requires Keeps(slots, next, full, all, blank)
    ensures var after := Following(next, |slots|);
            Keeps(slots[next := e], after, full || after == 0, all + [e], blank)
  {
    FollowingMeans(next, |slots|);
    var n := |slots|;
    var changed := slots[next := e];
    if full {
      if next + 1 == n {
        WrittenLastSlot(slots, all, e);
      } else {
        WrittenMiddle(slots, next, all, e);
      }
    } else {
      assert changed[..next + 1] == slots[..next] + [e];
      assert slots[..next] == all;
      if next + 1 == n {
        assert changed[0..] + changed[..0] == changed == all + [e];
      }
    }
  }

  lemma WrittenLastSlot<T>(slots: seq<T>, all: seq<T>, e: T)
    requires |slots| > 0 && |all| >= |slots|
    requires Ordered(slots, |slots| - 1, true) == LastOf(all, |slots|)
    ensures Ordered(slots[|slots| - 1 := e], 0, true) == LastOf(all + [e], |slots|)
  {
    var n := |slots|;
    var last := LastOf(all, n);
    assert last[1..] == slots[..n - 1];
    assert slots[n - 1 := e] == slots[..n - 1] + [e];
    OneLater(all, e, n);
    assert Ordered(slots[n - 1 := e], 0, true) == slots[n - 1 := e];
  }

  lemma OneLater<T>(all: seq<T>, e: T, n: nat)
    requires 0 < n <= |all|
    ensures LastOf(all + [e], n) == LastOf(all, n)[1..] + [e]
  {
  }

  lemma WrittenMiddle<T>(slots: seq<T>, next: nat, all: seq<T>, e: T)
    requires next + 1 < |slots| && |all| >= |slots|
    requires Ordered(slots, next, true) == LastOf(all, |slots|)
    ensures Ordered(slots[next := e], next + 1, true) == LastOf(all + [e], |slots|)
  {
    var changed := slots[next := e];
    OneLater(all, e, |slots|);
    assert LastOf(all, |slots|)[1..] == slots[next + 1..] + slots[..next];
    assert changed[next + 1..] == slots[next + 1..];
    assert changed[..next + 1] == slots[..next] + [e];
  }

  function Newest(next: nat, size: nat): nat
    requires next < size
  {
    (next - 1 + size) % size
  }

  lemma NewestMeans(next: nat, size: nat)
    requires next < size
    ensures Newest(next, size) == if next == 0 then size - 1 else next - 1
  {
    if next > 0 {
      assert (next - 1 + size) % size == next - 1;
    }
  }

  /** The slot before the next one holds the newest value, and changing it changes that. */
  lemma Renewed<T>(slots: seq<T>, next: nat, full: bool, all: seq<T>, blank: T, e: T)
    requires Keeps(slots, next, full, all, blank) && all != []
    ensures var i := Newest(next, |slots|);
            && slots[i] == all[|all| - 1]
            && Keeps(slots[i := e], next, full, all[..|all| - 1] + [e], blank)
  {
    hide Newest, Following;
    NewestMeans(next, |slots|);
    var i := Newest(next, |slots|);
    var put := slots[i := e];
    var before, after := Ordered(slots, next, full), Ordered(put, next, full);
    assert before[|before| - 1] == slots[i];
    assert after == before[..|before| - 1] + [e];
    var changed := all[..|all| - 1] + [e];
    var n := |slots|;
    if |all| <= n {
      assert before == all;
      assert LastOf(changed, n) == changed;
    } else {
      assert before == all[|all| - n..];
      assert LastOf(changed, n) == changed[|all| - n..];
      assert changed[|all| - n..] == before[..|before| - 1] + [e];
    }
  }

  // ----- slots in use

  function InUse<T(==)>(slots: seq<T>, blank: T): nat {
    if slots == [] then 0
    else InUse(slots[..|slots| - 1], blank) + if slots[|slots| - 1] == blank then 0 else 1
  }

  lemma {:induction false} AllNonBlank<T>(slots: seq<T>, blank: T)
    requires forall i :: 0 <= i < |slots| ==> slots[i] != blank
    ensures InUse(slots, blank) == |slots|
  {
    if slots != [] {
      AllNonBlank(slots[..|slots| - 1], blank);
    }
  }

  lemma {:induction false} InUseJoins<T>(a: seq<T>, b: seq<T>, blank: T)
    ensures InUse(a + b, blank) == InUse(a, blank) + InUse(b, blank)
  {
    if b == [] {
      assert a + b == a;
    } else {
      assert (a + b)[..|a + b| - 1] == a + b[..|b| - 1];
      InUseJoins(a, b[..|b| - 1], blank);
    }
  }

  lemma {:induction false} BlanksAreUnused<T>(slots: seq<T>, blank: T)
    requires forall i :: 0 <= i < |slots| ==> slots[i] == blank
    ensures InUse(slots, blank) == 0
  {
    if slots != [] {
      BlanksAreUnused(slots[..|slots| - 1], blank);
    }
  }

  lemma UseOfSplit<T>(slots: seq<T>, next: nat, blank: T)
    requires next <= |slots|
    ensures InUse(slots, blank) == InUse(slots[..next], blank) + InUse(slots[next..], blank)
    ensures InUse(slots, blank) == InUse(slots[next..] + slots[..next], blank)
  {
    hide InUse;
    assert slots == slots[..next] + slots[next..];
    InUseJoins(slots[..next], slots[next..], blank);
    InUseJoins(slots[next..], slots[..next], blank);
  }

  lemma LastAreAmong<T>(all: seq<T>, n: nat, blank: T)
    requires forall i :: 0 <= i < |all| ==> all[i] != blank
    ensures InUse(LastOf(all, n), blank) == |LastOf(all, n)|
  {
    AllNonBlank(LastOf(all, n), blank);
  }

  /** As many slots are in use as values are kept. */
  lemma UseIsWhatIsKept<T>(slots: seq<T>, next: nat, full: bool, all: seq<T>, blank: T)
    requires Keeps(slots, next, full, all, blank)
    requires forall i :: 0 <= i < |all| ==> all[i] != blank
    ensures InUse(slots, blank) == |LastOf(all, |slots|)|
  {
    hide InUse, LastOf;
    UseOfSplit(slots, next, blank);
    LastAreAmong(all, |slots|, blank);
    if !full {
      BlanksAreUnused(slots[next..], blank);
    }
  }

  /** Each slot holds a value that was written, or is blank. */
  lemma SlotsMean<T>(slots: seq<T>, next: nat, full: bool, all: seq<T>, blank: T, i: nat)
    requires Keeps(slots, next, full, all, blank) && i < |slots|
    ensures slots[i] in all || slots[i] == blank
  {
    var kept := Ordered(slots, next, full);
    if full {
      assert slots[i] == kept[if i < next then |slots| - next + i else i - next];
      assert slots[i] in LastOf(all, |slots|);
    } else if i < next {
      assert slots[i] == kept[i];
      assert slots[i] in LastOf(all, |slots|);
    }
  }

  lemma KeepsMeans<T>(slots: seq<T>, next: nat, full: bool, all: seq<T>, blank: T)
    requires Keeps(slots, next, full, all, blank)
    ensures next < |slots| && Ordered(slots, next, full) == LastOf(all, |slots|)
    ensures next == 0 && !full <==> all == []
  {
  }
}
