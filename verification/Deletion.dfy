/**
 Deleting by a bounded loop. Both the iptables jumps and the policy rules are taken out by
 repeating "delete the first one" until it fails, a fixed number of times at most.
 */
module Deletion {

  function Count<T>(s: seq<T>, f: T -> bool): nat {
    if s == [] then 0 else (if f(s[0]) then 1 else 0) + Count(s[1..], f)
  }

  /** The position of the first match, counted from one; 0 when there is none. */
  function First<T>(s: seq<T>, f: T -> bool): (n: nat)
    ensures n <= |s|
  {
    if s == [] then 0
    else if f(s[0]) then 1
    else
      var n := First(s[1..], f);
      if n == 0 then 0 else n + 1
  }

  function WithoutFirst<T>(s: seq<T>, f: T -> bool): seq<T> {
    if s == [] then [] else if f(s[0]) then s[1..] else [s[0]] + WithoutFirst(s[1..], f)
  }

  function DeleteUpTo<T>(s: seq<T>, f: T -> bool, n: nat): seq<T>
    decreases n
  {
    if n == 0 then s else DeleteUpTo(WithoutFirst(s, f), f, n - 1)
  }

  function Without<T>(s: seq<T>, f: T -> bool): seq<T> {
    if s == [] then [] else if f(s[0]) then Without(s[1..], f) else [s[0]] + Without(s[1..], f)
  }

  /** No element matches both. */
  ghost predicate Apart<T(!new)>(f: T -> bool, g: T -> bool) {
    forall x :: !(f(x) && g(x))
  }

  lemma {:induction false} CountIsNone<T>(s: seq<T>, f: T -> bool)
    ensures Count(s, f) == 0 <==> forall i :: 0 <= i < |s| ==> !f(s[i])
    ensures First(s, f) == 0 <==> Count(s, f) == 0
  {
    if s != [] {
      CountIsNone(s[1..], f);
      assert forall i :: 0 <= i < |s| - 1 ==> s[1..][i] == s[i + 1];
    }
  }

  /** Cutting out the element at the first match's position is taking the first match out. */
  lemma {:induction false} CutAtFirst<T>(s: seq<T>, f: T -> bool)
    ensures var n := First(s, f);
            WithoutFirst(s, f) == if n == 0 then s else s[..n - 1] + s[n..]
  {
    if s != [] && !f(s[0]) {
      CutAtFirst(s[1..], f);
      var n := First(s[1..], f);
      if n > 0 {
        CutBehind(s, n);
      }
    }
  }

  lemma CutBehind<T>(s: seq<T>, n: nat)
    requires 0 < n < |s|
    ensures s[..n] + s[n + 1..] == [s[0]] + (s[1..][..n - 1] + s[1..][n..])
  {
  }

  lemma {:induction false} WithoutFirstCounts<T>(s: seq<T>, f: T -> bool)
    ensures Count(WithoutFirst(s, f), f) == if Count(s, f) == 0 then 0 else Count(s, f) - 1
    ensures Without(WithoutFirst(s, f), f) == Without(s, f)
    ensures Count(s, f) == 0 ==> WithoutFirst(s, f) == s
  {
    if s != [] && !f(s[0]) {
      WithoutFirstCounts(s[1..], f);
      var rest := WithoutFirst(s[1..], f);
      assert ([s[0]] + rest)[1..] == rest;
    }
  }

  lemma {:induction false} WithoutFirstSpares<T(!new)>(s: seq<T>, f: T -> bool, g: T -> bool)
    requires Apart(f, g)
    ensures Count(WithoutFirst(s, f), g) == Count(s, g)
  {
    if s != [] && !f(s[0]) {
      WithoutFirstSpares(s[1..], f, g);
      var rest := WithoutFirst(s[1..], f);
      assert ([s[0]] + rest)[1..] == rest;
    }
  }

  lemma {:induction false} NoneToRemove<T>(s: seq<T>, f: T -> bool)
    requires Count(s, f) == 0
    ensures Without(s, f) == s
  {
    if s != [] {
      NoneToRemove(s[1..], f);
    }
  }

  /** The bounded loop removes every match exactly when there are no more than its bound. */
  lemma {:induction false} DeleteUpToResult<T>(s: seq<T>, f: T -> bool, n: nat)
    ensures Count(s, f) <= n ==> DeleteUpTo(s, f, n) == Without(s, f)
    ensures Count(DeleteUpTo(s, f, n), f) == if Count(s, f) <= n then 0 else Count(s, f) - n
    decreases n
  {
    WithoutFirstCounts(s, f);
    if n == 0 {
      if Count(s, f) == 0 {
        NoneToRemove(s, f);
      }
    } else {
      DeleteUpToResult(WithoutFirst(s, f), f, n - 1);
    }
  }

  lemma {:induction false} DeleteUpToSpares<T(!new)>(s: seq<T>, f: T -> bool, g: T -> bool, n: nat)
    requires Apart(f, g)
    ensures Count(DeleteUpTo(s, f, n), g) == Count(s, g)
    decreases n
  {
    if n > 0 {
      WithoutFirstSpares(s, f, g);
      DeleteUpToSpares(WithoutFirst(s, f), f, g, n - 1);
    }
  }

  lemma {:induction false} DeletingNoneIsDone<T>(s: seq<T>, f: T -> bool, n: nat)
    requires Count(s, f) == 0
    ensures DeleteUpTo(s, f, n) == s
    decreases n
  {
    if n > 0 {
      WithoutFirstCounts(s, f);
      DeletingNoneIsDone(s, f, n - 1);
    }
  }

  lemma {:induction false} WithoutCounts<T>(s: seq<T>, f: T -> bool)
    ensures Count(Without(s, f), f) == 0
  {
    if s != [] {
      WithoutCounts(s[1..], f);
      if !f(s[0]) {
        var rest := Without(s[1..], f);
        assert ([s[0]] + rest)[1..] == rest;
      }
    }
  }

  lemma {:induction false} WithoutSpares<T(!new)>(s: seq<T>, f: T -> bool, g: T -> bool)
    requires Apart(f, g)
    ensures Count(Without(s, f), g) == Count(s, g)
  {
    if s != [] {
      WithoutSpares(s[1..], f, g);
      if !f(s[0]) {
        var rest := Without(s[1..], f);
        assert ([s[0]] + rest)[1..] == rest;
      }
    }
  }
}
