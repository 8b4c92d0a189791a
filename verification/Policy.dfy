/** Policy routing as the kernel keeps it: `ip rule` by preference and the routing tables. */
module Policy {
  import opened Capture
  import opened Deletion

  const MAIN_TABLE: int := 254

  datatype Selector = Everything | To(net: string) | FwMark(mark: int)

  datatype IpRule = IpRule(pref: int, selector: Selector, table: int)

  datatype Route = DefaultVia(device: string) | LocalDefault | NetVia(net: string, device: string)

  datatype State = State(rules: seq<IpRule>, tables: map<int, seq<Route>>)

  datatype Cmd =
    | RuleAdd(rule: IpRule)
    | RuleDel(pref: int)
    | RuleDelMark(mark: int, table: int)
    | RouteAdd(table: int, route: Route)
    | RouteFlush(table: int)

  function OnMark(mark: int, table: int): IpRule -> bool {
    (r: IpRule) => r.selector == FwMark(mark) && r.table == table
  }

  function AtPref(pref: int): IpRule -> bool {
    (r: IpRule) => r.pref == pref
  }

  /** A new rule goes behind those of its own and smaller preferences. */
  function InsertByPref(rules: seq<IpRule>, r: IpRule): seq<IpRule> {
    if rules == [] || r.pref < rules[0].pref then [r] + rules else [rules[0]] + InsertByPref(rules[1..], r)
  }

  function RoutesOf(st: State, table: int): seq<Route> {
    if table in st.tables then st.tables[table] else []
  }

  predicate Legal(c: Cmd, st: State) {
    && (c.RuleDel? ==> Count(st.rules, AtPref(c.pref)) > 0)
    && (c.RuleDelMark? ==> Count(st.rules, OnMark(c.mark, c.table)) > 0)
  }

  function Exec(c: Cmd, st: State): State {
    match c
    case RuleAdd(rule) => st.(rules := InsertByPref(st.rules, rule))
    case RuleDel(pref) => st.(rules := WithoutFirst(st.rules, AtPref(pref)))
    case RuleDelMark(mark, table) => st.(rules := WithoutFirst(st.rules, OnMark(mark, table)))
    case RouteAdd(table, route) => st.(tables := st.tables[table := RoutesOf(st, table) + [route]])
    case RouteFlush(table) => st.(tables := st.tables[table := []])
  }

  function Replay(st: State, cmds: seq<Cmd>): State {
    if cmds == [] then st else Exec(cmds[|cmds| - 1], Replay(st, cmds[..|cmds| - 1]))
  }

  /** The kernel's side: a command may fail for reasons of its own, and fails when there is
      nothing to delete. `done` keeps the commands that took effect, `tried` all but those of a
      teardown. */
  class Kernel {
    var st: State
    ghost var done: seq<Cmd>
    ghost var tried: seq<Cmd>
    ghost var start: State

    ghost predicate Valid()
      reads this
    {
      st == Replay(start, done)
    }

    constructor (st: State)
      ensures Valid() && this.st == st && done == [] && tried == [] && start == st
    {
      this.st := st;
      done, tried, start := [], [], st;
    }

    /** A command that may fail for any reason, or be refused. */
    method Run(c: Cmd) returns (ok: bool)
      requires Valid()
      modifies this
      ensures Valid() && start == old(start) && tried == old(tried) + [c]
      ensures ok ==> Legal(c, old(st)) && done == old(done) + [c] && st == Exec(c, old(st))
      ensures !ok ==> done == old(done) && st == old(st)
    {
      tried := tried + [c];
      var willing: bool := *;
      ok := willing && Legal(c, st);
      if ok {
        assert (done + [c])[..|done|] == done;
        st := Exec(c, st);
        done := done + [c];
      }
    }

    /** A command of a teardown, which fails only when there is nothing for it to do. */
    method Undo(c: Cmd) returns (ok: bool)
      requires Valid()
      modifies this
      ensures Valid() && start == old(start) && tried == old(tried)
      ensures ok == Legal(c, old(st))
      ensures st == if ok then Exec(c, old(st)) else old(st)
    {
      ok := Legal(c, st);
      if ok {
        assert (done + [c])[..|done|] == done;
        st := Exec(c, st);
        done := done + [c];
      }
    }

    /** Starts counting commands anew, from the state as it is. */
    ghost method Mark()
      modifies `start, `done, `tried
      ensures Valid() && start == st && done == [] && tried == []
    {
      start, done, tried := st, [], [];
    }

    /** Deletes the rules of one preference one by one, at most `limit` of them. */
    method DeleteRules(pref: int, limit: nat)
      requires Valid()
      modifies this
      ensures Valid() && start == old(start) && tried == old(tried)
      ensures st == old(st).(rules := DeleteUpTo(old(st).rules, AtPref(pref), limit))
    {
      var i := 0;
      ghost var rules := st.rules;
      while i < limit
        invariant i <= limit
        invariant Valid() && start == old(start) && tried == old(tried)
        invariant st == old(st).(rules := st.rules)
        invariant DeleteUpTo(rules, AtPref(pref), limit) == DeleteUpTo(st.rules, AtPref(pref), limit - i)
      {
        var ok := Undo(RuleDel(pref));
        if !ok {
          DeletingNoneIsDone(st.rules, AtPref(pref), limit - i);
          return;
        }
        i := i + 1;
      }
    }
  }

  // ----- how a packet is routed

  predicate Selects(s: Selector, k: Packet) {
    match s
    case Everything => true
    case To(net) => net in k.nets
    case FwMark(mark) => k.mark == mark
  }

  predicate Reaches(r: Route, k: Packet) {
    match r
    case DefaultVia(_) => true
    case LocalDefault => true
    case NetVia(net, _) => net in k.nets
  }

  predicate HasRoute(st: State, table: int, k: Packet) {
    exists i :: 0 <= i < |RoutesOf(st, table)| && Reaches(RoutesOf(st, table)[i], k)
  }

  datatype Lookup = Found(table: int) | Unreachable

  /** The first rule that selects the packet and whose table has a route for it decides. */
  function LookUp(st: State, rules: seq<IpRule>, k: Packet): Lookup {
    if rules == [] then Unreachable
    else if Selects(rules[0].selector, k) && HasRoute(st, rules[0].table, k) then Found(rules[0].table)
    else LookUp(st, rules[1..], k)
  }

  // ----- rules kept in order

  predicate Sorted(rules: seq<IpRule>) {
    forall i, j :: 0 <= i < j < |rules| ==> rules[i].pref <= rules[j].pref
  }

  lemma {:induction false} InsertSplits(rules: seq<IpRule>, r: IpRule) returns (n: nat)
    ensures n <= |rules| && InsertByPref(rules, r) == rules[..n] + [r] + rules[n..]
    ensures forall i :: 0 <= i < n ==> rules[i].pref <= r.pref
    ensures n < |rules| ==> r.pref < rules[n].pref
  {
    if rules == [] || r.pref < rules[0].pref {
      n := 0;
    } else {
      var m := InsertSplits(rules[1..], r);
      n := m + 1;
      assert rules[..n] == [rules[0]] + rules[1..][..m];
      assert rules[n..] == rules[1..][m..];
    }
  }

  lemma InsertKeepsSorted(rules: seq<IpRule>, r: IpRule)
    requires Sorted(rules)
    ensures Sorted(InsertByPref(rules, r))
  {
    var n := InsertSplits(rules, r);
  }

  lemma {:induction false} CountJoins(a: seq<IpRule>, b: seq<IpRule>, f: IpRule -> bool)
    ensures Count(a + b, f) == Count(a, f) + Count(b, f)
    ensures Without(a + b, f) == Without(a, f) + Without(b, f)
  {
    if a == [] {
      assert a + b == b;
    } else {
      assert (a + b)[1..] == a[1..] + b;
      CountJoins(a[1..], b, f);
    }
  }

  lemma InsertCounts(rules: seq<IpRule>, r: IpRule, f: IpRule -> bool)
    ensures Count(InsertByPref(rules, r), f) == Count(rules, f) + if f(r) then 1 else 0
    ensures f(r) ==> Without(InsertByPref(rules, r), f) == Without(rules, f)
  {
    var n := InsertSplits(rules, r);
    CountJoins(rules[..n] + [r], rules[n..], f);
    CountJoins(rules[..n], [r], f);
    CountJoins(rules[..n], rules[n..], f);
    assert rules[..n] + rules[n..] == rules;
    assert [r][1..] == [];
  }
}
