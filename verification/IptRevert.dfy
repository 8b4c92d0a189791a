/**
 Undoing the iptables rules: the bounded delete loops of Revert (internal/fw/ipt.go) bring
 back exactly the device's own rules, up to eight jumps per hook and chain.
 */
module IptRevert {
  import opened Modes
  import opened Capture
  import opened Ipt
  import opened Deletion
  import IptCapture

  const MAX_DELETES: nat := 8

  predicate IsOwnJump(r: Rule) {
    r.target.JumpTo? && r.target.chain in OWN
  }

  // ----- reading a listing

  /** One line of `iptables -L --line-numbers`: its first field, a number or a word, and its
      second. */
  datatype Field = Numbered(n: int) | Word(text: string)

  datatype Line = Line(first: Field, second: string)

  function TargetName(t: Target): string {
    match t
    case JumpTo(chain) => chain
    case Return => "RETURN"
    case RedirectTo(_) => "REDIRECT"
    case SetMark(_) => "MARK"
    case TProxyOn(_, _) => "TPROXY"
    case Reject => "REJECT"
    case Foreign(name) => name
  }

  /** The listing of a chain: two headings, then the rules numbered from one. */
  function Listing(hook: string, rules: seq<Rule>): seq<Line> {
    [Line(Word("Chain"), hook), Line(Word("num"), "target")]
    + seq(|rules|, i requires 0 <= i < |rules| => Line(Numbered(i + 1), TargetName(rules[i].target)))
  }

  /** The number of the first listed rule with this target, or 0. */
  method FindRuleNumber(listing: seq<Line>, chain: string) returns (num: int)
    ensures num == FirstNumber(listing, chain)
  {
    for i := 0 to |listing|
      invariant FirstNumber(listing, chain) == FirstNumber(listing[i..], chain)
    {
      assert listing[i..][1..] == listing[i + 1..];
      if listing[i].second == chain && listing[i].first.Numbered? {
        return listing[i].first.n;
      }
    }
    num := 0;
  }

  function FirstNumber(listing: seq<Line>, chain: string): int {
    if listing == [] then 0
    else if listing[0].second == chain && listing[0].first.Numbered? then listing[0].first.n
    else FirstNumber(listing[1..], chain)
  }

  function JumpsInto(chain: string): Rule -> bool {
    r => JumpsTo(r, chain)
  }

  lemma OnlyJumpsShowChains(t: Target)
    ensures TargetName(t) in OWN ==> t.JumpTo?
  {
  }

  lemma {:induction false} NumberedFrom(rules: seq<Rule>, chain: string, from: nat)
    requires chain in OWN
    ensures var lines := seq(|rules|, i requires 0 <= i < |rules| =>
                               Line(Numbered(from + i + 1), TargetName(rules[i].target)));
            FirstNumber(lines, chain) ==
            if First(rules, JumpsInto(chain)) == 0 then 0 else from + First(rules, JumpsInto(chain))
  {
    var lines := seq(|rules|, i requires 0 <= i < |rules| => Line(Numbered(from + i + 1), TargetName(rules[i].target)));
    if rules != [] {
      var rest := rules[1..];
      NumberedFrom(rest, chain, from + 1);
      assert lines[1..] == seq(|rest|, i requires 0 <= i < |rest| =>
                                 Line(Numbered(from + 1 + i + 1), TargetName(rest[i].target)));
      OnlyJumpsShowChains(rules[0].target);
    }
  }

  /** What the listing is read for: the number of the first jump, headings and foreign rules
      notwithstanding. */
  lemma ListingFindsFirstJump(hook: string, rules: seq<Rule>, chain: string)
    requires chain in OWN && hook !in OWN
    ensures FirstNumber(Listing(hook, rules), chain) == First(rules, JumpsInto(chain))
  {
    NumberedFrom(rules, chain, 0);
    var lines := seq(|rules|, i requires 0 <= i < |rules| => Line(Numbered(0 + i + 1), TargetName(rules[i].target)));
    var listing := Listing(hook, rules);
    assert listing[1..][1..] == lines;
  }

  // ----- deleting jumps

  function CountJumps(rules: seq<Rule>, chain: string): nat {
    Count(rules, JumpsInto(chain))
  }

  lemma JumpsApart(chain: string, other: string)
    requires chain != other
    ensures Apart(JumpsInto(chain), JumpsInto(other))
  {
  }

  lemma DeleteSpares(rules: seq<Rule>, chain: string, other: string)
    requires chain != other
    ensures CountJumps(DeleteUpTo(rules, JumpsInto(chain), MAX_DELETES), other) == CountJumps(rules, other)
    ensures CountJumps(Without(rules, JumpsInto(chain)), other) == CountJumps(rules, other)
  {
    JumpsApart(chain, other);
    DeleteUpToSpares(rules, JumpsInto(chain), JumpsInto(other), MAX_DELETES);
    WithoutSpares(rules, JumpsInto(chain), JumpsInto(other));
  }

  /** The rules of a hook that are not the daemon's. */
  function StripRules(rules: seq<Rule>): seq<Rule> {
    Without(Without(Without(Without(rules, JumpsInto(PRE)), JumpsInto(MARK)), JumpsInto(OUT)), JumpsInto(QUIC))
  }

  /** One hook's share of Revert. */
  function DeleteEach(rules: seq<Rule>): seq<Rule> {
    var r1 := DeleteUpTo(rules, JumpsInto(PRE), MAX_DELETES);
    var r2 := DeleteUpTo(r1, JumpsInto(MARK), MAX_DELETES);
    var r3 := DeleteUpTo(r2, JumpsInto(OUT), MAX_DELETES);
    DeleteUpTo(r3, JumpsInto(QUIC), MAX_DELETES)
  }

  predicate FewJumps(rules: seq<Rule>) {
    && CountJumps(rules, PRE) <= MAX_DELETES && CountJumps(rules, MARK) <= MAX_DELETES
    && CountJumps(rules, OUT) <= MAX_DELETES && CountJumps(rules, QUIC) <= MAX_DELETES
  }

  predicate NoOwnJumps(rules: seq<Rule>) {
    && CountJumps(rules, PRE) == 0 && CountJumps(rules, MARK) == 0
    && CountJumps(rules, OUT) == 0 && CountJumps(rules, QUIC) == 0
  }

  lemma DeleteEachResult(rules: seq<Rule>)
    ensures FewJumps(rules) ==> DeleteEach(rules) == StripRules(rules)
    ensures !FewJumps(rules) ==> !NoOwnJumps(DeleteEach(rules))
  {
    hide DeleteUpTo, Without, Count, JumpsInto;
    var r1 := DeleteUpTo(rules, JumpsInto(PRE), MAX_DELETES);
    var r2 := DeleteUpTo(r1, JumpsInto(MARK), MAX_DELETES);
    var r3 := DeleteUpTo(r2, JumpsInto(OUT), MAX_DELETES);
    DeleteUpToResult(rules, JumpsInto(PRE), MAX_DELETES);
    DeleteUpToResult(r1, JumpsInto(MARK), MAX_DELETES);
    DeleteUpToResult(r2, JumpsInto(OUT), MAX_DELETES);
    DeleteUpToResult(r3, JumpsInto(QUIC), MAX_DELETES);
    DeleteSpares(rules, PRE, MARK);
    DeleteSpares(rules, PRE, OUT);
    DeleteSpares(rules, PRE, QUIC);
    DeleteSpares(r1, MARK, PRE);
    DeleteSpares(r1, MARK, OUT);
    DeleteSpares(r1, MARK, QUIC);
    DeleteSpares(r2, OUT, PRE);
    DeleteSpares(r2, OUT, MARK);
    DeleteSpares(r2, OUT, QUIC);
    DeleteSpares(r3, QUIC, PRE);
    DeleteSpares(r3, QUIC, MARK);
    DeleteSpares(r3, QUIC, OUT);
  }

  lemma StripRulesResult(rules: seq<Rule>)
    ensures NoOwnJumps(StripRules(rules))
    ensures NoOwnJumps(rules) ==> StripRules(rules) == rules
  {
    hide Without, Count, JumpsInto;
    var r1 := Without(rules, JumpsInto(PRE));
    var r2 := Without(r1, JumpsInto(MARK));
    var r3 := Without(r2, JumpsInto(OUT));
    WithoutCounts(rules, JumpsInto(PRE));
    WithoutCounts(r1, JumpsInto(MARK));
    WithoutCounts(r2, JumpsInto(OUT));
    WithoutCounts(r3, JumpsInto(QUIC));
    DeleteSpares(r1, MARK, PRE);
    DeleteSpares(r2, OUT, PRE);
    DeleteSpares(r2, OUT, MARK);
    DeleteSpares(r3, QUIC, PRE);
    DeleteSpares(r3, QUIC, MARK);
    DeleteSpares(r3, QUIC, OUT);
    if NoOwnJumps(rules) {
      NoneToRemove(rules, JumpsInto(PRE));
      NoneToRemove(rules, JumpsInto(MARK));
      NoneToRemove(rules, JumpsInto(OUT));
      NoneToRemove(rules, JumpsInto(QUIC));
    }
  }

  lemma NoJumpsMeans(rules: seq<Rule>, chain: string)
    ensures CountJumps(rules, chain) == 0 <==> forall i :: 0 <= i < |rules| ==> !JumpsTo(rules[i], chain)
  {
    CountIsNone(rules, JumpsInto(chain));
    assert forall r :: JumpsInto(chain)(r) == JumpsTo(r, chain);
  }

  // ----- the whole revert

  /** The store with everything of the daemon's taken out: what Revert is for. */
  function Strip(st: Store): Store {
    map k | k in st && k.1 !in OWN :: StripRules(st[k])
  }

  function RevertHooks(st: Store, t: Tbl, hooks: seq<string>): Store {
    if hooks == [] then st
    else
      var before := RevertHooks(st, t, hooks[..|hooks| - 1]);
      var k := (t, hooks[|hooks| - 1]);
      if k in before then before[k := DeleteEach(before[k])] else before
  }

  function RevertChains(st: Store, t: Tbl, chains: seq<string>): Store {
    if chains == [] then st
    else
      var before := RevertChains(st, t, chains[..|chains| - 1]);
      var c := chains[|chains| - 1];
      Exec(DeleteChain(t, c), Exec(FlushChain(t, c), before))
  }

  function RevertTable(st: Store, t: Tbl): Store {
    RevertChains(RevertHooks(st, t, HOOKS), t, OWN)
  }

  function Reverted(st: Store): Store {
    RevertTable(RevertTable(RevertTable(st, NatTable), MangleTable), FilterTable)
  }

  /** The daemon's jumps sit in the three hooks and nowhere else, which is where its commands
      put them. */
  predicate WellPlaced(st: Store) {
    forall k :: k in st && k.1 !in HOOKS ==> NoOwnJumps(st[k])
  }

  predicate Bounded(st: Store) {
    forall k :: k in st && k.1 in HOOKS ==> FewJumps(st[k])
  }

  function Hooked(st: Store, t: Tbl, hooks: seq<string>): Store {
    map k | k in st :: if k.0 == t && k.1 in hooks then DeleteEach(st[k]) else st[k]
  }

  lemma HookedOneMore(st: Store, t: Tbl, hooks: seq<string>, hook: string)
    requires hook !in hooks
    ensures Hooked(st, t, hooks + [hook]) ==
            (var before := Hooked(st, t, hooks);
             if (t, hook) in before then before[(t, hook) := DeleteEach(before[(t, hook)])] else before)
  {
    hide DeleteEach;
  }

  lemma {:induction false} RevertHooksResult(st: Store, t: Tbl, hooks: seq<string>)
    requires forall i, j :: 0 <= i < j < |hooks| ==> hooks[i] != hooks[j]
    ensures RevertHooks(st, t, hooks) == Hooked(st, t, hooks)
  {
    hide DeleteEach, Hooked;
    if hooks == [] {
      HookedNothing(st, t);
    } else {
      var init, last := hooks[..|hooks| - 1], hooks[|hooks| - 1];
      assert hooks == init + [last];
      RevertHooksResult(st, t, init);
      HookedOneMore(st, t, init, last);
    }
  }

  lemma HookedNothing(st: Store, t: Tbl)
    ensures Hooked(st, t, []) == st
  {
  }

  lemma HooksAreDistinct()
    ensures forall i, j :: 0 <= i < j < |HOOKS| ==> HOOKS[i] != HOOKS[j]
    ensures forall i :: 0 <= i < |HOOKS| ==> HOOKS[i] !in OWN
  {
  }

  ghost predicate Unreferenced(st: Store, t: Tbl, chains: seq<string>) {
    forall k, c :: k in st && k.0 == t && c in chains ==> CountJumps(st[k], c) == 0
  }

  function DropChains(st: Store, t: Tbl, chains: seq<string>): Store {
    map k | k in st && !(k.0 == t && k.1 in chains) :: st[k]
  }

  lemma DropOneMore(st: Store, t: Tbl, chains: seq<string>, chain: string)
    requires Unreferenced(st, t, chains + [chain])
    ensures Unreferenced(st, t, chains)
    ensures Exec(DeleteChain(t, chain), Exec(FlushChain(t, chain), DropChains(st, t, chains)))
            == DropChains(st, t, chains + [chain])
  {
    hide CountJumps;
    var more := chains + [chain];
    assert chain in more && forall c :: c in chains ==> c in more;
    assert forall k :: k in st && k.0 == t ==> CountJumps(st[k], chain) == 0;
    var before := DropChains(st, t, chains);
    if (t, chain) in before {
      var flushed := Exec(FlushChain(t, chain), before);
      assert flushed == before[(t, chain) := []];
      forall k, i | k in flushed && k.0 == t && 0 <= i < |flushed[k]| ensures !JumpsTo(flushed[k][i], chain) {
        assert k != (t, chain) && k in st && flushed[k] == st[k];
        NoJumpsMeans(st[k], chain);
      }
      assert Legal(DeleteChain(t, chain), flushed);
      assert flushed - {(t, chain)} == DropChains(st, t, chains + [chain]);
    } else {
      assert before == DropChains(st, t, chains + [chain]);
    }
  }

  /** Chains nothing refers to any more are all removed. */
  lemma {:induction false} RevertChainsClean(st: Store, t: Tbl, chains: seq<string>)
    requires Unreferenced(st, t, chains)
    ensures RevertChains(st, t, chains) == DropChains(st, t, chains)
  {
    if chains == [] {
      assert DropChains(st, t, []) == st;
    } else {
      hide Unreferenced, DropChains, Exec;
      var init, last := chains[..|chains| - 1], chains[|chains| - 1];
      assert chains == init + [last];
      DropOneMore(st, t, init, last);
      RevertChainsClean(st, t, init);
    }
  }

  lemma {:induction false} RevertChainsKeepsOthers(st: Store, t: Tbl, chains: seq<string>, k: Key)
    requires k.1 !in chains || k.0 != t
    ensures k in RevertChains(st, t, chains) <==> k in st
    ensures k in st ==> RevertChains(st, t, chains)[k] == st[k]
  {
    if chains != [] {
      RevertChainsKeepsOthers(st, t, chains[..|chains| - 1], k);
      assert chains[|chains| - 1] in chains;
    }
  }

  lemma RevertTableOthers(st: Store, t: Tbl, k: Key)
    requires k.1 !in OWN
    ensures k in RevertTable(st, t) <==> k in st
    ensures k in st ==>
              RevertTable(st, t)[k] == if k.0 == t && k.1 in HOOKS then DeleteEach(st[k]) else st[k]
  {
    hide DeleteEach, RevertChains, RevertHooks;
    HooksAreDistinct();
    RevertHooksResult(st, t, HOOKS);
    RevertChainsKeepsOthers(RevertHooks(st, t, HOOKS), t, OWN, k);
  }

  lemma RevertedOthers(st: Store, k: Key)
    requires k.1 !in OWN
    ensures k in Reverted(st) <==> k in st
    ensures k in st ==> Reverted(st)[k] == if k.1 in HOOKS then DeleteEach(st[k]) else st[k]
  {
    hide DeleteEach, RevertTable;
    var st1 := RevertTable(st, NatTable);
    var st2 := RevertTable(st1, MangleTable);
    RevertTableOthers(st, NatTable, k);
    RevertTableOthers(st1, MangleTable, k);
    RevertTableOthers(st2, FilterTable, k);
  }

  /** With few enough jumps, reverting one table strips it. */
  lemma RevertTableStrips(st: Store, t: Tbl)
    requires WellPlaced(st) && Bounded(st)
    ensures RevertTable(st, t) ==
            map k | k in st && !(k.0 == t && k.1 in OWN) :: if k.0 == t then StripRules(st[k]) else st[k]
    ensures WellPlaced(RevertTable(st, t)) && Bounded(RevertTable(st, t))
  {
    hide DeleteEach, RevertChains, RevertHooks, StripRules, CountJumps;
    HooksAreDistinct();
    var hooked := RevertHooks(st, t, HOOKS);
    RevertHooksResult(st, t, HOOKS);
    forall k | k in st && k.0 == t ensures hooked[k] == StripRules(st[k]) && NoOwnJumps(hooked[k]) {
      DeleteEachResult(st[k]);
      StripRulesResult(st[k]);
    }
    RevertChainsClean(hooked, t, OWN);
    forall k | k in st ensures NoOwnJumps(StripRules(st[k])) {
      StripRulesResult(st[k]);
    }
  }

  lemma RevertedStrips(st: Store)
    requires WellPlaced(st) && Bounded(st)
    ensures Reverted(st) == Strip(st)
  {
    hide RevertTable, StripRules, WellPlaced, Bounded;
    var st1 := RevertTable(st, NatTable);
    var st2 := RevertTable(st1, MangleTable);
    RevertTableStrips(st, NatTable);
    RevertTableStrips(st1, MangleTable);
    RevertTableStrips(st2, FilterTable);
  }

  /** Revert restores exactly the device's own rules, in their order, if and only if no hook
      carries more than eight jumps to one of the daemon's chains. */
  lemma RevertRestores(st: Store)
    requires WellPlaced(st)
    ensures Reverted(st) == Strip(st) <==> Bounded(st)
  {
    if Bounded(st) {
      RevertedStrips(st);
    } else {
      hide Reverted, DeleteEach, StripRules, FewJumps, NoOwnJumps;
      var k :| k in st && k.1 in HOOKS && !FewJumps(st[k]);
      HooksAreDistinct();
      RevertedOthers(st, k);
      DeleteEachResult(st[k]);
      StripRulesResult(st[k]);
      assert Strip(st)[k] == StripRules(st[k]);
    }
  }

  // ----- reverting what an apply did

  /** A command that touches a chain of the daemon's, or hooks one. */
  predicate OwnCmd(c: Cmd) {
    match c
    case NewChain(_, chain) => chain in OWN
    case AppendRule(_, chain, rule) => chain in OWN && !rule.target.JumpTo?
    case InsertTop(_, chain, rule) => chain in HOOKS && IsOwnJump(rule)
    case _ => false
  }

  predicate OwnCmds(cmds: seq<Cmd>) {
    forall i :: 0 <= i < |cmds| ==> OwnCmd(cmds[i])
  }

  lemma RulesNeverJump(role: Role, p: Plan)
    ensures forall i :: 0 <= i < |Rules(role, p)| ==> !Rules(role, p)[i].target.JumpTo?
  {
    hide AllBypass;
  }

  lemma InstallIsOwn(role: Role, p: Plan)
    ensures OwnCmds(Install(role, p))
  {
    hide Rules, Entries;
    RulesNeverJump(role, p);
  }

  lemma {:induction false} InstallAllIsOwn(roles: seq<Role>, p: Plan)
    ensures OwnCmds(InstallAll(roles, p))
  {
    if roles != [] {
      hide Install;
      InstallAllIsOwn(roles[..|roles| - 1], p);
      InstallIsOwn(roles[|roles| - 1], p);
    }
  }

  lemma StripInserted(r: Rule, rules: seq<Rule>)
    requires IsOwnJump(r)
    ensures StripRules([r] + rules) == StripRules(rules)
  {
    assert ([r] + rules)[1..] == rules;
    var c := r.target.chain;
    hide OWN;
    assert c == PRE || c == MARK || c == OUT || c == QUIC;
    if c == PRE {
      TakeOne(r, rules, PRE);
    } else if c == MARK {
      KeepOne(r, rules, PRE);
      TakeOne(r, Without(rules, JumpsInto(PRE)), MARK);
    } else if c == OUT {
      KeepOne(r, rules, PRE);
      KeepOne(r, Without(rules, JumpsInto(PRE)), MARK);
      TakeOne(r, Without(Without(rules, JumpsInto(PRE)), JumpsInto(MARK)), OUT);
    } else {
      KeepOne(r, rules, PRE);
      KeepOne(r, Without(rules, JumpsInto(PRE)), MARK);
      KeepOne(r, Without(Without(rules, JumpsInto(PRE)), JumpsInto(MARK)), OUT);
      TakeOne(r, Without(Without(Without(rules, JumpsInto(PRE)), JumpsInto(MARK)), JumpsInto(OUT)), QUIC);
    }
  }

  lemma TakeOne(r: Rule, rules: seq<Rule>, chain: string)
    requires JumpsTo(r, chain)
    ensures Without([r] + rules, JumpsInto(chain)) == Without(rules, JumpsInto(chain))
  {
    assert ([r] + rules)[1..] == rules;
  }

  lemma KeepOne(r: Rule, rules: seq<Rule>, chain: string)
    requires !JumpsTo(r, chain)
    ensures Without([r] + rules, JumpsInto(chain)) == [r] + Without(rules, JumpsInto(chain))
  {
    assert ([r] + rules)[1..] == rules;
  }

  lemma AppendedHasNoJumps(rules: seq<Rule>, r: Rule)
    requires NoOwnJumps(rules) && !r.target.JumpTo?
    ensures NoOwnJumps(rules + [r])
  {
    hide CountJumps;
    forall chain | chain in OWN ensures CountJumps(rules + [r], chain) == 0 {
      NoJumpsMeans(rules, chain);
      NoJumpsMeans(rules + [r], chain);
      assert CountJumps(rules, chain) == 0;
    }
    assert PRE in OWN && MARK in OWN && OUT in OWN && QUIC in OWN;
  }

  lemma OwnCmdKeepsForeign(c: Cmd, st: Store)
    requires OwnCmd(c) && WellPlaced(st)
    ensures Strip(Exec(c, st)) == Strip(st)
    ensures WellPlaced(Exec(c, st))
  {
    hide StripRules, NoOwnJumps;
    if Legal(c, st) {
      HooksAreDistinct();
      match c
      case NewChain(t, chain) =>
        assert NoOwnJumps([]) by {
          NothingJumps();
        }
      case AppendRule(t, chain, rule) =>
        assert chain !in HOOKS;
        AppendedHasNoJumps(st[(t, chain)], rule);
      case InsertTop(t, chain, rule) =>
        StripInserted(rule, st[(t, chain)]);
    }
  }

  lemma NothingJumps()
    ensures NoOwnJumps([])
  {
  }

  lemma {:induction false} OwnCmdsKeepForeign(st: Store, cmds: seq<Cmd>)
    requires OwnCmds(cmds) && WellPlaced(st)
    ensures Strip(Replay(st, cmds)) == Strip(st) && WellPlaced(Replay(st, cmds))
  {
    if cmds != [] {
      hide Strip, WellPlaced, OwnCmd, Exec;
      OwnCmdsKeepForeign(st, cmds[..|cmds| - 1]);
      OwnCmdKeepsForeign(cmds[|cmds| - 1], Replay(st, cmds[..|cmds| - 1]));
    }
  }

  /** How many jumps to `chain` the commands insert into a hook. */
  function InsertCount(cmds: seq<Cmd>, k: Key, chain: string): nat {
    if cmds == [] then 0
    else
      var c := cmds[|cmds| - 1];
      InsertCount(cmds[..|cmds| - 1], k, chain)
      + if c.InsertTop? && (c.t, c.chain) == k && JumpsTo(c.rule, chain) then 1 else 0
  }

  lemma {:induction false} InsertCountJoins(a: seq<Cmd>, b: seq<Cmd>, k: Key, chain: string)
    ensures InsertCount(a + b, k, chain) == InsertCount(a, k, chain) + InsertCount(b, k, chain)
  {
    if b == [] {
      assert a + b == a;
    } else {
      assert (a + b)[..|a + b| - 1] == a + b[..|b| - 1];
      InsertCountJoins(a, b[..|b| - 1], k, chain);
    }
  }

  lemma CountInserted(r: Rule, rules: seq<Rule>, chain: string)
    ensures CountJumps([r] + rules, chain) == CountJumps(rules, chain) + if JumpsTo(r, chain) then 1 else 0
  {
    assert ([r] + rules)[1..] == rules;
  }

  /** No hook has more of the daemon's jumps than were inserted. */
  lemma {:induction false} JumpsAreInserted(st: Store, cmds: seq<Cmd>, k: Key, chain: string)
    requires OwnCmds(cmds) && k in st && k.1 in HOOKS
    ensures k in Replay(st, cmds)
    ensures CountJumps(Replay(st, cmds)[k], chain) <= CountJumps(st[k], chain) + InsertCount(cmds, k, chain)
  {
    if cmds != [] {
      hide CountJumps;
      HooksAreDistinct();
      var init, c := cmds[..|cmds| - 1], cmds[|cmds| - 1];
      JumpsAreInserted(st, init, k, chain);
      var before := Replay(st, init);
      if Legal(c, before) && c.InsertTop? && (c.t, c.chain) == k {
        CountInserted(c.rule, before[k], chain);
      }
    }
  }

  lemma {:induction false} AppendsInsertNothing(t: Tbl, c: string, rules: seq<Rule>, k: Key, chain: string)
    ensures InsertCount(Appends(t, c, rules), k, chain) == 0
  {
    var cmds := Appends(t, c, rules);
    if rules != [] {
      assert cmds[..|cmds| - 1] == Appends(t, c, rules[..|rules| - 1]);
      AppendsInsertNothing(t, c, rules[..|rules| - 1], k, chain);
    }
  }

  lemma {:induction false} InsertsInsertAll(t: Tbl, hook: string, c: string, entries: seq<Match>, k: Key, chain: string)
    ensures InsertCount(Inserts(t, hook, c, entries), k, chain) == if k == (t, hook) && chain == c then |entries| else 0
  {
    var cmds := Inserts(t, hook, c, entries);
    if entries != [] {
      assert cmds[..|cmds| - 1] == Inserts(t, hook, c, entries[..|entries| - 1]);
      InsertsInsertAll(t, hook, c, entries[..|entries| - 1], k, chain);
    }
  }

  lemma InstallInserts(role: Role, p: Plan, k: Key, chain: string)
    ensures InsertCount(Install(role, p), k, chain) ==
            if k == IptCapture.HookKey(role) && chain == ChainOf(role) then |Entries(p, role)| else 0
  {
    hide InsertCount, Appends, Inserts, Rules, Entries;
    var t, c := TableOf(role), ChainOf(role);
    var create, fill := [NewChain(t, c)], Appends(t, c, Rules(role, p));
    var enter := Inserts(t, HookNameOf(role), c, Entries(p, role));
    InsertCountJoins(create + fill, enter, k, chain);
    InsertCountJoins(create, fill, k, chain);
    AppendsInsertNothing(t, c, Rules(role, p), k, chain);
    InsertsInsertAll(t, HookNameOf(role), c, Entries(p, role), k, chain);
    NewChainInsertsNothing(NewChain(t, c), k, chain);
  }

  lemma NewChainInsertsNothing(c: Cmd, k: Key, chain: string)
    requires c.NewChain?
    ensures InsertCount([c], k, chain) == 0
  {
    assert [c][..0] == [];
  }

  function MostEntries(p: Plan): nat {
    if |p.lanDevices| > 1 then |p.lanDevices| else 1
  }

  lemma {:induction false} InstallAllInserts(roles: seq<Role>, p: Plan, k: Key, chain: string)
    requires IptCapture.SideBySide(roles)
    ensures InsertCount(InstallAll(roles, p), k, chain) <= if IptCapture.Unhooked(roles, k) then 0 else MostEntries(p)
  {
    if roles != [] {
      hide InsertCount, Install, IptCapture.Unhooked, IptCapture.HookKey, IptCapture.ChainKey;
      var init, last := roles[..|roles| - 1], roles[|roles| - 1];
      assert roles == init + [last];
      InstallAllInserts(init, p, k, chain);
      InsertCountJoins(InstallAll(init, p), Install(last, p), k, chain);
      InstallInserts(last, p, k, chain);
      IptCapture.KeysOneMore(init, last, k);
      IptCapture.NotYetThere(init, last);
    }
  }

  lemma CleanIsStripped(base: Store)
    requires IptCapture.Clean(base)
    ensures WellPlaced(base) && Strip(base) == base
    ensures forall k, chain :: k in base ==> CountJumps(base[k], chain) == 0
  {
    hide StripRules, CountJumps;
    forall k, chain | k in base ensures CountJumps(base[k], chain) == 0 {
      NoJumpsMeans(base[k], chain);
    }
    forall k | k in base ensures StripRules(base[k]) == base[k] {
      StripRulesResult(base[k]);
    }
  }

  lemma PrefixInserts(cmds: seq<Cmd>, n: nat, k: Key, chain: string)
    requires n <= |cmds|
    ensures InsertCount(cmds[..n], k, chain) <= InsertCount(cmds, k, chain)
  {
    assert cmds == cmds[..n] + cmds[n..];
    InsertCountJoins(cmds[..n], cmds[n..], k, chain);
  }

  lemma {:induction false} HooksStay(st: Store, cmds: seq<Cmd>, k: Key)
    requires OwnCmds(cmds) && k.1 in HOOKS
    ensures k in Replay(st, cmds) ==> k in st
  {
    if cmds != [] {
      HooksAreDistinct();
      HooksStay(st, cmds[..|cmds| - 1], k);
    }
  }

  /** After any prefix of the commands of a plan with at most eight client-facing devices,
      reverting gives back exactly the device's own rules in their order. */
  lemma AnyPrefixIsReverted(base: Store, p: Plan, n: nat)
    requires IptCapture.Clean(base) && n <= |InstallAll(RolesOf(p), p)|
    requires |p.lanDevices| <= 8
    ensures Reverted(Replay(base, InstallAll(RolesOf(p), p)[..n])) == base
  {
    hide Replay, InstallAll, Reverted, Strip, WellPlaced, CountJumps, InsertCount, RolesOf, IptCapture.SideBySide,
         OwnCmd;
    var cmds := InstallAll(RolesOf(p), p);
    var st := Replay(base, cmds[..n]);
    InstallAllIsOwn(RolesOf(p), p);
    CleanIsStripped(base);
    OwnCmdsKeepForeign(base, cmds[..n]);
    forall k | k in st && k.1 in HOOKS ensures FewJumps(st[k]) {
      HooksStay(base, cmds[..n], k);
      IptCapture.RolesFitTogether(p);
      forall chain ensures CountJumps(st[k], chain) <= MAX_DELETES {
        JumpsAreInserted(base, cmds[..n], k, chain);
        PrefixInserts(cmds, n, k, chain);
        InstallAllInserts(RolesOf(p), p, k, chain);
      }
    }
    RevertRestores(st);
  }

  /** The bound is exact: a complete installation that captures anything is undone if and only
      if there are at most eight client-facing devices. */
  lemma RevertedExactlyUpToBound(base: Store, p: Plan)
    requires IptCapture.Clean(base)
    ensures Reverted(Replay(base, InstallAll(RolesOf(p), p))) == base <==>
            |p.lanDevices| <= 8 || RolesOf(p) == []
  {
    hide Replay, InstallAll, Reverted, Strip, WellPlaced, CountJumps, RolesOf, IptCapture.SideBySide, OwnCmd;
    var cmds := InstallAll(RolesOf(p), p);
    assert cmds[..|cmds|] == cmds;
    if |p.lanDevices| <= MAX_DELETES {
      AnyPrefixIsReverted(base, p, |cmds|);
    } else if RolesOf(p) == [] {
      NoRolesNoChange(base, p);
    } else {
      InstallAllIsOwn(RolesOf(p), p);
      CleanIsStripped(base);
      OwnCmdsKeepForeign(base, cmds);
      RevertRestores(Replay(base, cmds));
      TooManyJumps(base, p);
    }
  }

  lemma NoRolesNoChange(base: Store, p: Plan)
    requires IptCapture.Clean(base) && RolesOf(p) == []
    ensures Reverted(Replay(base, InstallAll(RolesOf(p), p))) == base
  {
    hide Reverted, Strip, WellPlaced, CountJumps, StripRules, RolesOf;
    assert Replay(base, InstallAll([], p)) == base;
    CleanIsStripped(base);
    RevertRestores(base);
  }

  /** The first chain of every plan that has one is for clients. */
  lemma FirstRoleIsForClients(p: Plan)
    requires RolesOf(p) != []
    ensures !ForRouter(RolesOf(p)[0])
  {
  }

  lemma TooManyJumps(base: Store, p: Plan)
    requires IptCapture.Clean(base) && RolesOf(p) != [] && |p.lanDevices| > MAX_DELETES
    ensures var st := Replay(base, InstallAll(RolesOf(p), p));
            var role := RolesOf(p)[0];
            var k := IptCapture.HookKey(role);
            && k in st && k.1 in HOOKS && IptCapture.ChainKey(role) in st
            && CountJumps(st[k], ChainOf(role)) > MAX_DELETES
            && !FewJumps(st[k])
  {
    hide Replay, InstallAll, Rules, RolesOf, IptCapture.SideBySide, IptCapture.Unhooked, IptCapture.Created,
         IptCapture.Jumps, CountJumps;
    var st := Replay(base, InstallAll(RolesOf(p), p));
    IptCapture.RolesFitTogether(p);
    IptCapture.InstallAllResult(base, RolesOf(p), p);
    var role := RolesOf(p)[0];
    FirstRoleIsForClients(p);
    assert IptCapture.InPlace(st, base, role, p);
    var k := IptCapture.HookKey(role);
    JumpsCounted(ChainOf(role), Entries(p, role), base[k]);
  }

  lemma {:induction false} JumpsCounted(chain: string, entries: seq<Match>, rest: seq<Rule>)
    ensures CountJumps(IptCapture.Jumps(chain, entries) + rest, chain) == |entries| + CountJumps(rest, chain)
  {
    if entries == [] {
      assert IptCapture.Jumps(chain, entries) + rest == rest;
    } else {
      var init := entries[..|entries| - 1];
      var r := Rule(entries[|entries| - 1], JumpTo(chain));
      assert IptCapture.Jumps(chain, entries) + rest == [r] + (IptCapture.Jumps(chain, init) + rest);
      JumpsCounted(chain, init, rest);
      CountInserted(r, IptCapture.Jumps(chain, init) + rest, chain);
    }
  }

  /** Applying a plan twice gives what applying it once gives. */
  lemma ApplyingTwice(base: Store, p: Plan)
    requires IptCapture.Clean(base) && |p.lanDevices| <= 8
    ensures var once := Replay(base, InstallAll(RolesOf(p), p));
            Replay(Reverted(once), InstallAll(RolesOf(p), p)) == once
  {
    var cmds := InstallAll(RolesOf(p), p);
    assert cmds[..|cmds|] == cmds;
    hide *;
    AnyPrefixIsReverted(base, p, |cmds|);
  }

  /** With more devices than that a plan cannot be applied again: a jump left behind keeps its
      chain alive, so creating the chain is refused. */
  lemma ApplyingAgainIsRefused(base: Store, p: Plan)
    requires IptCapture.Clean(base) && RolesOf(p) != [] && |p.lanDevices| > 8
    ensures var once := Replay(base, InstallAll(RolesOf(p), p));
            var cmds := InstallAll(RolesOf(p), p);
            |cmds| > 0 && !Legal(cmds[0], Reverted(once))
  {
    hide Replay, InstallAll, CountJumps, RolesOf, Reverted, FewJumps;
    var once := Replay(base, InstallAll(RolesOf(p), p));
    var role := RolesOf(p)[0];
    TooManyJumps(base, p);
    HooksAreDistinct();
    FirstCommand(RolesOf(p), p);
    ChainSurvives(once, TableOf(role), HookNameOf(role), ChainOf(role));
  }

  lemma {:induction false} FirstCommand(roles: seq<Role>, p: Plan)
    requires roles != []
    ensures |InstallAll(roles, p)| > 0
    ensures InstallAll(roles, p)[0] == NewChain(TableOf(roles[0]), ChainOf(roles[0]))
  {
    var init := roles[..|roles| - 1];
    if init != [] {
      FirstCommand(init, p);
    }
  }

  /** A chain whose hook has too many jumps to it is still there after Revert. */
  lemma ChainSurvives(st: Store, t: Tbl, hook: string, chain: string)
    requires chain in OWN && hook in HOOKS && hook !in OWN
    requires (t, chain) in st && (t, hook) in st && CountJumps(st[(t, hook)], chain) > MAX_DELETES
    ensures (t, chain) in Reverted(st)
  {
    hide RevertTable, CountJumps;
    var st1 := RevertTable(st, NatTable);
    var st2 := RevertTable(st1, MangleTable);
    TableKeeps(st, NatTable, t, hook, chain);
    TableKeeps(st1, MangleTable, t, hook, chain);
    TableKeeps(st2, FilterTable, t, hook, chain);
  }

  lemma TableKeeps(st: Store, at: Tbl, t: Tbl, hook: string, chain: string)
    requires chain in OWN && hook in HOOKS && hook !in OWN && (t, chain) in st && (t, hook) in st
    requires at == t ==> CountJumps(st[(t, hook)], chain) > MAX_DELETES
    ensures (t, chain) in RevertTable(st, at) && (t, hook) in RevertTable(st, at)
    ensures at != t ==> RevertTable(st, at)[(t, hook)] == st[(t, hook)]
  {
    hide RevertHooks, RevertChains, CountJumps, DeleteEach;
    HooksAreDistinct();
    var hooked := RevertHooks(st, at, HOOKS);
    RevertHooksResult(st, at, HOOKS);
    if at != t {
      RevertChainsKeepsOthers(hooked, at, OWN, (t, chain));
      RevertChainsKeepsOthers(hooked, at, OWN, (t, hook));
    } else {
      JumpsLeft(st[(t, hook)], chain);
      RevertChainsKeepsOthers(hooked, at, OWN, (t, hook));
      ReferencedChainStays(hooked, t, OWN, hook, chain);
    }
  }

  lemma JumpsLeft(rules: seq<Rule>, chain: string)
    requires chain in OWN && CountJumps(rules, chain) > MAX_DELETES
    ensures CountJumps(DeleteEach(rules), chain) > 0
  {
    hide DeleteUpTo, Count, JumpsInto;
    var r1 := DeleteUpTo(rules, JumpsInto(PRE), MAX_DELETES);
    var r2 := DeleteUpTo(r1, JumpsInto(MARK), MAX_DELETES);
    var r3 := DeleteUpTo(r2, JumpsInto(OUT), MAX_DELETES);
    DeleteUpToResult(rules, JumpsInto(PRE), MAX_DELETES);
    DeleteUpToResult(r1, JumpsInto(MARK), MAX_DELETES);
    DeleteUpToResult(r2, JumpsInto(OUT), MAX_DELETES);
    DeleteUpToResult(r3, JumpsInto(QUIC), MAX_DELETES);
    if chain != PRE {
      DeleteSpares(rules, PRE, chain);
    }
    if chain != MARK {
      DeleteSpares(r1, MARK, chain);
    }
    if chain != OUT {
      DeleteSpares(r2, OUT, chain);
    }
    if chain != QUIC {
      DeleteSpares(r3, QUIC, chain);
    }
  }

  lemma {:induction false} ReferencedChainStays(st: Store, t: Tbl, chains: seq<string>, hook: string, chain: string)
    requires hook !in chains && (t, hook) in st && (t, chain) in st
    requires CountJumps(st[(t, hook)], chain) > 0
    ensures (t, chain) in RevertChains(st, t, chains)
  {
    if chains != [] {
      hide CountJumps, Referenced;
      var init, last := chains[..|chains| - 1], chains[|chains| - 1];
      assert chains == init + [last];
      ReferencedChainStays(st, t, init, hook, chain);
      RevertChainsKeepsOthers(st, t, init, (t, hook));
      var before := RevertChains(st, t, init);
      var flushed := Exec(FlushChain(t, last), before);
      assert last in chains && hook != last;
      if last == chain {
        assert flushed[(t, hook)] == st[(t, hook)];
        StillReferenced(flushed, t, hook, chain);
      }
    }
  }

  lemma StillReferenced(st: Store, t: Tbl, hook: string, chain: string)
    requires (t, hook) in st && CountJumps(st[(t, hook)], chain) > 0
    ensures Referenced(st, t, chain)
  {
    NoJumpsMeans(st[(t, hook)], chain);
    var i :| 0 <= i < |st[(t, hook)]| && JumpsTo(st[(t, hook)][i], chain);
    assert (t, hook) in st && (t, hook).0 == t;
  }
}
