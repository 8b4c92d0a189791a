/**
 The tunnel's process and its routes (internal/mode/tun.go): started in one order, taken down
 in the other, with nothing left of a start that failed.
 */
module TunDevice {
  import opened Policy
  import T = Tun

  /** Removing the tunnel's rules from `st` gives `base`, which has none of them. */
  ghost predicate Restores(st: State, base: State, routeTable: int) {
    T.Removed(st, routeTable) == base && T.Unused(base.rules) && RoutesOf(base, routeTable) == []
  }

  lemma RemovedRestores(st: State, base: State, routeTable: int)
    requires Restores(st, base, routeTable)
    ensures Restores(base, base, routeTable)
  {
    hide T.Unused, T.DeletePrefs;
    T.NothingToRemove(base, routeTable);
    assert T.Removed(st, routeTable).tables[routeTable] == [];
    assert base.tables[routeTable := []] == base.tables;
  }

  lemma PartRestores(base: State, s: T.Settings, scope: T.Scope, nets: seq<string>, done: seq<Cmd>)
    requires Restores(base, base, s.routeTable)
    requires done <= T.InstallCmds(s, scope, nets) && |nets| <= T.MAX_DELETES
    ensures Restores(Replay(base, done), base, s.routeTable)
  {
    hide T.Unused, T.Removed, Replay, T.InstallCmds;
    T.AnyPrefixIsRemoved(base, s, scope, nets, done);
    T.NothingToRemove(base, s.routeTable);
  }

  class Tunnel {
    const kernel: Kernel
    const s: T.Settings
    const scope: T.Scope
    var handle: bool
    var alive: bool
    var applied: bool

    constructor (kernel: Kernel, s: T.Settings, scope: T.Scope)
      ensures this.kernel == kernel && this.s == s && this.scope == scope && !handle && !alive && !applied
    {
      this.kernel, this.s, this.scope := kernel, s, scope;
      handle, alive, applied := false, false, false;
    }

    /** A process without a handle, or routes that are not noted, would outlive a Stop. */
    ghost predicate Valid(base: State)
      reads this, kernel
    {
      && kernel.Valid() && Restores(kernel.st, base, s.routeTable)
      && (alive ==> handle)
      && (!applied ==> kernel.st.rules == base.rules)
    }

    /** Launches the process and installs the routes. A start that fails leaves no process, and
        no rule either, whatever step it failed at, unless more exempt networks were added than the
        removal has deletions for. */
    method Start(lanCIDRs: seq<string>, bypassCIDRs: seq<string>, valid: set<string>, ghost base: State)
      returns (ok: bool, ghost kept: seq<string>, ghost part: seq<Cmd>)
      requires Valid(base) && !alive && !applied
      modifies this, kernel
      ensures kernel.Valid() && applied == ok && alive == ok && (alive ==> handle)
      ensures T.Among(kept, T.ExemptNets(lanCIDRs, bypassCIDRs, valid)) && part <= T.InstallCmds(s, scope, kept)
      ensures |kept| <= T.MAX_DELETES ==> Valid(base)
      ensures ok ==> kernel.st == Replay(base, T.InstallCmds(s, scope, kept))
      ensures !ok ==> kernel.st == old(kernel.st) || kernel.st == T.Removed(Replay(base, part), s.routeTable)
      ensures !ok && |kept| <= T.MAX_DELETES ==> kernel.st == old(kernel.st) || kernel.st == base
    {
      hide T.Removed, T.Among, T.ExemptNets, T.InstallCmds, Replay, T.Unused, Restores;
      kept, part := [], [];
      NoneAmong(T.ExemptNets(lanCIDRs, bypassCIDRs, valid));
      var prepared: bool := *;
      if !prepared {
        return false, kept, part;
      }
      handle := true;
      alive := *;
      if !alive {
        return false, kept, part;
      }
      var up: bool := *;
      if !up {
        alive := false;
        return false, kept, part;
      }
      BaseIs(kernel.st, base, s.routeTable);
      RemovedRestores(kernel.st, base, s.routeTable);
      ok, kept := T.InstallRoutes(kernel, s, scope, lanCIDRs, bypassCIDRs, valid);
      StepsAre(kernel);
      part := kernel.done;
      if |kept| <= T.MAX_DELETES {
        PartRestores(base, s, scope, kept, kernel.done);
        BaseIs(kernel.st, base, s.routeTable);
      }
      if !ok {
        T.RemoveRoutes(kernel, s.routeTable);
        alive := false;
        return;
      }
      applied := true;
    }

    /** Takes the routes out and stops the process. */
    method Stop(ghost base: State)
      requires Valid(base)
      modifies this, kernel
      ensures Valid(base) && !applied && !alive && !handle
      ensures kernel.st == if old(applied) then base else old(kernel.st)
    {
      hide T.Removed, T.Unused, Restores;
      BaseIs(kernel.st, base, s.routeTable);
      RemovedRestores(kernel.st, base, s.routeTable);
      if applied {
        T.RemoveRoutes(kernel, s.routeTable);
        applied := false;
      }
      if handle {
        alive := false;
        handle := false;
      }
    }
  }

  lemma BaseIs(st: State, base: State, routeTable: int)
    requires Restores(st, base, routeTable)
    ensures T.Removed(st, routeTable) == base
  {
  }

  lemma StepsAre(kernel: Kernel)
    requires kernel.Valid()
    ensures kernel.st == Replay(kernel.start, kernel.done)
  {
  }

  lemma NoneAmong(all: seq<string>)
    ensures T.Among([], all)
  {
  }
}
