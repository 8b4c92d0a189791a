/** The nftables backend at work (internal/fw/nft.go): one table, replaced as a whole. */
module NftBackend {
  import opened Modes
  import opened Capture
  import opened Nft
  import IptBackend
  import Policy

  datatype Slot = Empty | Holds(table: Table)

  /** The daemon's table in the kernel. A script takes effect completely or not at all. */
  class Tables {
    var slot: Slot

    constructor ()
      ensures slot == Empty
    {
      slot := Empty;
    }

    method Replace(t: Table) returns (ok: bool)
      modifies this
      ensures slot == if ok then Holds(t) else old(slot)
    {
      ok := *;
      if ok {
        slot := Holds(t);
      }
    }
  }

  function Seen(slot: Slot, k: Packet): Outcome {
    if slot.Holds? then Traverse(slot.table, k) else Outcome(Untouched, k.mark)
  }

  method Revert(tables: Tables, routing: Policy.Kernel)
    requires routing.Valid()
    modifies tables, routing
    ensures routing.Valid() && tables.slot == Empty
    ensures routing.st == IptBackend.RoutingRemoved(old(routing.st))
  {
    tables.slot := Empty;
    IptBackend.DelTProxyRouting(routing);
  }

  /** On success every packet is treated as the plan intends; on failure the table is the one
      that was there, or gone. */
  method Apply(tables: Tables, routing: Policy.Kernel, p: Plan, hasIp: bool) returns (ok: bool)
    requires routing.Valid()
    modifies tables, routing
    ensures routing.Valid()
    ensures ok ==> forall k ::
              Seen(tables.slot, k) ==
              if OwnedByTransparentSocket(p, k) then Outcome(Untouched, p.markTProxy) else Intended(p, k)
    ensures !ok ==> tables.slot == old(tables.slot) || tables.slot == Empty
    ensures ok && p.mode.NeedsTProxy() ==> routing.st == IptBackend.RoutingAdded(old(routing.st), p.markTProxy)
  {
    hide Traverse, Intended, OwnedByTransparentSocket, SetsOf, PlaysAll, Policy.Kernel.Valid, IptBackend.RoutingRemoved,
         IptBackend.RoutingAdded;
    if !p.mode.NeedsFirewallCapture() && !p.redirectDNS {
      Revert(tables, routing);
      NothingIntended(p);
      return true;
    }
    if p.mode.NeedsTProxy() && !hasIp {
      return false;
    }
    var t := Ruleset(p);
    ok := tables.Replace(t);
    if !ok {
      return;
    }
    if p.mode.NeedsTProxy() {
      ok := IptBackend.AddTProxyRouting(routing, p.markTProxy);
      if !ok {
        Revert(tables, routing);
        return;
      }
    }
    forall k
      ensures Traverse(t, k) ==
              if OwnedByTransparentSocket(p, k) then Outcome(Untouched, p.markTProxy) else Intended(p, k)
    {
      NftMeetsIntent(p, t, k);
    }
  }

  lemma NothingIntended(p: Plan)
    requires !p.mode.NeedsFirewallCapture() && !p.redirectDNS
    ensures forall k :: Intended(p, k) == Outcome(Untouched, k.mark) && !OwnedByTransparentSocket(p, k)
  {
  }
}
