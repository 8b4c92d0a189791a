/**
 The life of a connection (internal/daemon/engine.go): bringing a target up step by step,
 taking it down, rebuilding once over a changed certificate, falling back once to what was
 connected before. Every step outside the engine may fail, except taking things down.
 */
module Engine {
  import opened Optional
  import opened Modes

  datatype Error = NoError | Failed(code: string)

  datatype DNSMode = DNSOff | DNSRedirect | DNSDnsmasq

  datatype ModeSetting = Known(mode: Mode) | Unknown

  datatype Settings = Settings(active: string, enabled: bool, mode: ModeSetting, dnsMode: DNSMode)

  /** A group, and whether it passes its own validation. */
  datatype Group = Group(valid: bool, members: seq<string>)

  /** What is stored: the profiles by id, with whether each is valid, the groups and the settings. */
  datatype Data = Data(profiles: map<string, bool>, groups: map<string, Group>, settings: Settings)

  // ----- the device as the engine changes it

  /**
   What is in place outside the engine: capture rules, the rule that marks UDP for the tunnel,
   a resolver steered into the core, the tunnel's route, a core that was started and not
   stopped, and whether data was seen to pass through that core.
   */
  datatype Snapshot = Snapshot(capture: bool, marks: bool, steered: bool, route: bool, core: bool, passed: bool)

  const CLEAR := Snapshot(false, false, false, false, false, false)

  /** Nothing leads traffic into a core that is not there or not known to work, and no packet is
      marked for a tunnel that has no route. */
  predicate Safe(s: Snapshot) {
    && (s.capture || s.steered ==> s.core && s.passed)
    && (s.marks ==> s.route)
  }

  ghost predicate AllSafe(history: seq<Snapshot>) {
    forall i :: 0 <= i < |history| ==> Safe(history[i])
  }

  predicate InstallsRules(s: Settings) {
    (s.mode.Known? && s.mode.mode.NeedsFirewallCapture()) || s.dnsMode == DNSRedirect
  }

  predicate MarksUDP(s: Settings) {
    s.mode.Known? && s.mode.mode.MarksUDPForTun()
  }

  /** What a complete connection has in place. */
  function Wanted(s: Settings): Snapshot
    requires s.mode.Known?
  {
    Snapshot(InstallsRules(s), MarksUDP(s), s.dnsMode == DNSDnsmasq, s.mode.mode.NeedsTunProcess(), true, true)
  }

  /** Mode by mode: capture rules in all but TUN mode, where only redirected name lookups need
      some, the mark for the tunnel in mixed mode, the tunnel in mixed and TUN mode. */
  lemma WantedByMode(s: Settings)
    requires s.mode.Known?
    ensures var steered := s.dnsMode == DNSDnsmasq;
            Wanted(s) ==
            match s.mode.mode
            case Redirect => Snapshot(true, false, steered, false, true, true)
            case Mixed => Snapshot(true, true, steered, true, true, true)
            case TProxy => Snapshot(true, false, steered, false, true, true)
            case Tun => Snapshot(s.dnsMode == DNSRedirect, false, steered, true, true, true)
  {
  }

  lemma WantedCarries(s: Settings)
    requires s.mode.Known?
    ensures Wanted(s).core && Wanted(s).passed && (s.mode.mode.NeedsTunProcess() ==> Wanted(s).route)
  {
  }

  /** Installing rules goes through any number of states that differ in the rules only. */
  predicate FirewallStep(before: Snapshot, marking: bool, after: Snapshot) {
    after == before.(capture := after.capture, marks := after.marks) && (after.marks ==> marking)
  }

  lemma FirewallStepsAreSafe(before: Snapshot, marking: bool, history: seq<Snapshot>, longer: seq<Snapshot>)
    requires AllSafe(history) && history <= longer
    requires before.core && before.passed && (marking ==> before.route)
    requires forall i :: |history| <= i < |longer| ==> FirewallStep(before, marking, longer[i])
    ensures AllSafe(longer)
  {
    forall i | 0 <= i < |longer| ensures Safe(longer[i]) {
      if i < |history| {
        assert longer[i] == history[i];
      } else {
        assert FirewallStep(before, marking, longer[i]);
      }
    }
  }

  /** The device and its programs. `history` keeps every state it passes through. */
  class World {
    var now: Snapshot
    ghost var history: seq<Snapshot>
    ghost var builds: seq<string>

    constructor ()
      ensures now == CLEAR && history == [CLEAR] && builds == []
    {
      now := CLEAR;
      history, builds := [CLEAR], [];
    }

    method Put(s: Snapshot)
      modifies `now, `history
      ensures now == s && history == old(history) + [s]
      ensures AllSafe(old(history)) && Safe(s) ==> AllSafe(history)
    {
      now := s;
      history := history + [s];
    }

    /** Anything that leaves the device as it is and may fail. */
    method Try() returns (ok: bool) {
      ok := *;
    }

    method Build(id: string) returns (ok: bool)
      modifies `builds
      ensures builds == old(builds) + [id]
    {
      builds := builds + [id];
      ok := *;
    }

    method StartCore() returns (ok: bool)
      modifies `now, `history
      ensures now == if ok then old(now).(core := true, passed := false) else old(now)
      ensures history == old(history) + [now]
      ensures AllSafe(old(history)) && Safe(now) ==> AllSafe(history)
    {
      ok := *;
      Put(if ok then now.(core := true, passed := false) else now);
    }

    method StopCore()
      modifies `now, `history
      ensures now == old(now).(core := false, passed := false) && history == old(history) + [now]
      ensures AllSafe(old(history)) && Safe(now) ==> AllSafe(history)
    {
      Put(now.(core := false, passed := false));
    }

    /** Sends a request through the core. */
    method Reachable() returns (ok: bool)
      modifies `now, `history
      ensures now == if ok then old(now).(passed := true) else old(now)
      ensures history == old(history) + [now]
      ensures AllSafe(old(history)) && Safe(now) ==> AllSafe(history)
    {
      ok := *;
      Put(if ok then now.(passed := true) else now);
    }

    /** A start that fails may have come as far as the route. */
    method StartTun() returns (ok: bool)
      modifies `now, `history
      ensures now == old(now).(route := now.route) && (ok ==> now.route)
      ensures history == old(history) + [now]
      ensures AllSafe(old(history)) && Safe(now) ==> AllSafe(history)
    {
      ok := *;
      var route: bool := *;
      Put(now.(route := ok || route));
    }

    method StopTun()
      modifies `now, `history
      ensures now == old(now).(route := false) && history == old(history) + [now]
      ensures AllSafe(old(history)) && Safe(now) ==> AllSafe(history)
    {
      Put(now.(route := false));
    }

    /** Applying is a sequence of commands that can stop anywhere. */
    method ApplyFirewall(installs: bool, marking: bool) returns (ok: bool)
      modifies `now, `history
      ensures FirewallStep(old(now), marking, now) && (ok ==> now.capture == installs && now.marks == marking)
      ensures old(history) <= history
      ensures forall i :: |old(history)| <= i < |history| ==> FirewallStep(old(now), marking, history[i])
    {
      var i, steps: int := 0, *;
      while i < steps
        invariant FirewallStep(old(now), marking, now) || (i == 0 && now == old(now))
        invariant old(history) <= history
        invariant forall i :: |old(history)| <= i < |history| ==> FirewallStep(old(now), marking, history[i])
      {
        var capture: bool, marks: bool := *, *;
        Put(now.(capture := capture, marks := marks && marking));
        i := i + 1;
      }
      ok := *;
      Put(if ok then now.(capture := installs, marks := marking) else now.(marks := now.marks && marking));
    }

    method RevertFirewall()
      modifies `now, `history
      ensures now == old(now).(capture := false, marks := false) && history == old(history) + [now]
      ensures AllSafe(old(history)) && Safe(now) ==> AllSafe(history)
    {
      Put(now.(capture := false, marks := false));
    }

    /** A full reload of the device's firewall, which flushes the rules. */
    method FlushFirewall()
      modifies `now, `history
      ensures now == old(now).(capture := false, marks := false) && history == old(history) + [now]
      ensures AllSafe(old(history)) && Safe(now) ==> AllSafe(history)
    {
      Put(now.(capture := false, marks := false));
    }

    method ApplyDNS(steers: bool) returns (ok: bool)
      modifies `now, `history
      ensures now == old(now).(steered := now.steered) && (ok ==> now.steered == steers)
      ensures history == old(history) + [now]
      ensures AllSafe(old(history)) && Safe(now) ==> AllSafe(history)
    {
      ok := *;
      var steered: bool := *;
      Put(now.(steered := if ok then steers else steered));
    }

    method RevertDNS()
      modifies `now, `history
      ensures now == old(now).(steered := false) && history == old(history) + [now]
      ensures AllSafe(old(history)) && Safe(now) ==> AllSafe(history)
    {
      Put(now.(steered := false));
    }
  }

  /** The stored configuration, which others edit too: what a load finds is anything. `asked` keeps
      the targets the engine was asked to connect to, its own second attempts included. */
  class Store {
    var data: Data
    ghost var loads: seq<Data>
    ghost var pins: nat
    ghost var asked: seq<string>

    constructor (data: Data)
      ensures this.data == data && loads == [] && pins == 0 && asked == []
    {
      this.data := data;
      loads, pins, asked := [], 0, [];
    }

    method Load() returns (ok: bool, data: Data)
      modifies `data, `loads
      ensures ok ==> loads == old(loads) + [data] && this.data == data
      ensures !ok ==> loads == old(loads)
    {
      ok, data := *, *;
      this.data := data;
      if ok {
        loads := loads + [data];
      }
    }

    /** Replaces a stored certificate by the one a server presents now. */
    method AcceptPin() returns (ok: bool)
      modifies `data, `pins
      ensures pins == old(pins) + if ok then 1 else 0
    {
      ok := *;
      if ok {
        data := *;
        pins := pins + 1;
      }
    }

    method Save(data: Data) returns (ok: bool)
      modifies `data
      ensures ok ==> this.data == data
      ensures !ok ==> this.data == old(this.data)
    {
      ok := *;
      if ok {
        this.data := data;
      }
    }
  }

  // ----- the engine

  class Engine {
    const world: World
    const store: Store
    var core: bool
    var tun: bool
    var dns: bool
    var firewall: bool
    var connected: bool
    var profile: Option<string>
    var group: Option<string>
    var settings: Settings
    var hasTProxy: bool
    var pinAccepted: bool

    constructor (world: World, store: Store)
      requires world.now == CLEAR && AllSafe(world.history)
      ensures Valid() && this.world == world && this.store == store && !connected
    {
      this.world, this.store := world, store;
      core, tun, dns, firewall, connected, pinAccepted := false, false, false, false, false, false;
      profile, group := None, None;
    }

    /** Whatever is in place has its handle in the engine, so a teardown will find it. */
    ghost predicate Owns()
      reads `core, `tun, `firewall, `dns, world`now
    {
      var s := world.now;
      && (s.passed ==> s.core) && (s.core ==> core)
      && (s.route ==> tun)
      && (s.capture || s.marks ==> firewall)
      && (s.steered ==> dns)
    }

    predicate HoldsNothing()
      reads this
    {
      !core && !tun && !dns && !firewall && !connected && profile == None && group == None
    }

    /** A complete connection. */
    ghost predicate Up()
      reads this, world
    {
      && settings.mode.Known? && core && dns && world.now.core && world.now.passed
      && (settings.mode.mode.NeedsTunProcess() ==> tun && world.now.route)
      && (firewall <==> InstallsRules(settings))
      && (profile != None || group != None) && profile != Some("") && group != Some("")
    }

    /** What holds between operations. */
    ghost predicate Valid()
      reads this, world
    {
      && AllSafe(world.history) && Safe(world.now)
      && Owns() && !pinAccepted
      && (if connected then Up() else HoldsNothing() && world.now == CLEAR)
    }

    /** The connection is made with the settings of the last of the loads since then, which knows
        the target and finds nothing wrong with it. */
    ghost predicate LoadedSince(before: seq<Data>, id: string)
      reads this, store
    {
      && |before| < |store.loads|
      && settings == store.loads[|store.loads| - 1].settings
      && CheckTarget(store.loads[|store.loads| - 1], id) == NoError
      && (settings.mode == Known(TProxy) ==> hasTProxy)
    }

    function ActiveTarget(): string
      reads this
    {
      if !connected then ""
      else if group.Some? then group.value
      else if profile.Some? then profile.value
      else ""
    }

    /** Nothing leads into the core or the tunnel any more. */
    method StopSteeringLocked()
      requires Owns() && AllSafe(world.history) && Safe(world.now)
      modifies `dns, `firewall, world`now, world`history
      ensures !dns && !firewall && AllSafe(world.history)
      ensures world.now == old(world.now).(steered := false, capture := false, marks := false)
    {
      hide AllSafe;
      if dns {
        world.RevertDNS();
        dns := false;
      }
      if firewall {
        world.RevertFirewall();
        firewall := false;
      }
    }

    /** Takes everything down in the opposite order it was put up. */
    method TeardownLocked()
      requires Owns() && AllSafe(world.history) && Safe(world.now)
      modifies this, world`now, world`history
      ensures HoldsNothing() && world.now == CLEAR && AllSafe(world.history)
      ensures settings == old(settings) && hasTProxy == old(hasTProxy) && pinAccepted == old(pinAccepted)
    {
      hide AllSafe;
      StopSteeringLocked();
      if tun {
        world.StopTun();
        tun := false;
      }
      if core {
        world.StopCore();
        core := false;
      }
      connected, profile, group := false, None, None;
    }

    method RefreshEnvLocked()
      modifies `hasTProxy
    {
      hasTProxy := *;
    }

    /** The core with its configuration; nothing is started when the configuration is no good. */
    method StartCoreLocked(id: string) returns (err: Error)
      requires HoldsNothing() && world.now == CLEAR && AllSafe(world.history) && !pinAccepted
      modifies this, world
      ensures Owns() && AllSafe(world.history) && Safe(world.now) && !world.now.passed
      ensures settings == old(settings) && hasTProxy == old(hasTProxy) && !pinAccepted && !connected
      ensures !tun && !dns && !firewall && profile == None && group == None
      ensures err == NoError ==>
                core && world.now.core && settings.mode.Known? && world.builds == old(world.builds) + [id]
      ensures world.builds == old(world.builds) || world.builds == old(world.builds) + [id]
      ensures settings.mode.Unknown? || (settings.mode == Known(TProxy) && !hasTProxy) ==>
                err != NoError && !core && world.builds == old(world.builds)
    {
      hide AllSafe;
      var ok := world.Try();
      if !ok { return Failed("config.rundir"); }
      if settings.mode.Unknown? { return Failed("config.mode_unknown"); }
      if settings.mode.mode.NeedsTProxy() && !hasTProxy { return Failed("config.tproxy_missing"); }
      ok := world.Build(id);
      if !ok { return Failed("config.build"); }
      ok := world.Try();
      if !ok { return Failed("config.render"); }
      ok := world.Try();
      if !ok { return Failed("config.write"); }
      ok := world.Try();
      if !ok { return Failed("config.rejected"); }
      ok := world.Try();
      if !ok { return Failed("ports"); }
      core := true;
      ok := world.StartCore();
      if !ok { return Failed("core.start"); }
      ok := world.Try();
      if !ok { return Failed("core.wait"); }
      return NoError;
    }

    /** The tunnel, before any rule that marks packets for it. */
    method StartTunLocked() returns (err: Error)
      requires Owns() && AllSafe(world.history) && Safe(world.now) && !tun && !world.now.marks
      requires settings.mode.Known? && settings.mode.mode.NeedsTunProcess()
      modifies `tun, world`now, world`history
      ensures Owns() && AllSafe(world.history) && Safe(world.now)
      ensures world.now == old(world.now).(route := world.now.route)
      ensures err == NoError ==> world.now.route
      ensures err == Failed("tunnel.firewall_drops") ==> settings.mode == Known(Tun)
    {
      hide AllSafe;
      tun := true;
      var ok := world.StartTun();
      if !ok { return Failed("tunnel.start"); }
      var dropped: bool := *;
      if dropped && !settings.mode.mode.MarksUDPForTun() { return Failed("tunnel.firewall_drops"); }
      return NoError;
    }

    /** Whether anything passes; a changed certificate may be accepted for a profile that asks
        for it, which is a failure all the same. */
    method CheckDataLocked(isProfile: bool) returns (err: Error)
      requires Owns() && AllSafe(world.history) && Safe(world.now) && world.now.core && !pinAccepted
      modifies `pinAccepted, store`data, store`pins, world`now, world`history
      ensures pinAccepted ==> isProfile
      ensures pinAccepted <==> store.pins == old(store.pins) + 1
      ensures !pinAccepted <==> store.pins == old(store.pins)
      ensures Owns() && AllSafe(world.history) && Safe(world.now)
      ensures world.now == old(world.now).(passed := world.now.passed)
      ensures err == NoError ==> world.now.passed && !pinAccepted
    {
      hide AllSafe;
      var ok := world.Reachable();
      if ok { return NoError; }
      var changed: bool := *;
      if isProfile && changed {
        pinAccepted := store.AcceptPin();
      }
      return Failed("core.no_data");
    }

    method StartFirewallLocked() returns (err: Error)
      requires Owns() && AllSafe(world.history) && Safe(world.now) && world.now.core && world.now.passed
      requires MarksUDP(settings) ==> world.now.route
      requires !firewall && InstallsRules(settings)
      modifies `firewall, world`now, world`history
      ensures Owns() && AllSafe(world.history) && Safe(world.now)
      ensures world.now == old(world.now).(capture := world.now.capture, marks := world.now.marks)
      ensures err == NoError ==> firewall && world.now.capture && world.now.marks == MarksUDP(settings)
    {
      hide AllSafe;
      var ok := world.Try();
      if !ok { return Failed("fw.no_backend"); }
      firewall := true;
      ghost var before := world.now;
      ok := world.ApplyFirewall(true, MarksUDP(settings));
      FirewallStepsAreSafe(before, MarksUDP(settings), old(world.history), world.history);
      return if ok then NoError else Failed("fw.apply");
    }

    method StartLocked(p: Option<string>, g: Option<string>, id: string) returns (err: Error)
      requires HoldsNothing() && world.now == CLEAR && AllSafe(world.history) && !pinAccepted
      modifies this, store`data, store`pins, world
      ensures Owns() && AllSafe(world.history) && Safe(world.now)
      ensures settings == old(settings) && hasTProxy == old(hasTProxy) && !connected
      ensures store.pins == old(store.pins) + if pinAccepted then 1 else 0
      ensures pinAccepted ==> p.Some?
      ensures settings.mode == Known(TProxy) && !hasTProxy ==> err != NoError && world.builds == old(world.builds)
      ensures err == NoError ==>
                && settings.mode.Known? && world.now == Wanted(settings) && !pinAccepted
                && core && dns && tun == settings.mode.mode.NeedsTunProcess() && firewall == InstallsRules(settings)
      ensures world.builds == old(world.builds) || world.builds == old(world.builds) + [id]
    {
      hide AllSafe;
      err := StartCoreLocked(id);
      if err != NoError { return; }
      dns := true;
      if settings.mode.mode.NeedsTunProcess() {
        err := StartTunLocked();
        if err != NoError { return; }
      }
      err := CheckDataLocked(p.Some?);
      if err != NoError { return; }
      if settings.mode.mode.NeedsFirewallCapture() || settings.dnsMode == DNSRedirect {
        err := StartFirewallLocked();
        if err != NoError { return; }
      }
      var ok := world.ApplyDNS(settings.dnsMode == DNSDnsmasq);
      if !ok { return Failed("dns.apply"); }
    }

    /** Takes down whatever is connected and adopts the stored settings. */
    method PrepareLocked(data: Data)
      requires Owns() && AllSafe(world.history) && Safe(world.now) && !pinAccepted
      modifies this, world`now, world`history
      ensures HoldsNothing() && world.now == CLEAR && AllSafe(world.history) && !pinAccepted
      ensures settings == data.settings
    {
      hide AllSafe, Safe;
      TeardownLocked();
      settings := data.settings;
      RefreshEnvLocked();
    }

    /** Replaces whatever is connected by `id`. `again` says that the attempt produced what was
        missing, so that another one may work. */
    method AttemptLocked(data: Data, id: string) returns (err: Error, again: bool, ghost stored: bool)
      requires AllSafe(world.history) && Safe(world.now) && Owns() && !pinAccepted
      requires CheckTarget(data, id) == NoError
      modifies this, store`data, store`pins, world
      ensures AllSafe(world.history) && Safe(world.now) && Owns() && !pinAccepted
      ensures store.pins == old(store.pins) + if again then 1 else 0
      ensures err == NoError ==> Valid() && connected && ActiveTarget() == id && !again
      ensures err == NoError ==> settings == data.settings && settings.mode.Known? && world.now == Wanted(settings)
      ensures err == NoError ==> (settings.mode == Known(TProxy) ==> hasTProxy)
      ensures again ==> id in data.profiles
      ensures stored ==>
                err == NoError && store.data == data.(settings := data.settings.(active := id, enabled := true))
      ensures BuiltFor(old(world.builds), world.builds, id, 1)
    {
      hide AllSafe, BuiltFor, Safe, CheckTarget, Owns, Wanted, InstallsRules;
      PrepareLocked(data);
      var p := if id in data.profiles then Some(id) else None;
      var g := if id in data.groups then Some(id) else None;
      err := StartLocked(p, g, id);
      BuiltOnce(old(world.builds), world.builds, id);
      again, stored := pinAccepted, false;
      if err != NoError {
        pinAccepted := false;
        return;
      }
      WantedCarries(settings);
      profile, group, connected := p, g, true;
      var saved := store.Save(data.(settings := data.settings.(active := id, enabled := true)));
      stored := saved;
    }

    /** Connects to a target, or to the stored selection for "". One attempt may be repeated. */
    method ConnectLockedOnce(targetID: string, retry: bool) returns (err: Error, ghost resolved: string)
      requires AllSafe(world.history) && Safe(world.now) && Owns() && !pinAccepted
      modifies this, store, world
      ensures AllSafe(world.history) && Safe(world.now) && Owns() && !pinAccepted
      ensures err == NoError ==> Valid() && connected && ActiveTarget() == resolved && resolved != ""
      ensures err == NoError ==> settings.mode.Known? && world.now == Wanted(settings)
      ensures err == NoError ==>
                old(|store.loads|) < |store.loads| && settings == store.loads[|store.loads| - 1].settings
      ensures err == NoError ==> LoadedSince(old(store.loads), resolved)
      ensures targetID != "" ==> resolved == targetID
      ensures err == NoError && targetID == "" ==>
                old(|store.loads|) < |store.loads| && store.loads[old(|store.loads|)].settings.active == resolved
      ensures old(store.loads) <= store.loads
      ensures BuiltFor(old(world.builds), world.builds, resolved, if retry then 2 else 1)
      ensures store.asked ==
              old(store.asked) + [targetID] + if retry && store.pins > old(store.pins) then [resolved] else []
      ensures store.pins >= old(store.pins)
      decreases retry
    {
      hide AllSafe, BuiltFor, CheckTarget, Safe, Owns, Valid, ActiveTarget, Wanted;
      ghost var loads := store.loads;
      resolved := targetID;
      store.asked := store.asked + [targetID];
      ghost var before, most := world.builds, if retry then 2 else 1;
      BuiltNothing(before, resolved, most);
      var ok, data := store.Load();
      if !ok { return Failed("config.read"), resolved; }
      var id := if targetID == "" then data.settings.active else targetID;
      resolved := id;
      BuiltNothing(before, id, most);
      err := CheckTarget(data, id);
      if err != NoError { return; }
      var again;
      ghost var stored;
      err, again, stored := AttemptLocked(data, id);
      BuiltNothing(world.builds, id, most - 1);
      BuiltAgain(before, world.builds, world.builds, id, 1, most - 1);
      if err != NoError && again && retry {
        ghost var first := world.builds;
        ghost var same;
        err, same := ConnectLockedOnce(id, false);
        BuiltAgain(before, first, world.builds, id, 1, 1);
      }
    }

    /** Whether there is a connection worth putting back. */
    static predicate ShouldFallBack(was: string, attempted: string) {
      was != "" && was != attempted
    }

    method FallBackLocked(was: string, attempted: string)
      requires HoldsNothing() && world.now == CLEAR && AllSafe(world.history) && !pinAccepted
      modifies this, store, world
      ensures Valid()
      ensures connected ==> ActiveTarget() == was && ShouldFallBack(was, attempted)
      ensures connected ==> settings.mode.Known? && world.now == Wanted(settings)
      ensures connected ==>
                old(|store.loads|) < |store.loads| && settings == store.loads[|store.loads| - 1].settings
      ensures connected ==> LoadedSince(old(store.loads), was)
      ensures old(store.loads) <= store.loads
      ensures if ShouldFallBack(was, attempted) then old(store.asked) + [was] <= store.asked
              else store.asked == old(store.asked)
      ensures BuiltFor(old(world.builds), world.builds, was, if ShouldFallBack(was, attempted) then 2 else 0)
    {
      hide AllSafe, BuiltFor;
      BuiltNothing(world.builds, was, 0);
      if !ShouldFallBack(was, attempted) {
        return;
      }
      ghost var resolved;
      var err;
      err, resolved := ConnectLockedOnce(was, true);
      if err != NoError {
        TeardownLocked();
      }
    }

    /**
     Connects, and on failure puts back what was connected before. There are three ends: the
     target is connected; the call failed and the previous target is connected again; the call
     failed and nothing is connected or in place. Either target is built at most twice: the
     second time if and only if the first attempt accepted a changed certificate. The previous
     target is asked for again if and only if the call failed and it is another one.
     */
    method Connect(targetID: string)
      returns (err: Error, ghost resolved: string, ghost tried: seq<string>, ghost requests: seq<string>)
      requires Valid()
      modifies this, store, world
      ensures Valid()
      ensures err == NoError ==> connected && ActiveTarget() == resolved && resolved != ""
      ensures err != NoError && connected ==>
                ActiveTarget() == old(ActiveTarget()) && ShouldFallBack(old(ActiveTarget()), targetID)
      ensures connected ==>
                old(|store.loads|) < |store.loads| && settings == store.loads[|store.loads| - 1].settings
      ensures connected ==> LoadedSince(old(store.loads), ActiveTarget())
      ensures connected ==> settings.mode.Known? && world.now == Wanted(settings)
      ensures targetID != "" ==> resolved == targetID
      ensures err == NoError && targetID == "" ==>
                old(|store.loads|) < |store.loads| && store.loads[old(|store.loads|)].settings.active == resolved
      ensures requests == [targetID] || requests == [targetID, resolved]
      ensures if err != NoError && ShouldFallBack(old(ActiveTarget()), targetID)
              then old(store.asked) + requests + [old(ActiveTarget())] <= store.asked
              else store.asked == old(store.asked) + requests
      ensures BuiltFor(old(world.builds), tried, resolved, 2)
      ensures BuiltFor(tried, world.builds, old(ActiveTarget()),
                       if err != NoError && ShouldFallBack(old(ActiveTarget()), targetID) then 2 else 0)
    {
      hide AllSafe, BuiltFor;
      var was := ActiveTarget();
      err, resolved := ConnectLockedOnce(targetID, true);
      tried := world.builds;
      requests := store.asked[|old(store.asked)|..];
      if err != NoError {
        TeardownLocked();
        FallBackLocked(was, targetID);
      } else {
        BuiltNothing(tried, was, 0);
      }
    }

    method Disconnect() returns (ok: bool)
      requires Valid()
      modifies this, store`data, world`now, world`history
      ensures Valid() && !connected
      ensures store.data ==
              if ok then old(store.data).(settings := old(store.data).settings.(enabled := false)) else old(store.data)
    {
      hide AllSafe;
      TeardownLocked();
      ok := store.Save(store.data.(settings := store.data.settings.(enabled := false)));
    }

    method FactoryReset(factory: Data) returns (ok: bool)
      requires Valid()
      modifies this, store`data, world`now, world`history
      ensures Valid() && !connected
      ensures ok ==> store.data == factory
    {
      hide AllSafe;
      TeardownLocked();
      ok := store.Save(factory);
    }

    /** Puts the rules back after the device's firewall flushed them. */
    method ReapplyFirewall(installed: bool) returns (ok: bool)
      requires Valid()
      modifies `hasTProxy, world`now, world`history
      ensures Valid() && connected == old(connected) && ActiveTarget() == old(ActiveTarget())
      ensures ok && connected && firewall && !installed ==> world.now.capture && world.now.marks == MarksUDP(settings)
    {
      hide AllSafe;
      if !connected || !firewall || installed {
        return true;
      }
      RefreshEnvLocked();
      ghost var before := world.now;
      ok := world.ApplyFirewall(InstallsRules(settings), MarksUDP(settings));
      FirewallStepsAreSafe(before, MarksUDP(settings), old(world.history), world.history);
    }

    /** A reload of an active connection is a reconnect to its target. */
    method Reload() returns (err: Error)
      requires Valid()
      modifies this, store, world
      ensures Valid()
      ensures !old(connected) ==> !connected && err == NoError && world.now == CLEAR
      ensures old(connected) && connected ==> ActiveTarget() == old(ActiveTarget())
      ensures old(connected) && connected ==>
                old(|store.loads|) < |store.loads| && settings == store.loads[|store.loads| - 1].settings
      ensures old(connected) && connected ==> LoadedSince(old(store.loads), ActiveTarget())
      ensures old(connected) && connected ==> settings.mode.Known? && world.now == Wanted(settings)
    {
      if !connected {
        return NoError;
      }
      ghost var resolved, tried, requests;
      var id := ActiveTarget();
      err, resolved, tried, requests := Connect(id);
    }

    method Close()
      requires Valid()
      modifies this, world`now, world`history
      ensures Valid() && !connected && world.now == CLEAR
    {
      hide AllSafe;
      TeardownLocked();
    }
  }

  datatype Op =
    | DoConnect(target: string) | DoDisconnect | DoReset(factory: Data) | DoReapply(installed: bool)
    | DoReload | DoClose | RulesFlushed

  /** Any run of operations, the device's own firewall reloads in between: every state passed
      through is safe, and whenever nothing is connected nothing is in place. */
  method Serve(e: Engine, ops: seq<Op>)
    requires e.Valid()
    modifies e, e.store, e.world
    ensures AllSafe(e.world.history)
    ensures !e.connected ==> e.world.now == CLEAR && e.HoldsNothing()
  {
    hide AllSafe;
    for i := 0 to |ops|
      invariant e.Valid()
    {
      match ops[i]
      case DoConnect(target) =>
        ghost var resolved, tried, requests;
        var err;
        err, resolved, tried, requests := e.Connect(target);
      case DoDisconnect => var _ := e.Disconnect();
      case DoReset(factory) => var _ := e.FactoryReset(factory);
      case DoReapply(installed) => var _ := e.ReapplyFirewall(installed);
      case DoReload => var _ := e.Reload();
      case DoClose => e.Close();
      case RulesFlushed => e.world.FlushFirewall();
    }
  }

  /** Whether there is anything to connect to under this id. */
  function CheckTarget(data: Data, id: string): (err: Error)
    ensures err == NoError ==> id != "" && (id in data.profiles || id in data.groups)
  {
    if id == "" then Failed("config.nothing_selected")
    else if id in data.groups then
      if !data.groups[id].valid then Failed("config.group_invalid")
      else if !AnyPresent(data.groups[id].members, data.profiles) then Failed("config.group_empty")
      else NoError
    else if id !in data.profiles then Failed("config.no_target")
    else if !data.profiles[id] then Failed("config.profile_invalid")
    else NoError
  }

  /** What is connected to is a group that is valid and has a member that exists, or, when no group
      has the id, a valid profile. */
  lemma TargetMeans(data: Data, id: string)
    ensures CheckTarget(data, id) == NoError <==>
            && id != ""
            && if id in data.groups
               then data.groups[id].valid
                    && exists i :: 0 <= i < |data.groups[id].members| && data.groups[id].members[i] in data.profiles
               else id in data.profiles && data.profiles[id]
  {
  }

  predicate AnyPresent(members: seq<string>, profiles: map<string, bool>) {
    exists i :: 0 <= i < |members| && members[i] in profiles
  }

  /** At most `most` builds more, all of one target. */
  ghost predicate BuiltFor(before: seq<string>, after: seq<string>, id: string, most: nat) {
    && before <= after && |after| <= |before| + most
    && forall i :: |before| <= i < |after| ==> after[i] == id
  }

  lemma BuiltNothing(builds: seq<string>, id: string, most: nat)
    ensures BuiltFor(builds, builds, id, most)
  {
  }

  lemma BuiltOnce(before: seq<string>, after: seq<string>, id: string)
    requires after == before || after == before + [id]
    ensures BuiltFor(before, after, id, 1) && BuiltFor(before, after, id, 2)
  {
  }

  lemma BuiltAgain(before: seq<string>, mid: seq<string>, after: seq<string>, id: string, m: nat, n: nat)
    requires BuiltFor(before, mid, id, m) && BuiltFor(mid, after, id, n)
    ensures BuiltFor(before, after, id, m + n)
  {
    forall i | |before| <= i < |after| ensures after[i] == id {
      if i < |mid| {
        assert after[i] == mid[i];
      }
    }
  }
}
