/**
 Steering the resolver (internal/mode/dns.go): a snippet for dnsmasq, or an edit of the dhcp
 configuration behind a state file written ahead of it, so that a daemon killed at any moment
 can still put everything back.
 */
module Dns {
  import opened Optional
  import opened Strings
  import opened UciText

  /** The part of the dhcp configuration that is edited. */
  datatype Dhcp = Dhcp(servers: seq<string>, noresolv: Option<string>)

  /** What survives the daemon: the committed configuration, the same with the staged edits, the
      state file and the snippet. */
  datatype Files = Files(committed: Dhcp, staged: Dhcp, state: Option<string>, snippet: Option<string>)

  datatype Edit = AddServer(server: string) | DelServer(server: string) | SetNoresolv(value: string) | DeleteNoresolv

  /** Every entry of the list with this value is removed. */
  function Strip(servers: seq<string>, server: string): seq<string> {
    if servers == [] then []
    else
      var rest := Strip(servers[..|servers| - 1], server);
      if servers[|servers| - 1] == server then rest else rest + [servers[|servers| - 1]]
  }

  function Edited(d: Dhcp, e: Edit): Dhcp {
    match e
    case AddServer(server) => d.(servers := d.servers + [server])
    case DelServer(server) => d.(servers := Strip(d.servers, server))
    case SetNoresolv(value) => d.(noresolv := Some(value))
    case DeleteNoresolv => d.(noresolv := None)
  }

  // ----- the state file

  /** What `uci get` shows, and whether it counts as set. */
  function Shown(noresolv: Option<string>): Option<string> {
    if noresolv.Some? && TrimSpace(noresolv.value) != "" then Some(TrimSpace(noresolv.value)) else None
  }

  function StateText(shown: Option<string>): string {
    if shown.Some? then "noresolv=" + shown.value + "\n" else "noresolv=\n"
  }

  const KEY := "noresolv="

  function FirstValue(lines: seq<string>): Option<string> {
    if lines == [] then None
    else if KEY <= lines[0] then if lines[0] == KEY then None else Some(lines[0][|KEY|..])
    else FirstValue(lines[1..])
  }

  function ParseNoresolvState(raw: string): Option<string> {
    FirstValue(Lines(raw))
  }

  /** What the state file will have the option put back to. */
  function Remembered(noresolv: Option<string>): Option<string> {
    ParseNoresolvState(StateText(Shown(noresolv)))
  }

  predicate Faithful(noresolv: Option<string>) {
    noresolv.Some? ==>
      noresolv.value != "" && TrimSpace(noresolv.value) == noresolv.value && '\n' !in noresolv.value
  }

  lemma StateTextRead(shown: Option<string>)
    requires shown.Some? ==> shown.value != "" && shown.value[0] != '\n'
    ensures var n := if shown.Some? then IndexOfNewline(shown.value) else 0;
            ParseNoresolvState(StateText(shown)) == if shown.Some? then Some(shown.value[..n]) else None
  {
    hide IndexOfNewline;
    var v := if shown.Some? then shown.value else "";
    var n := IndexOfNewline(v);
    var line := KEY + v[..n];
    var rest := if n == |v| then "" else v[n + 1..] + "\n";
    assert StateText(shown) == line + "\n" + rest by {
      if n < |v| {
        assert v == v[..n] + "\n" + v[n + 1..];
      } else {
        assert v[..n] == v;
      }
    }
    FirstLine(line, rest);
    assert line[|KEY|..] == v[..n];
  }

  /** The option is put back as it was exactly when it was unset, or set to something that has no
      outer white space and no newline. */
  lemma RememberedIffFaithful(noresolv: Option<string>)
    ensures Remembered(noresolv) == noresolv <==> Faithful(noresolv)
  {
    hide TrimSpace, IndexOfNewline, ParseNoresolvState;
    NewlineIsSpace();
    StateTextRead(Shown(noresolv));
    if noresolv.Some? && TrimSpace(noresolv.value) != "" {
      var v := TrimSpace(noresolv.value);
      var n := IndexOfNewline(v);
      if n == |v| {
        assert v[..n] == v;
      } else {
        assert |v[..n]| < |v|;
        assert v[n] == '\n';
      }
    }
  }

  lemma NewlineIsSpace()
    ensures IsSpace('\n')
  {
  }

  // ----- complete runs

  function Clean(orig: Dhcp): Files {
    Files(orig, orig, None, None)
  }

  /** The dhcp edit carried through. */
  function Applied(f: Files, upstream: string): Files {
    var edited := Edited(Edited(f.staged, AddServer(upstream)), SetNoresolv("1"));
    f.(committed := edited, staged := edited, state := Some(StateText(Shown(f.staged.noresolv))))
  }

  /** Once the edit is carried through, dnsmasq has the core behind the servers that were there and
      uses no others, and nothing is left to be committed. */
  lemma AppliedSteers(f: Files, upstream: string)
    ensures var g := Applied(f, upstream);
            && g.committed.servers == f.staged.servers + [upstream]
            && g.committed.noresolv == Some("1") && g.staged == g.committed
  {
    hide StateText, Shown;
  }

  function Restore(d: Dhcp, raw: string, upstream: string): Dhcp {
    var without := Edited(d, DelServer(upstream));
    var prev := ParseNoresolvState(raw);
    if prev.Some? then Edited(without, SetNoresolv(prev.value)) else Edited(without, DeleteNoresolv)
  }

  function Reverted(f: Files, upstream: string): Files {
    if f.state.None? then f.(snippet := None)
    else
      var back := Restore(f.staged, f.state.value, upstream);
      Files(back, back, None, None)
  }

  lemma {:induction false} StripMeans(servers: seq<string>, server: string)
    ensures Strip(servers, server) == servers <==> server !in servers
    ensures |Strip(servers, server)| <= |servers| && server !in Strip(servers, server)
    ensures Strip(Strip(servers, server), server) == Strip(servers, server)
  {
    if servers != [] {
      var init, last := servers[..|servers| - 1], servers[|servers| - 1];
      assert servers == init + [last];
      StripMeans(init, server);
      if last != server {
        var r := Strip(init, server) + [last];
        assert r[..|r| - 1] == Strip(init, server);
        if r == servers {
          assert r[..|r| - 1] == servers[..|servers| - 1];
        }
      }
    }
  }

  lemma StripAdded(servers: seq<string>, server: string)
    ensures Strip(servers + [server], server) == Strip(servers, server)
  {
    assert (servers + [server])[..|servers|] == servers;
  }

  predicate Restorable(orig: Dhcp, upstream: string) {
    upstream !in orig.servers && Faithful(orig.noresolv)
  }

  /** Undoing a complete edit gives back the configuration exactly when the core's address was
      not a server of the operator's and the option is one that `uci get` shows as it is. */
  lemma RestoredExactlyWhen(orig: Dhcp, upstream: string)
    ensures Reverted(Applied(Clean(orig), upstream), upstream) == Clean(orig) <==> Restorable(orig, upstream)
  {
    hide Strip, ParseNoresolvState, StateText, Shown, Faithful;
    StripAdded(orig.servers, upstream);
    StripMeans(orig.servers, upstream);
    RememberedIffFaithful(orig.noresolv);
  }

  /** Applying over an edit that was never undone records the daemon's own value as the
      operator's: after the revert the option stays set. */
  lemma EditingTwiceForgets(orig: Dhcp, upstream: string)
    requires Restorable(orig, upstream)
    ensures var twice := Applied(Applied(Clean(orig), upstream), upstream);
            Reverted(twice, upstream) == Clean(orig.(noresolv := Some("1")))
  {
    hide Strip, ParseNoresolvState, StateText, Faithful, TrimSpace;
    StripAdded(orig.servers, upstream);
    StripAdded(orig.servers + [upstream], upstream);
    StripMeans(orig.servers, upstream);
    OneIsPlain();
    RememberedIffFaithful(Some("1"));
  }

  lemma OneIsPlain()
    ensures Faithful(Some("1")) && TrimSpace("1") == "1"
  {
  }

  // ----- any step may be the last

  predicate Restored(f: Files, orig: Dhcp) {
    f.committed == orig && f.staged == orig && f.state == None
  }

  /** The configuration with the option at the daemon's own value, which is what an edit over one
      that was never undone takes for the operator's. */
  function Forgotten(orig: Dhcp): Dhcp {
    orig.(noresolv := Some("1"))
  }

  /**
   Enough is on record to put a configuration back: `back`, which is the operator's or that with
   the option forgotten. Either nothing is edited, or the state file says what the option is to be
   and nothing but the core's server and the option differs from the operator's.
   */
  predicate Recoverable(f: Files, orig: Dhcp, back: Dhcp, upstream: string) {
    && (back == orig || back == Forgotten(orig))
    && (Restored(f, back)
        || (&& f.state == Some(StateText(Shown(back.noresolv)))
            && Strip(f.committed.servers, upstream) == orig.servers
            && Strip(f.staged.servers, upstream) == orig.servers
            && (f.committed.noresolv == orig.noresolv || f.committed.noresolv == Some("1"))
            && (f.staged.noresolv == orig.noresolv || f.staged.noresolv == Some("1"))))
  }

  /** The edits that are made: of the core's server, and of the option to one of its two values. */
  predicate OwnEdit(e: Edit, orig: Dhcp, upstream: string) {
    match e
    case AddServer(server) => server == upstream
    case DelServer(server) => server == upstream
    case SetNoresolv(value) => value == "1" || Some(value) == orig.noresolv
    case DeleteNoresolv => orig.noresolv == None
  }

  lemma EditsAreRecoverable(f: Files, orig: Dhcp, back: Dhcp, upstream: string, e: Edit)
    requires Recoverable(f, orig, back, upstream) && f.state.Some? && OwnEdit(e, orig, upstream)
    ensures Recoverable(f.(staged := Edited(f.staged, e)), orig, back, upstream)
  {
    hide Shown, StateText, Strip;
    StripAdded(f.staged.servers, upstream);
    StripMeans(f.staged.servers, upstream);
  }

  /** What the state file records anew: the option as it stands. */
  lemma RecordingIsRecoverable(f: Files, orig: Dhcp, back: Dhcp, upstream: string)
    requires Recoverable(f, orig, back, upstream) && Restorable(orig, upstream)
    ensures var record := Some(StateText(Shown(f.staged.noresolv)));
            Recoverable(f.(state := record), orig, orig.(noresolv := f.staged.noresolv), upstream)
    ensures f.state.None? ==> orig.(noresolv := f.staged.noresolv) == back
  {
    hide Shown, StateText, Strip, Faithful;
    StripMeans(orig.servers, upstream);
  }

  lemma BackIsRestorable(orig: Dhcp, upstream: string)
    requires Restorable(orig, upstream)
    ensures Restorable(Forgotten(orig), upstream)
  {
    hide TrimSpace;
    OneIsPlain();
  }

  lemma PutBackIsTheOriginal(f: Files, orig: Dhcp, back: Dhcp, upstream: string)
    requires Recoverable(f, orig, back, upstream) && f.state.Some? && Restorable(orig, upstream)
    ensures Restore(f.staged, f.state.value, upstream) == back
    ensures Recoverable(f.(committed := back, staged := back), orig, back, upstream)
    ensures var prev := ParseNoresolvState(f.state.value);
            OwnEdit(if prev.Some? then SetNoresolv(prev.value) else DeleteNoresolv, orig, upstream)
  {
    hide Shown, StateText, Strip, Faithful, ParseNoresolvState;
    BackIsRestorable(orig, upstream);
    RememberedIffFaithful(back.noresolv);
    StripMeans(f.staged.servers, upstream);
    StripMeans(orig.servers, upstream);
  }

  /** The device's files. The daemon may be killed before any operation; from then on it changes
      nothing. A command of an Apply may fail. */
  class Device {
    var files: Files
    var alive: bool

    constructor (orig: Dhcp)
      ensures files == Clean(orig) && alive
    {
      files := Clean(orig);
      alive := true;
    }

    method Killed()
      modifies `alive
      ensures alive ==> old(alive)
    {
      var survives: bool := *;
      alive := alive && survives;
    }

    /** Started again: edits that were staged and not committed may be gone. */
    method Restart()
      modifies this
      ensures alive && (files == old(files) || files == old(files).(staged := old(files).committed))
    {
      var lost: bool := *;
      if lost {
        files := files.(staged := files.committed);
      }
      alive := true;
    }

    method Edit(e: Edit, mayFail: bool) returns (ok: bool)
      modifies this
      ensures alive ==> old(alive)
      ensures ok && alive ==> files == old(files).(staged := Edited(old(files).staged, e))
      ensures !ok || !alive ==> files == old(files)
      ensures !mayFail && alive ==> ok
    {
      Killed();
      ok := *;
      ok := ok || !mayFail;
      if ok && alive {
        files := files.(staged := Edited(files.staged, e));
      }
    }

    method Commit(mayFail: bool) returns (ok: bool)
      modifies this
      ensures alive ==> old(alive)
      ensures ok && alive ==> files == old(files).(committed := old(files).staged)
      ensures !ok || !alive ==> files == old(files)
      ensures !mayFail && alive ==> ok
    {
      Killed();
      ok := *;
      ok := ok || !mayFail;
      if ok && alive {
        files := files.(committed := files.staged);
      }
    }

    method WriteState(state: Option<string>, mayFail: bool) returns (ok: bool)
      modifies this
      ensures alive ==> old(alive)
      ensures ok && alive ==> files == old(files).(state := state)
      ensures !ok || !alive ==> files == old(files)
      ensures !mayFail && alive ==> ok
    {
      Killed();
      ok := *;
      ok := ok || !mayFail;
      if ok && alive {
        files := files.(state := state);
      }
    }

    method WriteSnippet(snippet: Option<string>, mayFail: bool) returns (ok: bool)
      modifies this
      ensures alive ==> old(alive)
      ensures ok && alive ==> files == old(files).(snippet := snippet)
      ensures !ok || !alive ==> files == old(files)
      ensures !mayFail && alive ==> ok
    {
      Killed();
      ok := *;
      ok := ok || !mayFail;
      if ok && alive {
        files := files.(snippet := snippet);
      }
    }

    /** Restarting dnsmasq, asking the core's resolver: nothing on file changes. */
    method Try() returns (ok: bool)
      modifies `alive
      ensures alive ==> old(alive)
    {
      Killed();
      ok := *;
    }
  }

  function SnippetText(upstream: string): string {
    HEADING + "\nserver=" + upstream + "\nno-resolv\n"
  }

  const HEADING := "# Managed by xwrt. " + "Removed automatically " + "on disconnect."

  /** The lines dnsmasq finds in the snippet: the core as a server, and no other. */
  lemma SnippetSays(upstream: string)
    requires OneLine(upstream)
    ensures Lines(SnippetText(upstream)) == [HEADING, "server=" + upstream, "no-resolv"]
  {
    hide Lines, OneLine;
    var second, third := "server=" + upstream, "no-resolv";
    PlainLines(upstream);
    assert SnippetText(upstream) == HEADING + "\n" + (second + "\n" + (third + "\n" + ""));
    FirstLine(HEADING, second + "\n" + (third + "\n" + ""));
    FirstLine(second, third + "\n" + "");
    FirstLine(third, "");
    NothingIsNoLine();
  }

  lemma PlainLines(upstream: string)
    requires OneLine(upstream)
    ensures OneLine(HEADING) && OneLine("server=" + upstream) && OneLine("no-resolv")
  {
    var word := "server=";
    assert '\n' !in word;
    PlainHeading();
  }

  lemma PlainHeading()
    ensures OneLine(HEADING)
  {
    var a, b, c := "# Managed by xwrt. ", "Removed automatically ", "on disconnect.";
    assert '\n' !in a && '\n' !in b && '\n' !in c;
  }

  lemma NothingIsNoLine()
    ensures Lines("") == []
  {
  }

  class DNS {
    const device: Device
    const upstream: string
    const wanted: bool
    var applied: bool
    var viaUCI: bool

    constructor (device: Device, upstream: string, wanted: bool)
      ensures this.device == device && this.upstream == upstream && this.wanted == wanted && !applied && !viaUCI
    {
      this.device, this.upstream, this.wanted := device, upstream, wanted;
      applied, viaUCI := false, false;
    }

    /** Wherever the revert is cut short the configuration can still be put back; one that is not
        cut short has put it back. */
    method Revert(ghost orig: Dhcp, ghost back: Dhcp)
      requires Recoverable(device.files, orig, back, upstream) && Restorable(orig, upstream)
      modifies this, device
      ensures Recoverable(device.files, orig, back, upstream)
      ensures device.alive ==> old(device.alive) && device.files == Clean(back) && !applied && !viaUCI
    {
      hide Recoverable, Restorable, Strip, Edited;
      var snippet := device.files.snippet.Some?;
      if snippet {
        var removed := device.WriteSnippet(None, false);
        SnippetIsNothing(old(device.files), device.files, orig, back, upstream);
      }
      var edited := RevertUCI(orig, back);
      applied, viaUCI := false, false;
      if snippet || edited {
        var restarted := device.Try();
      }
    }

    method RevertUCI(ghost orig: Dhcp, ghost back: Dhcp) returns (edited: bool)
      requires Recoverable(device.files, orig, back, upstream) && Restorable(orig, upstream)
      modifies device
      ensures Recoverable(device.files, orig, back, upstream)
      ensures device.alive ==>
                old(device.alive) && Restored(device.files, back) && device.files.snippet == old(device.files).snippet
    {
      hide Recoverable, Restorable, Strip, Edited, ParseNoresolvState, StateText, Shown, OwnEdit;
      ghost var f := device.files;
      if device.files.state.None? {
        RecoverableMeans(f, orig, back, upstream);
        return false;
      }
      var raw := device.files.state.value;
      PutBackIsTheOriginal(f, orig, back, upstream);
      ServersAreOwn(orig, upstream);
      EditsAreRecoverable(f, orig, back, upstream, DelServer(upstream));
      var ok := device.Edit(DelServer(upstream), false);
      ghost var g := device.files;
      var prev := ParseNoresolvState(raw);
      var put := if prev.Some? then SetNoresolv(prev.value) else DeleteNoresolv;
      EditsAreRecoverable(g, orig, back, upstream, put);
      ok := device.Edit(put, false);
      if device.alive {
        assert device.files == f.(staged := back);
      }
      CommitIsRecoverable(device.files, orig, back, upstream);
      ok := device.Commit(false);
      ok := device.WriteState(None, false);
      RestoredIsRecoverable(device.files, orig, back, upstream);
      RecoverableNames(f, orig, back, upstream);
      return true;
    }

    /** Edits the dhcp configuration behind the state file. `after` is what a revert puts back
        from then on: as before, or with the option as it stood when it was recorded anew. */
    method ApplyUCI(ghost orig: Dhcp, ghost back: Dhcp) returns (ok: bool, ghost after: Dhcp)
      requires Recoverable(device.files, orig, back, upstream) && Restorable(orig, upstream)
      modifies this, device
      ensures Recoverable(device.files, orig, after, upstream)
      ensures after == back || after == orig.(noresolv := old(device.files).staged.noresolv)
      ensures old(device.files).state.None? ==> after == back
      ensures ok && device.alive ==> device.files == Applied(old(device.files), upstream) && viaUCI
      ensures ok && device.alive ==>
                && device.files.committed.servers == old(device.files).staged.servers + [upstream]
                && device.files.committed.noresolv == Some("1") && device.files.staged == device.files.committed
      ensures !ok && device.alive ==> device.files == old(device.files) || device.files == Clean(after)
    {
      hide Recoverable, Restorable, Strip, Edited, StateText, Shown, OwnEdit;
      ghost var f := device.files;
      after := back;
      RecordingIsRecoverable(f, orig, back, upstream);
      ok := device.WriteState(Some(StateText(Shown(device.files.staged.noresolv))), true);
      if !ok {
        return;
      }
      viaUCI := true;
      ghost var g := device.files;
      if device.alive {
        after := orig.(noresolv := f.staged.noresolv);
      }
      ServersAreOwn(orig, upstream);
      if g.state.Some? {
        EditsAreRecoverable(g, orig, after, upstream, AddServer(upstream));
      }
      ok := device.Edit(AddServer(upstream), true);
      if !ok {
        Revert(orig, after);
        return;
      }
      ghost var h := device.files;
      if h.state.Some? {
        EditsAreRecoverable(h, orig, after, upstream, SetNoresolv("1"));
      }
      ok := device.Edit(SetNoresolv("1"), true);
      if !ok {
        Revert(orig, after);
        return;
      }
      CommitIsRecoverable(device.files, orig, after, upstream);
      ok := device.Commit(true);
      if !ok {
        Revert(orig, after);
        return;
      }
      ok := device.Try();
      if !ok {
        Revert(orig, after);
      }
      AppliedSteers(f, upstream);
    }

    /** Drops a snippet into the directory dnsmasq includes; the dhcp configuration and the state
        file are not touched. */
    method ApplyConfDir() returns (ok: bool)
      modifies this, device
      ensures device.files == old(device.files).(snippet := device.files.snippet)
      ensures ok && device.alive ==> device.files.snippet == Some(SnippetText(upstream)) && applied
      ensures !ok && device.alive ==> device.files.snippet == old(device.files).snippet || device.files.snippet == None
    {
      hide SnippetText;
      if device.files.snippet == Some(SnippetText(upstream)) {
        applied := true;
        return true;
      }
      ok := device.WriteSnippet(Some(SnippetText(upstream)), true);
      if !ok {
        return;
      }
      applied := true;
      ok := device.Try();
      if !ok {
        applied := false;
        var removed := device.WriteSnippet(None, false);
      }
    }

    /**
     Steers resolution. When it succeeds dnsmasq has the core as a server and no other upstream;
     when it fails and the daemon lives, the dhcp configuration is as before or put back; and
     wherever the daemon is killed, it can be put back. What is put back is still what it was,
     unless an edit was recorded over one that was never undone: then it is the operator's
     configuration with the option as it stood.
     */
    method Apply(hasDnsmasq: bool, hasConfDir: bool, ghost orig: Dhcp, ghost back: Dhcp)
      returns (ok: bool, ghost after: Dhcp)
      requires Recoverable(device.files, orig, back, upstream) && Restorable(orig, upstream)
      modifies this, device
      ensures Recoverable(device.files, orig, after, upstream)
      ensures after == back || after == orig.(noresolv := old(device.files).staged.noresolv)
      ensures old(device.files).state.None? ==> after == back
      ensures !wanted ==> ok && device.files == old(device.files)
      ensures ok && wanted && device.alive ==> applied
      ensures ok && wanted && device.alive && hasConfDir ==>
                device.files == old(device.files).(snippet := Some(SnippetText(upstream)))
      ensures ok && wanted && device.alive && !hasConfDir ==> device.files == Applied(old(device.files), upstream)
      ensures ok && wanted && device.alive && !hasConfDir ==>
                && device.files.committed.servers == old(device.files).staged.servers + [upstream]
                && device.files.committed.noresolv == Some("1") && device.files.staged == device.files.committed
      ensures !ok && device.alive ==>
                device.files == old(device.files).(snippet := device.files.snippet) || device.files == Clean(after)
    {
      hide Recoverable, Restored, Restorable, SnippetText, Applied;
      after := back;
      if !wanted {
        return true, after;
      }
      if !hasDnsmasq {
        return false, after;
      }
      if hasConfDir {
        ok := ApplyConfDir();
        SnippetIsNothing(old(device.files), device.files, orig, back, upstream);
      } else {
        ok, after := ApplyUCI(orig, back);
      }
      if !ok {
        return;
      }
      ok := device.Try();
      if !ok {
        Revert(orig, after);
        return;
      }
      applied := true;
    }
  }

  datatype Event = DoApply(hasDnsmasq: bool, hasConfDir: bool) | DoRevert | DoRestart

  /** Any life of the daemon: applying, reverting, being killed anywhere and started again, in any
      order. A revert that runs to its end at last leaves the operator's files; only when an edit
      was made over one that was never undone can the option be left at the daemon's value. */
  method Live(device: Device, upstream: string, events: seq<Event>, ghost orig: Dhcp)
    returns (ghost back: Dhcp, ghost overlapped: bool)
    requires device.files == Clean(orig) && Restorable(orig, upstream)
    modifies device
    ensures device.alive ==> device.files == Clean(back)
    ensures Recoverable(device.files, orig, back, upstream)
    ensures back == orig || (overlapped && back == Forgotten(orig))
  {
    hide Recoverable, Restorable, Restored;
    back, overlapped := orig, false;
    CleanIsRecoverable(orig, upstream);
    var dns := new DNS(device, upstream, true);
    for i := 0 to |events|
      invariant fresh(dns) && dns.device == device && dns.upstream == upstream
      invariant Recoverable(device.files, orig, back, upstream) && (!overlapped ==> back == orig)
    {
      match events[i]
      case DoApply(hasDnsmasq, hasConfDir) =>
        overlapped := overlapped || device.files.state.Some?;
        var ok;
        ok, back := dns.Apply(hasDnsmasq, hasConfDir, orig, back);
      case DoRevert => dns.Revert(orig, back);
      case DoRestart =>
        RestoredIsRecoverable(device.files, orig, back, upstream);
        device.Restart();
        dns := new DNS(device, upstream, true);
    }
    dns.Revert(orig, back);
    RecoverableNames(device.files, orig, back, upstream);
  }

  lemma CleanIsRecoverable(orig: Dhcp, upstream: string)
    ensures Recoverable(Clean(orig), orig, orig, upstream)
  {
    hide Strip, StateText, Shown;
  }

  lemma ServersAreOwn(orig: Dhcp, upstream: string)
    ensures OwnEdit(AddServer(upstream), orig, upstream) && OwnEdit(DelServer(upstream), orig, upstream)
    ensures OwnEdit(SetNoresolv("1"), orig, upstream)
  {
  }

  lemma RecoverableNames(f: Files, orig: Dhcp, back: Dhcp, upstream: string)
    requires Recoverable(f, orig, back, upstream)
    ensures back == orig || back == Forgotten(orig)
    ensures forall g: Files :: Restored(g, back) ==> Recoverable(g, orig, back, upstream)
  {
    hide Strip, StateText, Shown;
  }

  lemma RestoredIsRecoverable(f: Files, orig: Dhcp, back: Dhcp, upstream: string)
    ensures Restored(f, back) && (back == orig || back == Forgotten(orig)) ==> Recoverable(f, orig, back, upstream)
    ensures Recoverable(f, orig, back, upstream) ==> Recoverable(f.(staged := f.committed), orig, back, upstream)
  {
    hide Strip, StateText, Shown;
  }

  lemma RecoverableMeans(f: Files, orig: Dhcp, back: Dhcp, upstream: string)
    requires Recoverable(f, orig, back, upstream)
    ensures f.state.None? ==> Restored(f, back)
  {
  }

  lemma CommitIsRecoverable(f: Files, orig: Dhcp, back: Dhcp, upstream: string)
    requires Recoverable(f, orig, back, upstream)
    ensures Recoverable(f.(committed := f.staged), orig, back, upstream)
  {
    hide Strip, StateText, Shown;
  }

  lemma SnippetIsNothing(f: Files, g: Files, orig: Dhcp, back: Dhcp, upstream: string)
    requires g == f.(snippet := g.snippet)
    ensures Recoverable(f, orig, back, upstream) <==> Recoverable(g, orig, back, upstream)
  {
    hide Strip, StateText, Shown;
  }
}
