# Verified model of the router daemon

The daemon puts a router's traffic through a proxy core. It installs capture rules, routes into
a tunnel device, steers the resolver, supervises the core's process, keeps its configuration in a
text format of sections and options, and keeps count of what goes wrong. This project models
those parts in Dafny and proves what they are for. `dafny verify dfyconfig.toml` checks all of it.

**Capture** (`Modes`, `Capture`, `Nft`, `Ipt`, `IptCapture`). A plan is compiled to an nftables
table and to a sequence of iptables commands. Both have a packet semantics here: hooks, priorities,
first match, marks, redirection, tproxy and refusal. `Capture.Intended` says what should become of
a packet, from the mode predicates alone. Each dialect is proved to do just that, for every plan
and every packet, and the two are proved to agree except about packets of an existing transparent
socket, which only the nftables chain knows about. How each kind of packet comes out is also said
mode by mode and port by port. A network is a text; a packet carries the set
of texts that contain its destination, so nothing is assumed about how texts are read.

**Taking capture out again** (`Deletion`, `IptRevert`, `IptBackend`, `NftBackend`). The iptables
backend issues commands one at a time to a kernel that may refuse any of them. Whatever command an
application stopped at, a revert gives the device its own rules back in their order, as long as
there are at most eight client-facing devices; with nine the revert leaves jumps behind and the
next application is refused. The bound is proved to be exact.

**Routing** (`Policy`, `Tun`, `TunDevice`, `NoLoop`). Rules by preference and routing tables, with
installing and removing the tunnel's rules, exact up to 32 exempt networks, and the order in which
the tunnel's process and its routes come up and go. Rules of other programs may stand anywhere
between them. A packet of the core itself is never captured. It goes into the tunnel only in TUN
mode and only when the main table has no route for it: the rule for the core's mark looks up the
main table, and a lookup that finds nothing goes on to the rules behind it, the last of which is the
tunnel's. This is what the code does on a device that has lost its upstream route.

**Connections** (`Engine`). The engine owns a core, a tunnel, a firewall backend and a resolver
integration. Every step outside it may fail. Every state the device passes through in any run of
operations is safe: nothing leads into a core that was not started and seen to pass data, nothing
is marked for a tunnel without a route, and whatever is in place is owned, so that a failed
operation leaves nothing behind. A connect builds each target at most twice and ends in one of three
ways. A connect to "" that fails is always followed by the fallback, also when the stored selection
is the target that was connected before, because "" is never the previous target's id.

**Resolver** (`Dns`). The dhcp configuration is edited behind a state file. The daemon may be
killed before any step, of the edit and of the revert, with staged edits kept or lost; what is on
file always suffices to put the operator's configuration back. Which configurations come back is
proved exactly. An edit over one that was not undone may record the daemon's own value as the
operator's, and then only the option stays changed.

**Processes** (`Proc`, `ProcTail`). One caller, supervisors and children as interleaved steps. A
Stop that gives up waiting can be followed by a Start that adds a second child; without that, at
most one child is alive, and a Stop that saw its supervisor end leaves none. After a Stop gave up,
one child at most is certain again exactly when every supervisor has finished. That no child is
alive is not enough: a supervisor left behind still sets the shared flag that says nothing is
running, which admits another Start. It can also count a death that was asked for as a failure,
exactly as long as it is cancelled and has not taken note of its child's end.

**Configuration** (`UciText`, `UciModel`, `UciLines`, `Uci`, `Store`, `StoreNames`, `StoreText`,
`StoreFile`, `StoreValues`).
The parser fills sections in place, the printer builds the text. What is printed is read back with
every value and name cut at its first apostrophe, because the printer's `'\''` is not joined again
by the reader; so a package comes back if and only if none has one. The typed configuration is
mapped to such a package by the names of its options, for which writing and reading have a table
each, and from there to the text and back. It comes back from its file if and only if nothing in it
is left to a default and no text holds an apostrophe or a newline. Starting from any file, the
second save and load changes nothing. What every line of a file does to a package, and what every
option of a section is loaded as, is said under the names and with the defaults of the file.

**Counting and logging** (`Bursts`, `Faults`, `Rings`, `LogRing`). The burst detector is proved to
find the largest possible number of disjoint fast runs. The journal is the run-length encoding of
all failures, the last hundred runs of it.

**Servers and routing rules** (`Merge`, `RuleList`, `Routing`). Merging a subscription keeps as
many ids as can be kept. The generated routing rules mean what the operator's list says, except for
a port field of nothing but white space, which passes validation and is dropped; which connections
that changes is proved exactly.

**The core's configuration** (`CoreConfig`, `CoreBuilt`, `EndToEnd`, `Fingerprint`). The configuration is built from the
target, the rules and the whole settings; how one server is dialled is left to the environment.
Every connection the core opens carries the firewall mark, no two outbounds share a tag, and nothing
in the configuration points at something that is not there. Every inbound, outbound, resolver and
limit is said in the words of the settings, and so is where a connection goes under the operator's
rules. What the capture rules take over finds the core listening on that port. Its socket is of the
kind the packet needs, with two exceptions in TPROXY mode: name lookups that the firewall takes over
are tproxied to an inbound that is not transparent, and the router's own TCP is redirected to one
that is, although internal/model/model.go:105-107 has the way of arrival decide the option. The
material kept at connect time leaves
five settings out. They cannot reach the configuration, and equal material builds the same
configuration in every environment, unless an id names a profile and a group: the group's build
then also validates the profile, which the material leaves out. The notice that something is left
to apply is off exactly when nothing the connection has to do with was edited; an edit that cannot
reach the core, such as another release source, turns it on all the same, although the comment at
internal/daemon/fingerprint.go:22-24 says that it does not.

**Smaller ones** (`HevKeys`, `TimeSync`). A search over a stream in chunks, and a clock that is set
only when two hosts agree.

Modules: `Optional` and `Strings` are shared. Commands, clocks, random ids and the network are
parameters or steps with a nondeterministic result.

## Model

| member | source | states |
|---|---|---|
| Bursts.BurstsAreOptimal | internal/daemon/faults.go:142-160 | the number of bursts reported is the largest number of disjoint runs of ten occurrences that each fit the window, for every sequence of times |
| Bursts.NoPackingBeatsScan | internal/daemon/faults.go:142-160 | no choice of disjoint fast runs among the first n occurrences has more runs than were reported by then, and one with as many reaches no further back than the place counting started again |
| Bursts.ScanIsAPacking | internal/daemon/faults.go:148-160 | the reported runs themselves are disjoint and fast |
| Bursts.FastMeansAllWithinWindow | internal/daemon/faults.go:142-150 | for times that never go back, comparing the newest with the oldest of ten says that all ten lie within the window |
| Bursts.RecentIsTail | internal/daemon/faults.go:145-157 | what is kept of the occurrences is their end since counting last started again |
| Bursts.StandingStep | internal/daemon/faults.go:145-159 | one more occurrence completes a burst exactly when the last ten since the restart are fast, and then counting starts again behind them |
| Faults.FaultTally.constructor | internal/daemon/faults.go:90-95 | an empty tally |
| Faults.FaultTally.Add | internal/daemon/faults.go:111-160 | the tally stands for all calls so far: which keys are tracked, their counts, first and last stamps and bursts, and how many calls were turned away |
| Faults.FaultTally.Top | internal/daemon/faults.go:177-208 | the tracked faults that burst, at most n of them: the highest count first, then the latest stamp, then by text, and none left out that counts more |
| Faults.FaultTally.Reset | internal/daemon/faults.go:211-216 | nothing is tracked and nothing counted as missed |
| Faults.AdmittedMeans | internal/daemon/faults.go:120-126 | which keys are tracked: those called before the table was full |
| Faults.AdmittedUntilFull | internal/daemon/faults.go:121-126 | never more keys than the limit, and a key that was turned away found the table full |
| Faults.CountsAndMissedAddUp | internal/daemon/faults.go:111-140 | the counts of the tracked faults and the missed calls add up to all calls with a key |
| Faults.Recording | internal/daemon/faults.go:127-160 | one call changes the entry of its key to what all calls of that key make of it |
| Faults.BeforeIsAnOrder | internal/daemon/faults.go:191-200 | the ranking is a strict total order on faults with different texts |
| Faults.SortFaults | internal/daemon/faults.go:190-200 | the same faults, ranked |
| Faults.BurstFaults | internal/daemon/faults.go:181-189 | exactly the tracked faults that burst at least once |
| Modes.MarkValue | internal/model/model.go:921-928 | the base mark is always a positive 32-bit number |
| Modes.MarksAreDistinct | internal/model/model.go:919-949 | the base mark is the setting or 480, the three marks never coincide, and the derived ones are positive exactly when the base is at most 2^31-3 |
| Capture.Dedupe | internal/fw/fw.go:149-161 | keeps each trimmed text that is not empty, once, where it comes first |
| Capture.DedupedMembers | internal/fw/fw.go:149-161 | a text is kept exactly when it is not empty and one of the entries is it once trimmed; no text is kept twice |
| Capture.SparedIsBypass | internal/fw/fw.go:50-78 | a packet's destination is spared exactly when one of the texts of the bypass list contains it |
| Capture.SparedSays | internal/fw/fw.go:50-78 | which destinations are spared: the eleven private networks, the device's own and the excluded ones |
| Capture.IntendedComesOut | internal/model/model.go:76-134 | what the modes say, packet by packet: TCP, UDP, QUIC and name lookups of clients and of the router, in each of the four modes |
| Capture.RouterEffectIsIntended | internal/fw/nft.go:248-290 | the two chains for the router's own traffic do together what the modes say about such a packet |
| Capture.OnlyQUICRefuses | internal/fw/nft.go:211-219 | a packet is refused by the chain against QUIC alone |
| Nft.InterfaceGuard | internal/fw/nft.go:294-301 | lets pass what did not arrive on a client-facing device |
| Nft.ScopeGuards | internal/fw/nft.go:294-306 | ends a chain for exactly the packets that are out of scope, of an excluded client or bound for a bypassed network |
| Nft.OutputGuards | internal/fw/nft.go:252-262 | ends a chain for the core's own packets and for bypassed networks |
| Nft.NATRules | internal/fw/nft.go:137-148 | what the nat chain does to every packet: DNS to the resolver's port, other TCP to the core's |
| Nft.DNSOnlyRules | internal/fw/nft.go:155-163 | what the DNS chain of TUN mode does to every packet |
| Nft.UDPMarkRules | internal/fw/nft.go:170-184 | what the marking chain does to every packet: UDP is marked, hijacked DNS is not |
| Nft.QUICRules | internal/fw/nft.go:211-219 | what the chain against QUIC does to every packet |
| Nft.TProxyRules | internal/fw/nft.go:221-241 | what the tproxy chain does to every packet, one of a transparent socket only being marked |
| Nft.OutputNATRules | internal/fw/nft.go:250-268 | what the router's nat chain does to every packet |
| Nft.OutputMarkRules | internal/fw/nft.go:270-290 | what the router's marking chain does to every packet |
| Nft.Writer.WriteNATChain | internal/fw/nft.go:137-148 | one more chain on the prerouting hook that plays the nat role for every packet |
| Nft.Writer.WriteUDPMarkChain | internal/fw/nft.go:170-184 | one more chain that plays the marking role |
| Nft.Writer.WriteTProxyChain | internal/fw/nft.go:221-241 | one more chain that plays the tproxy role |
| Nft.Writer.WriteQUICChain | internal/fw/nft.go:211-219 | one more chain on the forward hook that plays the role against QUIC |
| Nft.Writer.WriteOutputNATChain | internal/fw/nft.go:248-268 | one more chain on the output hook that plays the router's nat role |
| Nft.Writer.WriteOutputMarkChain | internal/fw/nft.go:268-290 | one more chain on the output hook that plays the router's marking role |
| Nft.WriteOutputChains | internal/fw/nft.go:248-290 | the chains for the router's own traffic that the mode calls for |
| Nft.Ruleset | internal/fw/nft.go:89-135 | a table whose sets are the plan's and whose chains play exactly the roles the plan calls for |
| Nft.NftMeetsIntent | internal/fw/nft.go:89-306 | every packet that passes the table comes out as the modes say, except that one a transparent socket owns is only marked |
| NftBackend.Apply | internal/fw/nft.go:19-58 | on success every packet is treated as intended; on failure the table is the old one or gone |
| NftBackend.Revert | internal/fw/nft.go:60-69 | no table and no tproxy route |
| Ipt.ReplayJoins | internal/fw/ipt.go:22-72 | running commands in two parts is running them all |
| IptCapture.ClientChainPlays | internal/fw/ipt.go:77-179 | what each chain for clients does to every packet |
| IptCapture.RouterChainPlays | internal/fw/ipt.go:183-239 | what each chain for the router's own traffic does to every packet |
| IptCapture.InstallAllResult | internal/fw/ipt.go:22-72 | after all commands of a plan every chain is there with its rules, every hook has its jumps on top, and nothing else changed |
| IptCapture.RolesFitTogether | internal/fw/ipt.go:36-71 | no two chains of a plan share a name or a hook, so no command is refused |
| IptCapture.IptMeetsIntent | internal/fw/ipt.go:22-279 | every packet that passes a device on which a plan was installed comes out as the modes say |
| IptCapture.DialectsAgree | internal/fw/ipt.go:22-279 | the two dialects treat a packet alike if and only if no transparent socket owns it |
| IptCapture.BothComeOut | internal/fw/nft.go:89-306 | how every packet comes out of either dialect, mode by mode and port by port, except that nftables only marks what a transparent socket owns |
| IptRevert.FindRuleNumber | internal/fw/ipt.go:322-335 | the number on the first line that shows the chain behind a number |
| IptRevert.ListingFindsFirstJump | internal/fw/ipt.go:310-335 | read off a listing, that is the place of the first jump to the chain, whatever else is listed |
| IptRevert.DeleteEachResult | internal/fw/ipt.go:290-297 | the bounded loops remove all of the daemon's jumps from a hook if and only if there are at most eight to each chain |
| IptRevert.RevertRestores | internal/fw/ipt.go:281-305 | reverting leaves exactly the device's own rules, in order, if and only if no hook has more than eight jumps to one chain |
| IptRevert.AnyPrefixIsReverted | internal/fw/ipt.go:22-72 | with at most eight client-facing devices, whatever command an installation stopped at, reverting restores the device's rules |
| IptRevert.RevertedExactlyUpToBound | internal/fw/ipt.go:286-297 | a complete installation is undone if and only if there are at most eight devices or nothing was installed |
| IptRevert.ApplyingTwice | internal/fw/ipt.go:22-25 | applying a plan again gives what applying it once gives |
| IptRevert.ApplyingAgainIsRefused | internal/fw/ipt.go:243-246 | with more devices the first command of the next installation cannot be carried out |
| Deletion.DeleteUpToResult | internal/fw/ipt.go:290-297 | deleting the first match up to n times removes all matches if and only if there are at most n |
| Deletion.CutAtFirst | internal/fw/ipt.go:310-320 | cutting out the element with the first match's number is taking out the first match |
| IptBackend.NewCaptureChain | internal/fw/ipt.go:243-260 | a beginning of the commands that create a chain with its guards, all of them on success |
| IptBackend.Hook | internal/fw/ipt.go:264-279 | a beginning of the jumps, one per client-facing device or one in all, every one on success |
| IptBackend.ApplyNAT | internal/fw/ipt.go:90-110 | a beginning of the nat chain's commands, all of them on success |
| IptBackend.ApplyDNSOnly | internal/fw/ipt.go:114-127 | a beginning of the DNS chain's commands, all of them on success |
| IptBackend.ApplyUDPMark | internal/fw/ipt.go:131-152 | a beginning of the marking chain's commands, all of them on success |
| IptBackend.ApplyTProxy | internal/fw/ipt.go:155-179 | a beginning of the tproxy chain's commands, all of them on success |
| IptBackend.ApplyQUICBlock | internal/fw/ipt.go:77-87 | a beginning of the commands of the chain against QUIC, all of them on success |
| IptBackend.ApplyOutput | internal/fw/ipt.go:183-239 | a beginning of the commands of the router's chains, all of them on success |
| IptBackend.AddTProxyRouting | internal/fw/nft.go:310-322 | exactly one rule for the mark and exactly the local route; after a failure no route and at most a rule that the revert takes out |
| IptBackend.DelTProxyRouting | internal/fw/nft.go:324-331 | the table is empty and up to four rules at the preference are gone |
| IptBackend.RoutingSays | internal/fw/nft.go:308-331 | table 181 holds the one local route and the marked packets have a rule for it at preference 181; taken out, the table is empty and up to four rules are gone; nothing else changes |
| IptBackend.DeleteJump | internal/fw/ipt.go:310-320 | removes the first jump of a hook to a chain, and fails exactly when there is none |
| IptBackend.Revert | internal/fw/ipt.go:281-305 | the store after all the bounded delete loops, and no tproxy route |
| IptBackend.Apply | internal/fw/ipt.go:22-72 | however far it comes, the store is a beginning of the plan's commands on the reverted store or that reverted once more, so that with at most eight devices a revert gives the same after as before; on success every packet is treated as intended |
| IptBackend.LeavesAsBefore | internal/fw/ipt.go:22-72 | a later revert finds the device's own rules whatever an application left behind |
| Policy.InsertKeepsSorted | internal/mode/tun.go:225-259 | a new rule goes behind those of its own and smaller preferences |
| Tun.RemoveRoutes | internal/mode/tun.go:288-299 | the rule list after the bounded loops at the four preferences, and an empty table |
| Tun.InstallRoutes | internal/mode/tun.go:211-256 | whatever fails, what took effect is the beginning of a complete installation for some of the exempt networks; on success every command of one was issued and all but refused networks took effect |
| Tun.ExemptNetsSay | internal/mode/tun.go:228-239 | which networks are exempt: each of the device's own and each excluded one that is valid, once |
| Tun.RemovingRestores | internal/mode/tun.go:288-299 | the rules that are not the tunnel's remain, in order, if and only if no preference has more than 32 rules; other tables are untouched |
| Tun.AnyPrefixIsRemoved | internal/mode/tun.go:211-256 | with at most 32 exempt networks, wherever an installation stopped, removing restores the rules |
| Tun.RemovedExactlyUpToBound | internal/mode/tun.go:288-296 | a complete installation is undone if and only if there are at most 32 exempt networks |
| Tun.InstallingTwice | internal/mode/tun.go:215-216 | installing again gives what installing once gives |
| Tun.MainTableUntouched | internal/mode/tun.go:211-256 | installing and removing leave the main table alone if and only if the tunnel was not given that table or it was empty |
| TunDevice.Tunnel.Start | internal/mode/tun.go:89-129 | the process and the routes of a complete installation, or no process; then no rule either, whatever step failed, unless more than 32 exempt networks were added |
| TunDevice.Tunnel.Stop | internal/mode/tun.go:132-144 | no process, and the device's routing as it was without the tunnel |
| TunDevice.PartRestores | internal/mode/tun.go:119-123 | any part of an installation can be removed without a trace |
| NoLoop.InstallResult | internal/mode/tun.go:211-256 | the rule list after an installation, wherever rules of other programs stand: ours in their places among them, theirs in their order |
| NoLoop.SortedIsPlaced | internal/mode/tun.go:211-256 | every list kept by preference is one that the installation is described for |
| NoLoop.ReachesTunnel | internal/mode/tun.go:225-259 | exactly which packets are routed into the tunnel |
| NoLoop.CoreTrafficIsNotCaptured | internal/fw/nft.go:248-290 | a packet of the core is neither redirected nor marked nor refused, in both dialects and every mode |
| NoLoop.CoreLoopsExactlyWhen | internal/mode/tun.go:225-259 | a packet of the core goes into the tunnel if and only if the tunnel takes everything, no rule of others before it decides and the main table has no route for it |
| NoLoop.CoreCanLoop | internal/mode/tun.go:225-259 | such a packet: the defaults installed in TUN mode over an empty main table |
| NoLoop.MixedModeTunnelsUDP | internal/mode/tun.go:242-249 | in mixed mode a packet goes into the tunnel exactly when it is UDP meant for it: a client's that capture is for, or the router's own when that is proxied, but not the core's nor a redirected name lookup |
| NoLoop.MarkedGoesToCore | internal/fw/nft.go:308-322 | in TPROXY mode a packet marked for the core is delivered locally unless a rule of others decides before, and every other packet is routed as without the rule |
| Engine.Engine.TeardownLocked | internal/daemon/engine.go:878-910 | nothing is owned and nothing is in place, and every state on the way was safe |
| Engine.Engine.StartCoreLocked | internal/daemon/engine.go:549-651 | a started core, or a failure that left nothing leading into it; an unknown mode, and TPROXY on a device without it, are refused |
| Engine.WantedByMode | internal/daemon/engine.go:656-759 | what a connection of each mode and resolver setting has in place, one by one |
| Engine.TargetMeans | internal/daemon/engine.go:384-429 | which target a connect is for and when it is refused |
| Engine.Engine.StartTunLocked | internal/daemon/engine.go:660-691 | the tunnel's route, or a failure |
| Engine.Engine.CheckDataLocked | internal/daemon/engine.go:706-731 | data was seen to pass, or a failure, one certificate accepted at most |
| Engine.Engine.StartFirewallLocked | internal/daemon/engine.go:737-759 | the rules of the mode, every state on the way safe |
| Engine.Engine.StartLocked | internal/daemon/engine.go:548-772 | a complete connection, or a failure all of whose traces are owned; at most one build |
| Engine.Engine.AttemptLocked | internal/daemon/engine.go:430-474 | replaces the connection by the target, made with the settings just loaded, or fails and says whether a certificate was accepted; the stored selection is the target once it is saved |
| Engine.Engine.ConnectLockedOnce | internal/daemon/engine.go:384-488 | connected to the target or to the stored selection, with the settings of the last load; attempted a second time if and only if the first attempt accepted a certificate |
| Engine.Engine.FallBackLocked | internal/daemon/engine.go:344-376 | connected to the previous target with the settings of the last load, which is asked for exactly when there was one and it is another, or nothing in place |
| Engine.Engine.Connect | internal/daemon/engine.go:284-313 | the three ends of a connect, connected with the settings of the last load, at most two builds of either target, the previous target asked for exactly after a failed switch, and every state on the way safe |
| Engine.Engine.Disconnect | internal/daemon/engine.go:825-838 | nothing connected and nothing in place, the stored configuration with the enabled flag off if it could be saved |
| Engine.Engine.FactoryReset | internal/daemon/engine.go:853-870 | nothing connected, the factory configuration if it could be saved |
| Engine.Engine.ReapplyFirewall | internal/daemon/engine.go:915-936 | the same connection with its rules back, every state on the way safe |
| Engine.Engine.Reload | internal/daemon/engine.go:941-957 | an idle engine stays idle; a connected one ends with its target, made with the settings of the last load, or with nothing |
| Engine.Engine.Close | internal/daemon/engine.go:1176-1192 | nothing connected and nothing in place |
| Engine.FirewallStepsAreSafe | internal/daemon/engine.go:755-758 | rules may come and go in any order while a working core is owned and the marked packets have a route |
| Engine.Serve | internal/daemon/engine.go:284-1192 | over any run of operations every state is safe, and whenever nothing is connected nothing is in place |
| UciText.NextToken | internal/ucicfg/uci.go:371-399 | the next token and what is left of the line |
| UciText.QuotedReadsCut | internal/ucicfg/uci.go:371-403 | a quoted value is read back as its part before the first apostrophe |
| UciText.CutKeeps | internal/ucicfg/uci.go:401-403 | that part is the value exactly when it has no apostrophe |
| UciText.KeywordOf | internal/ucicfg/uci.go:351-357 | a line of a word and the rest is split into them |
| UciText.WordAndValue | internal/ucicfg/uci.go:365-403 | a word and a quoted value are read back as two tokens |
| UciText.LinesOfUnlines | internal/ucicfg/uci.go:94-97 | a text written line by line is read as those lines |
| UciLines.OptionLine | internal/ucicfg/uci.go:122-129 | an option line, its value bare or in either kind of quotes, sets that option of the last section whatever it was, keeps its first place, and says nothing before any section |
| UciLines.ListLine | internal/ucicfg/uci.go:130-142 | a list line appends its value to that list and nothing else |
| UciLines.ConfigLine | internal/ucicfg/uci.go:108-121 | a section begins under its name, or under its type and the next number |
| UciLines.PackageLine | internal/ucicfg/uci.go:104-107 | the package takes a name that is given |
| UciLines.OtherLine | internal/ucicfg/uci.go:99-103 | empty lines, comments and lines of any other word say nothing |
| UciLines.DoubleQuotedReads | internal/ucicfg/uci.go:377-391 | whatever a value holds comes back from double quotes with a backslash before each quote and backslash |
| Uci.Section.Set | internal/ucicfg/uci.go:52-60 | the option has the value, its place is where it was first set |
| Uci.Section.Add | internal/ucicfg/uci.go:138-141 | the list is one value longer, its place is where it was first seen |
| Uci.ParseLine | internal/ucicfg/uci.go:97-143 | one line changes the package as the line says, filling the last section in place |
| Uci.Parse | internal/ucicfg/uci.go:91-145 | the package that the lines of the text make one after the other |
| Uci.Emit | internal/ucicfg/uci.go:158-172 | one key's lines, unless it was written before |
| Uci.Sort | internal/ucicfg/uci.go:176-189 | the keys of a set in order |
| Uci.WriteSection | internal/ucicfg/uci.go:151-193 | the section's lines: its head, the recorded keys, the others sorted |
| Uci.Print | internal/ucicfg/uci.go:148-196 | the lines of the package |
| UciModel.OptionStep | internal/ucicfg/uci.go:122-129 | reading a printed option sets it |
| UciModel.ItemStep | internal/ucicfg/uci.go:130-142 | reading a printed list value appends it |
| UciModel.AnonHeadStep | internal/ucicfg/uci.go:108-121 | reading the head of an anonymous section numbers it |
| UciModel.WrittenIsAll | internal/ucicfg/uci.go:157-192 | every key is written, once |
| UciModel.SectionRead | internal/ucicfg/uci.go:108-142 | reading a printed section gives it back with its name and values cut at apostrophes, numbered when no name is left |
| UciModel.WrittenIsReadBack | internal/ucicfg/uci.go:91-196 | reading what was printed gives every section and key in the order written, every value and name cut at its first apostrophe |
| UciModel.RoundTrip | internal/ucicfg/uci.go:91-196 | a package as the parser leaves it comes back if and only if no value or name holds an apostrophe |
| UciModel.ReadBackIsStable | internal/ucicfg/uci.go:91-196 | what was read back once comes back unchanged from then on |
| UciModel.ParsedIsOneLine | internal/ucicfg/uci.go:91-145 | whatever the text, every section has a name and no name or value holds a newline |
| UciModel.TextIsStable | internal/ucicfg/uci.go:148-196 | without apostrophes printing what was read gives the same text |
| Dns.RememberedIffFaithful | internal/mode/dns.go:262-319 | the state file puts the option back as it was if and only if it was unset, or has no outer white space and no newline |
| Dns.RestoredExactlyWhen | internal/mode/dns.go:262-533 | undoing a complete edit restores the configuration if and only if the core was no server of the operator's and the option is shown as it is |
| Dns.EditingTwiceForgets | internal/mode/dns.go:263-270 | editing over an edit that was not undone loses the operator's option |
| Dns.EditsAreRecoverable | internal/mode/dns.go:273-280 | every edit behind the state file, of an apply or a revert, leaves enough on record |
| Dns.RecordingIsRecoverable | internal/mode/dns.go:263-271 | recording the option anew leaves the operator's configuration on record with the option as it stands, which is what was on record if nothing was edited |
| Dns.PutBackIsTheOriginal | internal/mode/dns.go:507-523 | from any state behind the state file the revert's edits give the configuration on record |
| Dns.AppliedSteers | internal/mode/dns.go:273-280 | the edit in full: the operator's servers with the core's behind them, the option at 1 |
| Dns.SnippetSays | internal/mode/dns.go:203-241 | the lines of the snippet: a heading, no servers from resolv.conf, and the core's resolver |
| Dns.DNS.ApplyUCI | internal/mode/dns.go:262-290 | on success the core's resolver is the last of the committed servers and the option is 1, nothing left staged; otherwise the files as they were or put back, also over an edit that was not undone, and recoverable wherever it is cut short |
| Dns.DNS.ApplyConfDir | internal/mode/dns.go:203-241 | the snippet in place, nothing else touched |
| Dns.DNS.Apply | internal/mode/dns.go:157-200 | steered on success, the core's resolver added and the option 1, the configuration as it was or put back on failure, recoverable wherever the daemon is killed; what is put back changes only when an edit is recorded over one that was not undone |
| Dns.DNS.RevertUCI | internal/mode/dns.go:507-533 | the configuration on record and no state file, recoverable wherever it is cut short |
| Dns.DNS.Revert | internal/mode/dns.go:473-502 | every file as it was before, recoverable wherever it is cut short |
| Dns.Live | internal/mode/dns.go:157-533 | over any sequence of applies, reverts and restarts, killed anywhere, a revert that ends leaves the operator's files, or, after an edit over one that was not undone, those with the option left at 1 |
| Proc.RunKeepsInv | internal/proc/proc.go:68-315 | what holds after every interleaving of caller, supervisors and children |
| Proc.AtMostOneChild | internal/proc/proc.go:68-211 | at most one child is alive in every run in which no Stop gave up waiting |
| Proc.OneChildExactlyWhen | internal/proc/proc.go:68-315 | once nothing is running, every continuation without another Stop that gives up has at most one living child if and only if every supervisor has finished |
| Proc.NoLivingChildIsNotEnough | internal/proc/proc.go:179-184 | a run after which no child is alive and the one supervisor left has decided to end, and yet two children can follow: it still has to say that nothing is running |
| Proc.TwoChildrenAfterGivingUp | internal/proc/proc.go:299-315 | a Stop that gave up can be followed by a Start that adds a second child |
| Proc.StoppedForGood | internal/proc/proc.go:277-315 | a Stop that returns because the supervisor ended, or at once because nothing is running, leaves no child, and none comes up before the next Start |
| Proc.StopCanMeetARestart | internal/proc/proc.go:188-194 | the timer of a back-off can start a child while a Stop is waiting |
| Proc.CancelledComesToAnEnd | internal/proc/proc.go:115-200 | a cancelled supervisor starts nothing more and every step brings it nearer its end |
| Proc.DeathsAreCountedOnce | internal/proc/proc.go:166-178 | every child started is pending, counted as a failure, or ended while stopping |
| Proc.StoppingIsNoFailure | internal/proc/proc.go:168-178 | from a Stop to the next Start no death counts |
| Proc.StartBrings | internal/proc/proc.go:68-112 | a Start brings a child and says that it is running |
| Proc.StartFails | internal/proc/proc.go:139-147 | one whose child cannot be started leaves nothing running |
| Proc.CrashIsMadeGood | internal/proc/proc.go:160-200 | a child that died by itself is counted and replaced after the back-off |
| Proc.StopEnds | internal/proc/proc.go:277-315 | a Stop that is obeyed returns when the supervisor has ended, nothing running and no failure counted |
| Proc.MiscountExactlyWhen | internal/proc/proc.go:95-178 | once nothing is running, a death that a Stop asked for can still be counted as a failure, without another Stop giving up, if and only if a cancelled supervisor has not taken note of its child's death |
| ProcTail.Output.RecordTail | internal/proc/proc.go:231-245 | the tail holds the last thirty lines that are not white space |
| ProcTail.Output.RecentOutput | internal/proc/proc.go:249-274 | those lines oldest first, the last n of them if limited |
| Rings.Written | internal/daemon/logring.go:288-293 | writing the next slot keeps the ring the newest values in order |
| Rings.Renewed | internal/daemon/logring.go:221-230 | the slot before the next holds the newest value, and changing it changes that one |
| Rings.UseIsWhatIsKept | internal/daemon/logring.go:420-435 | as many slots are in use as values are kept |
| LogRing.RunsEncodeFailures | internal/daemon/logring.go:171-218 | the runs written out are the failures one by one, and neighbouring runs differ |
| LogRing.RunOfIdentical | internal/daemon/logring.go:177-193 | k equal failures are one run of k |
| LogRing.IdenticalFailures | internal/daemon/logring.go:135-165 | k equal failures in a row write one headline and one line for every ten |
| LogRing.NewestRun | internal/daemon/logring.go:177-218 | what the newest run says after one more failure, which continues a run of its kind or begins one |
| LogRing.MatchingMeans | internal/daemon/logring.go:335-371 | which lines a query finds, one for warnings finding errors too |
| LogRing.Log.constructor | internal/daemon/logring.go:49-60 | an empty log of the size and an empty journal |
| LogRing.Log.Emit | internal/daemon/logring.go:279-293 | one more line, the ring holding the newest |
| LogRing.Log.NewestError | internal/daemon/logring.go:221-230 | the slot of the newest run, if there is one |
| LogRing.Log.FileError | internal/daemon/logring.go:171-218 | the journal of one more failure, and how often it came in a row |
| LogRing.Log.Fail | internal/daemon/logring.go:135-165 | the journal of one more failure and the lines it writes |
| LogRing.Log.Entries | internal/daemon/logring.go:335-371 | the last matching ones among the lines the ring still holds |
| LogRing.Log.Errors | internal/daemon/logring.go:374-396 | the last hundred runs, the last ones of them if limited |
| LogRing.Log.ClearLastError | internal/daemon/logring.go:411-415 | no banner, the journal as it was |
| LogRing.Log.ClearErrors | internal/daemon/logring.go:420-435 | an empty journal, and how many entries it had |
| LogRing.Log.Clear | internal/daemon/logring.go:444-459 | both rings empty, and how many lines there were |
| Merge.MergeSubscription | internal/model/model.go:1137-1172 | the profiles from elsewhere in order, then every listed server with what it keeps of its match |
| Merge.MergedMeans | internal/model/model.go:1149-1170 | each entry has the listing's fields, its match's certificate where the listing has none, and its match's id or a new one |
| Merge.GreedyIsProper | internal/model/model.go:1148-1165 | equal servers are matched, no stored one twice |
| Merge.KeepsTheMost | internal/model/model.go:1148-1165 | of every identity as many ids are kept as the smaller of the stored and the listed count, which no other matching exceeds |
| Merge.IDsStayUnique | internal/model/model.go:1137-1172 | profiles from elsewhere are untouched and in order, and no two profiles share an id |
| Merge.MergingAgain | internal/model/model.go:1137-1172 | merging the same listing again changes nothing |
| Merge.PruneMembers | internal/model/model.go:1176-1191 | every group with the members that name a profile, in order |
| Merge.PrunedJoins | internal/model/model.go:1176-1191 | members are kept in their order, so that the first that is still there comes first |
| Merge.MembersAreKept | internal/api/server.go:877-891 | after a refresh a group has lost exactly the members whose server found no match, and none that is listed as often as it is stored |
| HevKeys.BoundaryMatchIsSeen | internal/mode/hevidle.go:117-130 | the overlap is enough for every name that lies across a boundary |
| HevKeys.HevKeysIn | internal/mode/hevidle.go:100-140 | the answer of a search of the whole stream, however it is split |
| HevKeys.SplitContainsSingle | internal/mode/hevidle.go:118-125 | a stream with the split spelling has the single one as well |
| TimeSync.AgreedTime | internal/daemon/timesync.go:228-245 | the earliest answer that another one backs within ten seconds, or none if none is backed, whatever the order |
| TimeSync.NetworkTime | internal/daemon/timesync.go:202-220 | a time if and only if two of all hosts would agree, with no more hosts asked than needed |
| TimeSync.OneWrongHostIsNotBelieved | internal/daemon/timesync.go:222-245 | one wrong answer among others that agree cannot move the time by more than twice the tolerance |
| Routing.TrimAll | internal/xray/config.go:769-783 | the trimmed entries that are not empty |
| Routing.DomainMatchers | internal/xray/config.go:1319-1333 | every entry as a matcher with a prefix |
| Routing.MatcherMeans | internal/xray/config.go:1310-1333 | the core reads the matcher as the name that was meant, not as a substring |
| Routing.BuildUserRules | internal/xray/config.go:705-745 | the enabled rules translated in order, or a failure exactly when one of them is not valid |
| Routing.LocalResolvers | internal/xray/config.go:1291-1308 | the first two usable resolvers |
| Routing.ResolversInOrder | internal/xray/config.go:1291-1308 | the first two entries that name an IPv4 address that is not loopback, in their order |
| Routing.FirstUsableMeans | internal/xray/config.go:1291-1308 | at most two resolvers, none empty, none of them the device itself |
| Routing.BuildRouting | internal/xray/config.go:644-696 | the opening rules, the operator's, and the catch-all of a group |
| Routing.TranslationKeepsMeaning | internal/xray/config.go:718-727 | a translated rule matches what the entry means, vacant port fields taken as not filled in |
| Routing.VacantPortsWiden | internal/xray/config.go:718-727 | the core and the operator differ about a valid rule on exactly the connections it matches but for a vacant port field |
| Routing.VacantPortCapturesAll | internal/model/rule.go:93-96 | a rule with a port of white space is valid and matches every connection |
| Routing.RoutesAsPromised | internal/xray/config.go:644-696 | the generated rules route every connection as the settings read directly, vacant port fields taken as not filled in: control and resolver inbounds, local networks, the first enabled rule that matches, the proxy; this is the list as it stands exactly when the connection is decided ahead of it or does not stray |
| Routing.AheadOfTheList | internal/xray/config.go:644-672 | what is decided ahead of the operator's rules and where it goes: the control interface, name lookups, and the private, excluded and resolver networks |
| Routing.FirstRuleDecides | internal/xray/config.go:705-745 | otherwise the first rule that applies sends a connection past the tunnel, nowhere, or into the tunnel by its outbound or the balancer |
| Routing.NoRuleMeansProxy | internal/xray/config.go:684-698 | and with none the tunnel takes it |
| Routing.StraysExactlyWhen | internal/xray/config.go:718-727 | what leaving out the vacant port fields changes: connections whose first match has one and sends elsewhere than what follows it |
| Routing.GroupDecidesEverything | internal/xray/config.go:686-696 | with a group no connection falls through to one member |
| Routing.DisabledRulesAreInert | internal/xray/config.go:709-713 | turning a rule off is taking it out |
| CoreConfig.SniffWanted | internal/xray/config.go:1170-1186 | sniffing is on when asked for, or unless it is off when an enabled rule names a domain |
| CoreConfig.BypassedDomains | internal/xray/config.go:751-767 | the matchers of the enabled direct rules that hold for every client, each once |
| CoreConfig.NameServers | internal/xray/config.go:556-572 | the device's own resolvers for the bypassed names, then the one that was set |
| CoreConfig.BuildGroupOutbounds | internal/xray/config.go:787-812 | an outbound for every member, or a failure, and the balancer over them |
| CoreConfig.MembersInOrder | internal/xray/config.go:790-800 | a group is built exactly when every member can be dialled, one tagged outbound for each, in order |
| CoreConfig.ApplyKeepAlive | internal/xray/keepalive.go:67-91 | probes and pings on the outbounds that carry the tunnel over TCP, the others as they were |
| CoreConfig.Build | internal/xray/config.go:423-700 | the whole configuration, or a failure exactly when the target, a server or a rule is refused |
| CoreConfig.OutboundsMean | internal/xray/config.go:576-640 | the outbounds by tag: those of the tunnel first, then the direct one, the one that drops, the one for names |
| CoreConfig.EveryConnectionIsMarked | internal/xray/config.go:612-640 | every connection the core opens carries the mark that the capture rules let pass |
| CoreConfig.TagsNameOneOutbound | internal/xray/config.go:787-812 | no two outbounds share a tag, and the balancer's prefix selects exactly the members |
| CoreConfig.NothingDangles | internal/xray/config.go:640-698 | every rule leads to an outbound, an inbound or a balancer that is there, and what no rule decides goes to the tunnel |
| CoreBuilt.InboundsSay | internal/xray/config.go:466-555 | every inbound by tag with its address, port, protocol and options, when it is there, and that no tag occurs twice |
| CoreBuilt.FixedSay | internal/xray/config.go:606-640 | the outbounds behind the tunnel's: the one that goes past it, the one that drops, the one for names, with their protocols |
| CoreBuilt.CarrierSays | internal/xray/config.go:845-946 | the outbound of each server: tag, protocol, settings, mark, keepalive and multiplexing |
| CoreBuilt.LimitsSay | internal/xray/config.go:157-217 | log level, access log and idle limit |
| CoreBuilt.BalancerSays | internal/xray/config.go:574-606 | the balancer and the observatory for each strategy |
| CoreBuilt.BuiltExactlyWhen | internal/xray/config.go:423-700 | a configuration is built if and only if target, group, servers and enabled rules are valid and every server can be dialled |
| CoreBuilt.NamesSay | internal/xray/config.go:543-572 | which resolver is asked for which names, and for which kinds of addresses |
| CoreBuilt.BypassHas | internal/xray/config.go:747-767 | which names are taken off the tunnel: those of the enabled direct rules that ask nothing of the client |
| CoreBuilt.ConnectionsGoAsSaid | internal/xray/config.go:644-745 | where a built configuration sends a connection: as the first of the stored rules that applies says, by the text of its action, and into the tunnel when none does |
| CoreBuilt.AheadGoesAsSaid | internal/xray/config.go:644-672 | and what is decided ahead of the rules |
| EndToEnd.CapturedIsServed | internal/daemon/engine.go:804-822 | what the capture rules of either dialect take over finds the core's inbound listening on that port; its socket is transparent just for what is tproxied, except that in TPROXY mode name lookups and the router's own TCP meet the other kind |
| EndToEnd.NamesMeetAPlainSocket | internal/xray/config.go:504-555 | such a lookup: in TPROXY mode it is tproxied to an inbound that is not transparent |
| EndToEnd.ResolverIsServed | internal/mode/dns.go:305-308 | the address dnsmasq is pointed at is where the core's inbound for names listens |
| EndToEnd.CoreIsLeftAlone | internal/daemon/engine.go:804-822 | what the core sends over any of its outbounds passes the capture rules made from the same settings |
| Store.NumberComesBack | internal/ucicfg/store.go:489-498 | every number that is written is read back |
| Store.FlagComesBack | internal/ucicfg/store.go:471-487 | every flag that is written is read back, an unset one is its default |
| Store.SettingsComeBack | internal/ucicfg/store.go:97-172 | settings come back from the options they are saved as if and only if normalizing changes nothing and the release source is set |
| Store.LoadedStays | internal/ucicfg/store.go:97-172 | settings loaded from any options come back unchanged, the old UDP flag honoured once |
| Store.CanonicalMeans | internal/model/model.go:846-905 | which settings saving and loading leaves alone, option by option |
| Store.NormalGroupMeans | internal/model/model.go:548-567 | what the gaps of a group are filled in with |
| StoreValues.ChosenSettings | internal/ucicfg/store.go:97-172 | the four settings that are one of a few words load as the file says, anything else as the default, and an old flag for UDP turns redirect into mixed |
| StoreValues.PlainSettings | internal/ucicfg/store.go:97-172 | the other texts load as the file says or as their defaults, and three may be empty |
| StoreValues.ProgramSettings | internal/ucicfg/store.go:97-172 | likewise programs, run directory and mark |
| StoreValues.TunnelSettings | internal/ucicfg/store.go:97-172 | likewise the tunnel's name and addresses |
| StoreValues.NumberSettings | internal/ucicfg/store.go:97-172 | every number loads as the file says, zero and what is no number as the default; keepalives are kept within ten and six hundred, or off |
| StoreValues.SwitchSettings | internal/ucicfg/store.go:97-172 | every switch loads as the file says or as its default, and both lists as they are |
| StoreValues.AllIsLoaded | internal/ucicfg/store.go:97-172 | no setting is missing of what is loaded |
| StoreValues.ServerFields | internal/ucicfg/store.go:175-213 | a server's id, name, protocol, address and numbers as the file says |
| StoreValues.CredentialFields | internal/ucicfg/store.go:175-213 | and what it is told about who is calling |
| StoreValues.SecurityFields | internal/ucicfg/store.go:175-213 | and how it proves itself |
| StoreValues.TransportFields | internal/ucicfg/store.go:175-213 | and its transport |
| StoreValues.DisguiseFields | internal/ucicfg/store.go:175-213 | and what older transports are told besides |
| StoreValues.SwitchFields | internal/ucicfg/store.go:175-213 | and its switches |
| StoreValues.GroupFields | internal/ucicfg/store.go:214-228 | a group as the file says, its gaps filled in |
| StoreValues.RuleFields | internal/ucicfg/store.go:229-245 | a rule as the file says, enabled and direct unless it says otherwise |
| StoreValues.RuleMatchers | internal/ucicfg/store.go:229-245 | and what it matches |
| StoreValues.SubscriptionFields | internal/ucicfg/store.go:246-256 | a subscription as the file says |
| StoreValues.SettingsOfFile | internal/ucicfg/store.go:90-100 | the settings are those of the first section called main, and all defaults without one |
| StoreValues.EverySectionIsLoaded | internal/ucicfg/store.go:175-256 | every section of one of the four types is loaded as an entry of that kind |
| Store.ProfileComesBack | internal/ucicfg/store.go:317-371 | a server comes back from its options if and only if its protocol, transport and security are said |
| Store.GroupComesBack | internal/ucicfg/store.go:373-388 | a group comes back from its options with its gaps filled in |
| Store.RuleComesBack | internal/ucicfg/store.go:390-421 | a rule comes back from its options if and only if it has an action |
| Store.SubscriptionComesBack | internal/ucicfg/store.go:423-436 | a subscription comes back from its options |
| Store.ConfigurationComesBack | internal/ucicfg/store.go:97-439 | a configuration comes back from its sections before they are printed, every list in order, if and only if nothing in it is left to a default |
| Store.LoadedConfigurationStays | internal/ucicfg/store.go:97-439 | what is loaded from any sections is saved to sections and loaded from them without a change |
| StoreNames.NamesAgree | internal/ucicfg/store.go:97-435 | every option and list is read under the name it is written under |
| StoreNames.NamesDiffer | internal/ucicfg/store.go:272-435 | within a kind of section no two options or lists share a name |
| StoreNames.NamesAreWords | internal/ucicfg/store.go:272-435 | every name is a word that the reader takes as one token |
| StoreText.SectionComesBack | internal/ucicfg/store.go:97-435 | a section printed under its names, in whatever order, and read by them is the section with every value cut at its first apostrophe |
| StoreText.SavedFits | internal/ucicfg/store.go:265-439 | every saved section holds options of its kind only and can be printed, and what no text of a configuration holds is in none of its sections |
| StoreFile.KindsOfPackage | internal/ucicfg/store.go:97-256 | the settings are the first section called main, the others are told by their type, in file order |
| StoreFile.SavedIsRead | internal/ucicfg/store.go:90-439 | what is loaded from a saved file is what the sections say with every value and id cut at its first apostrophe |
| StoreFile.LoadedIsGood | internal/ucicfg/store.go:90-256 | from any file: an id for every entry, nothing left to a default, no newline in any text |
| StoreFile.ConfigurationFileComesBack | internal/ucicfg/store.go:90-439 | a configuration saved to its file comes back if and only if nothing in it is left to a default and no text holds an apostrophe or a newline |
| StoreFile.SavingDropsApostrophes | internal/ucicfg/store.go:90-439 | after one save and load no text holds an apostrophe |
| StoreFile.SavingTwiceIsSavingOnce | internal/ucicfg/store.go:90-439 | starting from any file, a save and load keeps what was loaded if and only if no apostrophe is in it, and a second one changes nothing |
| StoreFile.FileHoldsWhatMemoryHolds | internal/ucicfg/store.go:265-439 | with ids given to what had none and groups completed, memory and file agree after a save if and only if settings, servers and rules leave nothing to a default and no text holds an apostrophe or a newline |
| Fingerprint.OnlyTheseSettingsReach | internal/xray/config.go:423-700 | the settings that can reach the core's configuration: all others, whatever they are, make no difference |
| Fingerprint.BlankedSettingsReachNothing | internal/daemon/fingerprint.go:47-64 | the five settings that are blanked, whatever they are, make no difference to the core's configuration |
| Fingerprint.BlankedIsAgreed | internal/daemon/fingerprint.go:54-64 | blanking them tells exactly whether all other settings agree |
| Fingerprint.SameMaterialSameBuild | internal/daemon/fingerprint.go:23-104 | equal material means that a connect builds the same configuration in every environment, as long as no id names a profile and a group |
| Fingerprint.SameMaterialBuildsExactlyWhen | internal/daemon/fingerprint.go:86-104 | with such an id, equal material builds the same exactly when the profile stops both builds or neither, or the build fails anyway |
| Fingerprint.SharedIdHidesAnEdit | internal/daemon/fingerprint.go:96-103 | an environment and two configurations of equal material for which a connect builds something else |
| Fingerprint.MaterialTellsEdits | internal/daemon/fingerprint.go:86-104 | the material stays the same if and only if the target does, and so do its group, the servers it concerns, the rules and every setting but the five |
| Fingerprint.OtherServersAreInvisible | internal/daemon/fingerprint.go:86-104 | deleting, adding or replacing a server the connection has nothing to do with leaves nothing to apply |
| Fingerprint.FirstIsFound | internal/ucicfg/store.go:65-72 | an id names the first server that has it |
| Fingerprint.MembersJoin | internal/ucicfg/store.go:51-62 | the members of a group are taken in its order, those that name no server left out |
| Fingerprint.SomeNoticedEditsReachNothing | internal/daemon/fingerprint.go:47-52 | a setting that cannot reach the core and is not blanked is noticed all the same |
| Fingerprint.ConnectingLeavesNothingToApply | internal/daemon/engine.go:458-474 | storing the target as the active one leaves nothing to apply |
| Fingerprint.Connection.Connected | internal/daemon/engine.go:455-459 | what is kept is the material of the configuration that was built |
| Fingerprint.Connection.ConfigChanged | internal/daemon/fingerprint.go:111-129 | nothing is pending exactly when nothing the connection has to do with was edited since the connect; then a connect would build the same configuration in every environment; what cannot be told counts as pending |

## Left out

- The text of the nftables script and of every command line: rulesets and commands are data here.
- Verdicts of the device's own firewall rules: they are passed over when a packet is followed, and only kept in place.
- `Installed` of both backends, the choice between them, conntrack and detection of the network layout.
- Restarting at boot, the retry schedule, status, statistics and the journal's part in a connect.
- `ClearStaleState` of the engine: runs begin on a device with nothing of an earlier run in place, or that was cleaned.
- Failures of a teardown: reverting firewall, resolver and tunnel always takes effect in the engine's model; how far it does is stated where they are modelled.
- The engine's view of the tunnel is coarser than `TunDevice`: a start that fails may leave the route behind there.
- Locks: an engine operation is one sequence of steps; the store may be edited by others between any two loads.
- The line length limit of the configuration reader (4 MiB) and its backend that calls the `uci` program.
- StoreValues.NumberSettings: a number beyond the width of the machine's integers, which the daemon takes for none, is read as it says.
- Unicode beyond white space: characters stand for bytes, and lower case is that of ASCII letters.
- StoreFile.ConfigurationFileComesBack: does not model the filling of records in place, nor the random id that a save gives to an entry without one, which is a parameter of StoreFile.FileHoldsWhatMemoryHolds; the order in which a section's options are printed is arbitrary.
- Fingerprint.SameMaterialSameBuild: the settings of a server's protocol and transport are an uninterpreted function of the server and of the core's path, which decides what that core supports; so are what makes a server or a probe address valid and the reading of the mark's text. The hash is taken to be injective.
- Routing.RoutesAsPromised: patterns, lists of names and addresses, networks and port specifications are uninterpreted predicates of their text, and a blank text is taken to be no network.
- Dns.DNS.Apply: writing the state file is one step, commands of a revert succeed unless the daemon is killed, the port of the core's resolver and dnsmasq's directory stay the same, an empty list of servers counts as none, and no other staged edits are pending.
- Engine.Engine.Connect: does not say what is filed in the log, nor that the selection is stored, which may fail without failing the connect.
- Proc.OneChildExactlyWhen: calls are made one at a time, as the engine makes them.
- Faults.FaultTally.Add: does not model the reduction of a line to its key, which is an input, nor how a burst is worded.
- The levels of process output, subscribers of the log and its copy in the system log.
- The parts of the core's configuration that never vary (services of its control interface, statistics, the sampling of probes), and its rendering as JSON.
- Share links, the subscription fetcher, the control API, the command line and the web interface.
