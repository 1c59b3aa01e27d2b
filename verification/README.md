# SSHCustom: a model of the packet filter program, the tunnel run and the byte streams

SSHCustom is an Android daemon that sends a phone's traffic through an SSH
connection. It redirects TCP with iptables rules, keeps one SSH client alive
behind local SOCKS and transparent listeners, and serves a small dashboard. This
project models the parts in which many small steps must add up to a promise, and
proves the promise over every input, run or interleaving.

`dafny verify dfyconfig.toml` checks everything.

## What is modelled

**The rule tables.** `Netfilter` gives each iptables command its effect and its
refusals: `-N` fails on an existing chain, `-X` on a chain that is not empty or
still referenced, `-D` takes out the first equal rule, `-A` and `-I` need their
chain and the target chain, and the kernel rejects port values and targets it does
not know. A fault oracle may fail any command of a run with any error text, so
"stops after a prefix" and "any subset of the commands fails" are special cases.
`Firewall` holds the programs of `Apply`, `Cleanup` and `net_clean.sh` as data;
`Iptables.Tables` issues the commands one by one, loop by loop, as the source does,
and every method is proved to run exactly its program. `Packets` walks the tables
for one packet. Everything a cleanup deletes or removes is its *footprint*; the rest
of the tables is *foreign*. A clean start (`Ownership.CleanStart`) is a store with
nothing of the footprint in it. The footprint holds a bare `FORWARD -j ACCEPT` and
the UDP 443/80 DROP and REJECT rules, because the code deletes such rules whoever
put them there. `PlainTerms` says all this once more in chain names and rules
written out: what each cleanup takes out, what a clean start is, what Apply installs.

Main results: one fault-free Cleanup undoes any disturbed Apply, rule for rule
and in order; over any history of disturbed calls it does so if and only if no
hook has more copies than Cleanup has deletions for it, and the script likewise
with its own number of deletions (`Agreement`); histories beyond that exist
(`Stacking`); Apply has a normal form, so re-applying never stacks; and the verdict
of every chain after Apply is given by a formula. For a disturbed Apply there are
more exact results, all in terms of which numbered commands were failed: when it
returns nil (`Disturbed`), what then or otherwise happens to each TCP packet
(`InForce`), when no trace is left (`NoTrace`), and when a cleanup with another
configuration undoes it (`ConfigChange`). They rest on `Idle`, which says what a run
does in which every command is refused or failed, and on `BestEffort`.

**The tunnel run.** `TunnelLoop` runs `tunnelLoop` over a script of rounds (route,
login, rule commands, health ticks, cancellation) on real rule tables. `Notify` and
`Streams` are transition systems with one step per lock region, channel operation
or atomic operation; `StateHub` has the methods behind `Notify`.

**Byte streams.** `Payload` and `RenderOrder` (template rendering in the random order of a Go map),
`Probe` (finding the SSH banner in chunks), `Pipe` (`writeAll`, `pipeBoth`), `Socks`
(server and client). Reads and writes are cut by adversarial schedules.

**Stores.** `ProfileIds` and `Profiles` (select, save, delete, fresh ids), `HostCache`
(bounded DNS cache against an unbounded expiring map).

## Where an obvious claim is false

- A failed Apply leaves `iptablesUp` false, so the teardown does not clean what was
  installed. `TunnelLoop.SessionRestores` says exactly when a session restores the
  tables, in terms of the commands that failed: unless it applied the rules, Apply
  returned an error (`Disturbed.NilExactly`), and one of the at most nine commands
  that a clean store takes was not failed (`NoTrace.ApplyLeavesNoTrace`).
  `TunnelLoop.BadPortStrandsRules` is such a session without any failed command: a
  configured port above 65535.
- The teardown cleans up with the configuration of the moment, which restores the
  tables exactly if the hooks that got in are covered by the current list and, with
  another prefix, no chain was made that it does not name
  (`ConfigChange.TeardownWithOtherConfig`, `TunnelLoop.SessionWithOtherConfig`). The
  same prefix and covered lists are enough, and needed if nothing failed in Apply
  (`ConfigChange.CoveredIsRestorable`).
- Apply drops errors that carry one of three texts. After a nil result the device's
  own packets are redirected exactly if neither the append of the REDIRECT rule nor
  the insertion of the OUTPUT hook was failed, unless the original chain redirects
  all such packets by itself (`InForce.NilMeansRedirected`; per packet
  `InForce.NilVerdict`). Those of hotspot clients are, exactly if neither the REDIRECT
  append of the other chain nor every hook for their interface was failed, with the
  same exception (`InForce.NilMeansCaught`). If all commands fail with dropped texts,
  the result is nil and nothing is there (`Reports.SilentFailure`).
- A series of disturbed Apply calls can pile hooks up deeper than one Cleanup digs
  (`Stacking.CleanupCanFallShort`, `Undo.CleanupRestoresExactly`).
- The QUIC rules are appended: they decide exactly where the original filter OUTPUT
  runs out, and an earlier verdict or RETURN stands (`MoreVerdicts.FilterOutputVerdict`).
  Where it is an ACCEPT, QUIC passes (`MoreVerdicts.QuicPasses`).
- The events handler sends its first snapshot before it subscribes. At rest a
  subscriber has the newest state exactly if the state changed after it registered,
  or had not changed between its first snapshot and its registration, or a setter
  was still to broadcast when it registered (`Notify.QuiescentSubscribers`;
  `Notify.FirstSnapshotGap` is a run that shows the gap).
- A stream may be counted on a client that does not carry it, exactly if a new client
  was stored between the two loads (`Streams.CountedWhereCarried`; an example is
  `Streams.CountedElsewhere`).
- Rendering can depend on the iteration order. In plain text, one placeholder nested
  in brackets does exactly if the text it makes inside them names another
  placeholder, and one whose value spells a placeholder does exactly if that is
  another one (`RenderOrder.NestedDependsOnOrder`,
  `RenderOrder.BracketValueDependsOnOrder`). The nine keys of a real endpoint meet both
  (`RenderOrder.NestedServerName`, `RenderOrder.BracketedHost`).
- Closing both connections does not end both pumps. Reads of a closed SSH channel
  return what is buffered and then wait for the peer, and writes wait for window.
  `Pipe.PumpsEnd` says exactly when a pump can go on, and that it ends within three
  steps of its own; `Pipe.LeftWaiting` and `Pipe.BothWait` show pumps that wait for ever
  for a silent peer.
- Without a banner in the probed bytes, SSH reads on behind them; a banner that
  straddles the last read is lost (`Probe.FallbackAligned` has the exact condition,
  `Probe.BannerLost` such a server).
- A save that creates a profile breaks the uniqueness of ids exactly if all 9999
  candidates and the clock's candidate are taken (`Profiles.SaveKeepsInv`,
  `ProfileIds.TakenId`; such a file exists for every new profile,
  `Profiles.SaveBreaksInv`).
- A select that misses clears every flag in memory (`Profiles.MissClearsFlags`).
- Eviction by key suffix hits hosts that hold a bar (`HostCache.KeyMatches`,
  `HostCache.BarredHostEvicted`).

## Model

| member | source | states |
|---|---|---|
| Iptables.Tables.Ipt | internal/iptables/iptables.go:120-126 | one command changes the tables as the kernel's rules say, or fails and changes nothing |
| Iptables.Tables.DetachHooks | internal/iptables/iptables.go:259-273 | the nested loops over chains and interfaces issue the hook deletions in order |
| Iptables.Tables.RemoveChains | internal/iptables/iptables.go:276-279 | flush, then remove, each chain |
| Iptables.Tables.DeleteUpTo | internal/iptables/iptables.go:344-348 | the bounded loop deletes copies until one deletion fails |
| Iptables.Tables.UnblockQUIC | internal/iptables/iptables.go:341-355 | four copies of each of the four UDP rules are tried |
| Iptables.Tables.CleanupRules | internal/iptables/iptables.go:248-282 | runs exactly the IPv4 cleanup program |
| Iptables.Tables.EnableIPv6 | internal/iptables/iptables.go:401-405 | runs exactly the IPv6 cleanup program |
| Iptables.Tables.Cleanup | internal/iptables/iptables.go:238-243 | runs exactly the cleanup program that the lemmas of Undo are about |
| Iptables.Tables.AddBypasses | internal/iptables/iptables.go:160-188 | appends the exempting rules and the redirect in order, skipping blank entries and non-positive ports |
| Iptables.Tables.HookIfaces | internal/iptables/iptables.go:200-205 | inserts one hook per nonblank interface |
| Iptables.Tables.SetupDNSForward | internal/iptables/iptables.go:299-321 | the DNS chain and its hook, or nothing for a non-positive port |
| Iptables.Tables.BlockQUIC | internal/iptables/iptables.go:326-339 | check, append REJECT, else check, append DROP, for both ports |
| Iptables.Tables.DisableIPv6 | internal/iptables/iptables.go:376-394 | the IPv6 chain and its two hooks, with DROP where REJECT is refused |
| Iptables.Tables.Apply | internal/iptables/iptables.go:131-235 | runs exactly the Apply program and returns the recorded errors without the dropped texts |
| Iptables.Tables.NetClean | src/module/scripts/net_clean.sh:29-83 | runs exactly the script's program |
| Footprints.WithinKeeps | internal/iptables/iptables.go:259-282 | no accepted command inside a footprint changes the foreign part of the tables or breaks the hook structure |
| Footprints.RunKeepsForeign | internal/iptables/iptables.go:143-208 | the same for every run, whatever fails in it |
| Footprints.RunCount | internal/iptables/iptables.go:192-205 | a run, whatever fails, leaves at most the copies it found plus those it can add |
| Cleaners.CleanerCount | internal/iptables/iptables.go:341-355 | a fault-free cleanup takes out exactly as many copies of a rule as it has deletions for |
| Cleaners.CleanerExact | internal/iptables/iptables.go:259-282 | a fault-free cleanup leaves exactly the foreign part iff no owned rule has more copies than it has deletions for |
| Additions.ApplyAdds | internal/iptables/iptables.go:192-207 | Apply adds no more copies of any hook than Cleanup deletes |
| Undo.ForeignRulesSurvive | internal/iptables/iptables.go:238-282 | through any history of disturbed calls foreign rules keep content and order |
| Undo.CleanupRestoresExactly | internal/iptables/iptables.go:238-282 | after any history from a clean start one fault-free Cleanup restores the store iff no hook is stacked deeper than it digs |
| Undo.PartialApplyBounded | internal/iptables/iptables.go:131-217 | one Apply, whatever fails, stacks nothing too deep |
| Undo.UndoPartialApply | internal/iptables/iptables.go:131-282 | undo from any partial state: every chain is exactly as before, foreign rules included |
| PlainTerms.CleanStartMeans | internal/iptables/iptables.go:105-114 | a clean start in names and rules written out: no jump without its chain, none of the seven chains of this and older versions, none of the rules that Cleanup deletes |
| PlainTerms.CleanupCounts | internal/iptables/iptables.go:248-282 | one fault-free Cleanup takes out of a built-in chain exactly the written-out number of copies of each rule |
| PlainTerms.OldInstallGone | internal/iptables/iptables.go:105-114 | a chain of any shipped name, older versions included, and one hook of any shape to it are gone after one fault-free Cleanup |
| PlainTerms.InstalledChains | internal/iptables/iptables.go:143-217 | the chains that an undisturbed Apply adds, by name |
| PlainTerms.InstalledPositions | internal/iptables/iptables.go:192-217 | where its hooks stand: DNS before TCP at the head of nat OUTPUT, the IPv6 hooks at the head, the QUIC rules at the end |
| PlainTerms.ScriptStartMeans | src/module/scripts/net_clean.sh:23-83 | a clean start for the script, in names and rules written out |
| PlainTerms.ScriptCounts | src/module/scripts/net_clean.sh:29-83 | one undisturbed run of the script takes out exactly the written-out number of copies of each rule |
| PlainTerms.ShippedScript | src/module/scripts/net_clean.sh:23-27 | its prefix and its six interface patterns |
| Stacking.HooksPileUp | internal/iptables/iptables.go:192-193 | n Apply calls in which only the hook insertion works add n hooks |
| Stacking.CleanupCanFallShort | internal/iptables/iptables.go:259-265 | from every clean start some series of disturbed Apply calls is not undone by one Cleanup |
| Installed.RunRedirect | internal/iptables/iptables.go:155-205 | the exact store and error list after the recorded commands, when none of them is failed |
| Installed.RunBestEffort | internal/iptables/iptables.go:206-215 | the exact store after the ignored commands of an undisturbed Apply |
| NormalForm.ApplyNormalForm | internal/iptables/iptables.go:131-217 | an undisturbed Apply from any store that is not stacked too deep gives one Apply on the foreign part |
| NormalForm.ApplyAfterHistory | internal/iptables/iptables.go:151-217 | so after any history it gives the one installed store |
| NormalForm.ReapplyAfterPartial | internal/iptables/iptables.go:151-217 | a disturbed Apply is repaired by the next one |
| NormalForm.ReapplyNeverStacks | internal/iptables/iptables.go:131-217 | any number of Apply calls with changing bypass lists ends like the last one alone, positions and duplicates included |
| Verdicts.ReservedIsPrivate | internal/iptables/iptables.go:91-101 | the nine CIDR matches are exactly the nine reserved ranges, by octets |
| Verdicts.RedirectChainVerdict | internal/iptables/iptables.go:160-188 | a redirect chain returns on TCP packets to a reserved or bypassed address, or to one of the four configured ports, and redirects the others to the port of the append |
| Verdicts.NatOutputVerdict | internal/iptables/iptables.go:136-193 | nat OUTPUT after Apply, in terms of the configured fields: redirect to the TCP port, or to 10810 where it is not positive, iff TCP, not root and not exempt; DNS to 127.0.0.1 at the forwarder port iff UDP 53, not root and that port is positive; else the original verdict; a port above 65535 counts as no rule |
| MoreVerdicts.PreroutingVerdict | internal/iptables/iptables.go:136-208 | nat PREROUTING after Apply: redirect to the TCP port, or to 10810 where it is not positive, iff hotspot is on, TCP, a listed pattern matches the interface and not exempt; else the original verdict |
| MoreVerdicts.HotspotOrderIndependent | internal/iptables/iptables.go:200-205 | order and repetition of the interface patterns do not matter |
| MoreVerdicts.FilterOutputVerdict | internal/iptables/iptables.go:323-339 | on UDP 443/80 the block rule decides exactly if the original filter OUTPUT runs out on the packet; everywhere else the original verdict stands |
| MoreVerdicts.QuicPasses | internal/iptables/iptables.go:323-339 | from some clean start the installed rules accept UDP 443 and 80 |
| MoreVerdicts.FilterForwardVerdict | internal/iptables/iptables.go:207-207 | FORWARD accepts everything with hotspot on and is as before otherwise |
| MoreVerdicts.IPv6Verdict | internal/iptables/iptables.go:376-394 | no IPv6 leaves or crosses the device except over loopback |
| Agreement.ScriptDeletesMore | src/module/scripts/net_clean.sh:29-83 | the script has at least as many deletions for every rule as Cleanup, if its interface list covers the configured one |
| Agreement.ScriptRestoresExactly | src/module/scripts/net_clean.sh:29-83 | after any history of disturbed calls the script restores the original store iff no hook is stacked deeper than it digs, and always where Cleanup does |
| Agreement.CleanupsAgree | src/module/scripts/net_clean.sh:29-83 | after any disturbed Apply the script and Cleanup restore the same, original store |
| Agreement.CleanupsIdle | src/module/scripts/net_clean.sh:101-104 | either cleanup, run where the other has been, changes nothing |
| Agreement.NetCleanAgrees | src/module/scripts/net_clean.sh:23-24 | the same for the script as shipped: prefix SSHC, interfaces drawn without repetition from its six |
| ConfigChange.TeardownWithOtherConfig | internal/iptables/iptables.go:248-282 | cleaning up with another configuration restores the store, whatever failed in Apply, iff with the same prefix every hook pattern that got in occurs in the current list at least as often, and with another prefix no chain was made that it does not name |
| ConfigChange.CoveredIsRestorable | internal/iptables/iptables.go:248-282 | the same prefix and covered hook patterns are enough for that, and needed if nothing failed in Apply |
| Disturbed.NilExactly | internal/iptables/iptables.go:155-234 | from a clean start Apply returns nil iff every failed recorded command failed with a dropped text, every rule that was not failed and has its chain is valid, and every hook that was not failed has its chain |
| Disturbed.RecordedLeave | internal/iptables/iptables.go:155-205 | the two chains and the two hook lists after the recorded commands, whatever failed |
| InForce.ApplyVerdict | internal/iptables/iptables.go:131-234 | after any Apply from a clean start, whatever failed and whatever it returned: the verdict of nat OUTPUT on every TCP packet |
| InForce.HotspotApplyVerdict | internal/iptables/iptables.go:131-234 | the same for nat PREROUTING |
| InForce.NilVerdict | internal/iptables/iptables.go:131-234 | after a nil result, whatever failed: a TCP packet at nat OUTPUT is redirected iff neither the REDIRECT append nor the hook insertion was failed and no exempting rule that got in matches it; else the original verdict |
| InForce.NilMeansRedirected | internal/iptables/iptables.go:155-234 | after a nil result every packet that is to be redirected is, iff those two commands were not failed or the original chain redirects them all |
| InForce.NilHotspotVerdict | internal/iptables/iptables.go:195-234 | after a nil result: a TCP packet at nat PREROUTING is redirected iff the REDIRECT append of that chain was not failed, nor every hook that matches its interface, and no exempting rule that got in matches it; else the original verdict |
| InForce.NilMeansCaught | internal/iptables/iptables.go:195-234 | so a packet of a hotspot client that is to be redirected is, iff those commands were not failed or the original chain redirects it |
| NoTrace.ApplyLeavesNoTrace | internal/iptables/iptables.go:131-234 | an Apply from a clean start leaves the tables as they were iff every command that a clean store takes was failed: both chain creations, the FORWARD rule, the DNS chain, the QUIC rules and the IPv6 chain |
| Reports.SuccessMeansRedirected | internal/iptables/iptables.go:219-234 | if no failure carried a dropped text, a nil result means that exactly the non-exempt TCP packets are redirected, whatever else failed |
| Reports.SilentFailure | internal/iptables/iptables.go:220-225 | if every command fails with a dropped text, whichever, the result is nil and nothing is installed |
| Reports.FaultFreeResult | internal/iptables/iptables.go:219-234 | without faults the result is nil iff no configured port is above 65535 |
| Reports.ErrorReported | internal/iptables/iptables.go:219-234 | Apply does not return nil if a recorded command, whichever, is failed with an error other than the three dropped ones |
| Notify.StepKeepsInv | cmd/sshcustomd/main.go:224-263 | every step of setters, subscribers and unsubscribers keeps the invariant |
| Notify.NoLostUpdate | cmd/sshcustomd/main.go:224-263 | in every reachable state an unread version is announced by a token, a taken token or a setter on its way |
| Notify.QuiescentSubscribers | cmd/sshcustomd/main.go:961-979 | at quiescence a subscriber has the newest state iff it changed after it registered, or not between first snapshot and registration, or a setter was about to broadcast then |
| Notify.FirstSnapshotGap | cmd/sshcustomd/main.go:961-965 | a change between first snapshot and registration is never shown |
| Notify.SettersNeverBlock | cmd/sshcustomd/main.go:253-263 | a slow subscriber never stalls a setter |
| Notify.BroadcastFills | cmd/sshcustomd/main.go:253-263 | an undisturbed broadcast leaves a token with every subscriber and changes nothing else |
| Notify.ComesToRest | cmd/sshcustomd/main.go:972-979 | once the setters are done the steps a subscriber takes are exactly those it had to take: a Take and a read for a waiting token, a read for a taken one |
| Notify.TokenIsTaken | cmd/sshcustomd/main.go:972-979 | while some are left one is possible; a token is gone after one Take and one read, which shows the newest state |
| Notify.GreetThenSubscribe | cmd/sshcustomd/main.go:961-965 | a subscriber that registers before the state changes again starts with the newest state |
| StateHub.State.Broadcast | cmd/sshcustomd/main.go:253-263 | every channel is full afterwards |
| StateHub.State.Set | cmd/sshcustomd/main.go:224-229 | one version more, and every channel is full |
| StateHub.State.Subscribe | cmd/sshcustomd/main.go:235-239 | a fresh empty channel at the end of the slice |
| StateHub.State.Unsubscribe | cmd/sshcustomd/main.go:240-249 | the channel leaves the slice, the others keep their order |
| StateHub.State.Receive | cmd/sshcustomd/main.go:972-979 | taking the token empties the channel |
| Streams.StepKeepsInv | cmd/sshcustomd/engine.go:104-106 | every step of handlers and client replacement keeps the counter invariant |
| Streams.StreamsConserved | cmd/sshcustomd/engine.go:457-482 | each counter is a 32-bit value that agrees modulo 2^32 with the number of handlers registered on the client that have not returned; below 2^31 of them it is that number, so it is not negative and ends at zero |
| Streams.NoClientNoForward | cmd/sshcustomd/engine.go:519-540 | while there is no client no undecided connection is forwarded |
| Streams.NoClientNoDial | cmd/sshcustomd/engine.go:519-522 | a handler that starts without a client dials nothing |
| Streams.RetryDialsAgain | cmd/sshcustomd/engine.go:363-387 | after a retryable failure the handler dials again, on the client stored at that moment, iff it was its first or second and there is a client; else it closes |
| Streams.ThreeDialsAtMost | cmd/sshcustomd/engine.go:371-387 | in no run does a handler dial a fourth time |
| Streams.Outcome | cmd/sshcustomd/engine.go:519-540 | a connection was forwarded iff its handler finished a pipe, and a failure that is not retried closes it for good |
| Streams.CountedWhereCarried | cmd/sshcustomd/engine.go:519-540 | a stream is counted on the client it was dialled on iff no client was stored between the load it dialled on and the second one |
| Streams.CountedElsewhere | cmd/sshcustomd/engine.go:523-534 | for every two clients and every handler a run in which the stream is carried by one and counted on the other |
| Streams.TunClient.Add | cmd/sshcustomd/engine.go:104-104 | the counter follows the step of a registering handler: it is the number of handlers then registered, as a 32-bit value |
| Streams.TunClient.Remove | cmd/sshcustomd/engine.go:105-105 | the counter follows the step of a returning handler: it is the number of handlers still registered, as a 32-bit value |
| TunnelLoop.UpAtMostOnce | cmd/sshcustomd/engine.go:224-243 | listeners start and rules are applied once, in the first round whose login succeeds, and the tables are the original ones or exactly what that Apply left |
| TunnelLoop.RulesStayUp | cmd/sshcustomd/engine.go:153-196 | once the listeners run, no pause, failed login, breaker or reconnect touches them, the rules or the tables |
| TunnelLoop.TurnMeans | cmd/sshcustomd/engine.go:133-315 | every turn: the loop returns iff the context ends the round before its delay is over, or ends it while a client lives and no tick brings five transport errors; else the status, the delay and the client it goes on with |
| TunnelLoop.RunGoesOn | cmd/sshcustomd/engine.go:133-315 | a run goes on through every round that does not stop it |
| TunnelLoop.RunStopsAt | cmd/sshcustomd/engine.go:133-315 | it ends in the first round that does, whatever the script holds after it |
| TunnelLoop.EveryLoginConnects | cmd/sshcustomd/engine.go:190-206 | in a run that goes on each successful login gets a client of its own |
| TunnelLoop.WhileCarried | cmd/sshcustomd/engine.go:190-243 | while the loop waits the new client is published, the listeners run, and the rules are up iff the first Apply returned nil |
| TunnelLoop.FailClosed | cmd/sshcustomd/engine.go:190-243 | at every moment after Apply returned nil every packet that is to be redirected is, iff its two deciding commands were not failed or the original chain redirects them all |
| TunnelLoop.PacketsAfterApply | cmd/sshcustomd/engine.go:190-243 | the verdicts of nat OUTPUT and nat PREROUTING on each TCP packet at such a moment |
| TunnelLoop.ReturnedState | cmd/sshcustomd/engine.go:119-130 | on return the client is nil, everything is down, and Cleanup ran once iff Apply had succeeded |
| TunnelLoop.SessionRestores | cmd/sshcustomd/engine.go:119-130 | with the configuration unchanged a session restores the tables unless it applied the rules, the failures made Apply return an error, and some command that a clean store takes was not failed |
| TunnelLoop.BadPortStrandsRules | cmd/sshcustomd/engine.go:119-130 | a session without a failed command whose configured port is above 65535 leaves its chains behind |
| TunnelLoop.SessionWithOtherConfig | cmd/sshcustomd/engine.go:124-126 | with a configuration that changed after a successful Apply, disturbed or not, it restores them iff the hooks and chains which that Apply made are ones the current configuration cleans up |
| TunnelLoop.BackoffIsCapped | cmd/sshcustomd/engine.go:345-354 | failed logins in a row double the delay up to 30 seconds, from whatever delay the run is at |
| TunnelLoop.FirstDelays | cmd/sshcustomd/engine.go:136-195 | the delays of a run that begins with failed logins: none, then 1, 2, 4, 8, 16 seconds, then 30 |
| TunnelLoop.DelayBounded | cmd/sshcustomd/engine.go:345-354 | no wait is longer than 30 seconds |
| TunnelLoop.Wait | cmd/sshcustomd/engine.go:252-299 | the wait goes on with the loop iff the client died or five transport errors came in one tick |
| TunnelLoop.Engine.Once | cmd/sshcustomd/engine.go:133-315 | one turn changes the run exactly as the step function of the lemmas says |
| TunnelLoop.Engine.TearDown | cmd/sshcustomd/engine.go:119-130 | the deferred teardown |
| TunnelLoop.Engine.Tunnel | cmd/sshcustomd/engine.go:112-316 | the whole run, up to its return and teardown |
| Payload.OrderIndependent | cmd/sshcustomd/main.go:2439-2463 | every iteration order of the map renders an unnested template with bracketless values to the one-pass substitution |
| Payload.ReplaceThenSubstitute | cmd/sshcustomd/main.go:2459-2461 | one ReplaceAll followed by a one-pass substitution of the rest is one pass over all |
| Payload.KeyIsToken | cmd/sshcustomd/main.go:2440-2450 | a placeholder starts a text iff it is the bracketed word the text starts with |
| RenderOrder.NestedDependsOnOrder | cmd/sshcustomd/main.go:2459-2461 | one placeholder nested in brackets, in plain text, renders the same in every order iff the text it makes inside them is not the name of another placeholder |
| RenderOrder.BracketValueDependsOnOrder | cmd/sshcustomd/main.go:2459-2461 | one placeholder in plain text whose value spells a placeholder renders the same in every order iff there is no other placeholder of that name |
| RenderOrder.NestedServerName | cmd/sshcustomd/main.go:2439-2463 | for the nine keys of an endpoint with server name "lf" two orders render "[[sni]]", in any plain text, differently |
| RenderOrder.BracketedHost | cmd/sshcustomd/main.go:2439-2463 | for the nine keys of an endpoint with host "[lf]" two orders render "[host]", in any plain text, differently |
| RenderOrder.ValuesMean | cmd/sshcustomd/main.go:2439-2457 | the nine placeholders, the value behind each, and that there are no others |
| RenderOrder.PlaceholderRenders | cmd/sshcustomd/main.go:2439-2463 | in plain text and in every order a placeholder is replaced by its value, and any other bracketed word stays |
| RenderOrder.TwoValues | cmd/sshcustomd/main.go:2439-2463 | two placeholders with plain text around and between give their two values, in every order |
| RenderOrder.HostAndPort | cmd/sshcustomd/main.go:2439-2463 | "[host]:[port]" renders to the host, a colon and the port for every plain endpoint and every order |
| Payload.RenderPayload | cmd/sshcustomd/main.go:2439-2463 | the loop in any order; for an unnested template and plain values the result is the one-pass substitution |
| Probe.CollectConserves | cmd/sshcustomd/main.go:1774-1805 | the probe loses and repeats no byte and its buffer stays under 64 KiB plus one chunk |
| Probe.ProbeReads | cmd/sshcustomd/main.go:1774-1805 | how far the probe reads: on until the banner is there, an end or an error comes, or 64 KiB are read; it fails iff an error comes before the banner or nothing came |
| Probe.ProbeFinds | cmd/sshcustomd/main.go:1774-1805 | a banner among the first 64 KiB is found, however it is cut, if neither an end nor an error comes before it |
| Probe.PreparedWhen | cmd/sshcustomd/main.go:1460-1498 | the connection is used iff the probe did not fail, the statuses are allowed if there are any, and there is a banner or a status; it then starts at the first "SSH-", or behind the answer |
| Probe.BannerMeans | cmd/sshcustomd/main.go:2482-2497 | the banner is the trimmed line: up to the first CRLF, else up to the first LF, else 120 bytes |
| Probe.ReadTakes | cmd/sshcustomd/main.go:1355-1360 | a read takes as much of the prefix as fits, and behind it what the connection brings |
| Probe.BannerFound | cmd/sshcustomd/main.go:2482-2497 | the extracted banner is nonempty iff "SSH-" occurs |
| Probe.BannerRealigned | cmd/sshcustomd/main.go:1473-1477 | for every stream and chunking SSH reads exactly the raw stream from its first "SSH-" |
| Probe.FallbackAligned | cmd/sshcustomd/main.go:1478-1497 | in the status-only branch the banner stays whole for every continuation iff the probed bytes do not end inside one |
| Probe.BannerLost | cmd/sshcustomd/main.go:1478-1497 | a server whose probed bytes end inside the banner, and SSH starts behind its first byte |
| Probe.FallbackReadsOn | cmd/sshcustomd/main.go:1478-1497 | in that branch SSH reads everything behind the probed bytes |
| Probe.Read | cmd/sshcustomd/main.go:1774-1805 | readProbe returns what the step function says and leaves the connection where it says |
| Probe.PrefixConn.Read | cmd/sshcustomd/main.go:1355-1360 | the prefix first, then the connection |
| Pipe.WriteAllDelivers | cmd/sshcustomd/main.go:1994-2010 | what is delivered is the counted prefix, all of it unless an error is returned |
| Pipe.WriteAllMeans | cmd/sshcustomd/main.go:1994-2010 | writeAll goes on over short writes: the number of writes it makes, what they count, and whether they succeed, in terms of what each write takes |
| Pipe.WriteAllSucceeds | cmd/sshcustomd/main.go:1994-2010 | it succeeds iff some number of writes that neither fail nor take nothing take all of the bytes |
| Pipe.WriteAllTo | cmd/sshcustomd/main.go:1994-2010 | the loop over short writes matches the step function |
| Pipe.PumpIntegrity | cmd/sshcustomd/main.go:1915-1946 | a pump delivers a prefix of what it read, all of it after a read-side end, and else all but part of one buffer |
| Pipe.PumpReads | cmd/sshcustomd/main.go:1915-1946 | a pump reads event by event, never past the first end or error, and ends cleanly only there |
| Pipe.PumpDelivers | cmd/sshcustomd/main.go:1915-1946 | into a sink that takes everything it delivers all that the reads bring up to the first end or error, and ends cleanly |
| Pipe.PumpTo | cmd/sshcustomd/main.go:1915-1946 | the pump loop matches the step function |
| Pipe.PipeIntegrity | cmd/sshcustomd/main.go:1902-1978 | in every interleaving delivered bytes are a prefix of bytes read, equal after a clean end |
| Pipe.SignalNeverBlocks | cmd/sshcustomd/main.go:1907-1916 | a pump's signal never waits, even after the main loop returned, and is sent once |
| Pipe.ClosedWhen | cmd/sshcustomd/main.go:1948-1978 | the connections are closed only after the idle time, or a signal and the grace time, or two signals |
| Pipe.ActivityNoted | cmd/sshcustomd/main.go:1924-1945 | every read that brings bytes leaves a notice that holds off the idle time, and nothing else does |
| Pipe.BothCopied | cmd/sshcustomd/main.go:1902-1978 | for any two texts some run copies both whole and closes the connections behind the second signal, before any time runs out |
| Pipe.EndedHow | cmd/sshcustomd/main.go:1915-1946 | in every run a pump ends uncleanly iff a write of it fails or takes nothing, and cleanly only behind a read that brought an end or an error |
| Pipe.PumpsEnd | cmd/sshcustomd/main.go:1909-1946 | in every run after the connections are closed a pump delivers nothing more, takes at most three steps of its own and is gone when it has; its next step is possible iff it is not gone and does not wait for the peer of the SSH channel, which never happens once that peer has left |
| Pipe.LeftWaiting | third_party/golang.org/x/crypto/ssh/buffer.go:68-97 | a pump that waits stays as it is through every run in which the peer does nothing |
| Pipe.BothWait | third_party/golang.org/x/crypto/ssh/common.go:448-466 | a run after which both pumps wait behind closed connections |
| Pipe.ThreeNeeded | third_party/golang.org/x/crypto/ssh/channel.go:361-383 | a run after which a pump takes all three steps: a buffered byte is read, its write fails, the pump signals |
| Socks.ServeDecodes | cmd/sshcustomd/main.go:1833-1895 | every well-formed dialogue is accepted with its target, and what follows is left unread |
| Socks.ServedTarget | cmd/sshcustomd/main.go:1833-1895 | in raw bytes, for every address and port: the accepted target names the port in network order behind the host, which stands in brackets iff it holds a colon and, for an IPv4 address, reads back as its four bytes in order |
| Socks.DottedReads | cmd/sshcustomd/main.go:1864-1868 | the dotted text splits at its dots into the decimal numbers of the four bytes, in order |
| Socks.DottedUnambiguous | cmd/sshcustomd/main.go:1864-1868 | different IPv4 addresses have different texts |
| Socks.GreetingRefused | cmd/sshcustomd/main.go:1834-1845 | another version or no methods is refused without an answer |
| Socks.RequestRefused | cmd/sshcustomd/main.go:1850-1892 | another command is answered with code 7, another address type with code 8, another version and an empty name with nothing |
| Socks.AcceptedIsWellFormed | cmd/sshcustomd/main.go:1833-1895 | nothing else is accepted |
| Socks.TargetUnambiguous | cmd/sshcustomd/main.go:1894-1894 | two targets with the same text are the same host and port |
| Socks.PartiesAgree | cmd/sshcustomd/main.go:2950-2971 | the server reads the client's target for every host up to 255 bytes and every port; only the empty host is refused |
| Socks.ReplyExact | cmd/sshcustomd/main.go:2987-3020 | the client's reply parser takes exactly the ten bytes of a success reply and refuses every other code |
| Socks.ReplyForms | cmd/sshcustomd/main.go:2987-3020 | success replies with bound addresses of all three types are taken to their last byte; every other version, code or type is refused |
| Socks.PortTruncated | cmd/sshcustomd/main.go:2962-2971 | of a port outside 16 bits the server learns the low 16 |
| Socks.Dialogue | cmd/sshcustomd/main.go:2950-2979 | put together, both parties succeed and neither reads a byte too many |
| Socks.BrokenConnection | cmd/sshcustomd/main.go:1854-1895 | a connection that breaks while the server writes turns an acceptance into a failure iff it breaks before the method choice; what is then sent and what is left unread |
| Socks.Handshake | cmd/sshcustomd/main.go:1833-1895 | the handshake in its 262-byte buffer does what the decoder function says, replies and failing writes included |
| Socks.ReadConnectReply | cmd/sshcustomd/main.go:2987-3020 | the reply parser does what its function says |
| Socks.OpenThroughProxy | cmd/sshcustomd/main.go:2950-2977 | the client's bytes, with the port truncated to 16 bits |
| Socks.ClientOutcome | cmd/sshcustomd/main.go:2950-2977 | what the client sends and when it succeeds, in terms of the bytes it gets and the writes that work |
| Socks.SendReply | cmd/sshcustomd/main.go:1897-1900 | ten bytes with the code, or nothing on a broken connection |
| ProfileIds.SlugShape | cmd/sshcustomd/main.go:2367-2384 | a slug is letters, digits and single inner dashes, and keeps every letter and digit of the name in order |
| ProfileIds.SlugTwice | cmd/sshcustomd/main.go:2347-2347 | slugging and trimming a slug again changes nothing |
| ProfileIds.SlugWords | cmd/sshcustomd/main.go:2367-2384 | a slug has the words of the lower-case name, in order |
| ProfileIds.BaseMeans | cmd/sshcustomd/main.go:2346-2352 | ids are made from the slug, or from "profile" where the name has no letter and no digit |
| ProfileIds.Slugify | cmd/sshcustomd/main.go:2367-2384 | the builder loop computes the slug |
| ProfileIds.FreshId | cmd/sshcustomd/main.go:2346-2365 | with fewer than 9999 profiles the id is new and comes without the clock |
| ProfileIds.FirstFreeId | cmd/sshcustomd/main.go:2346-2365 | the id is the base if free, else the base with the least free number from 2 to 9999, else with the time |
| ProfileIds.TakenId | cmd/sshcustomd/main.go:2346-2365 | the id is taken iff all 9999 candidates and the clock's one are |
| ProfileIds.UniqueIdNotBlank | cmd/sshcustomd/main.go:2217-2222 | a generated id is never empty and never changed by trimming, so the second attempt in upsertProfile is dead code |
| ProfileIds.UniqueProfileId | cmd/sshcustomd/main.go:2346-2365 | the loop returns the first free candidate |
| Profiles.SelectKeepsInv | cmd/sshcustomd/main.go:2191-2208 | a successful select keeps the store invariant |
| Profiles.MissClearsFlags | cmd/sshcustomd/main.go:2196-2204 | a miss breaks the invariant in memory iff a profile was selected |
| Profiles.SaveKeepsInv | cmd/sshcustomd/main.go:2210-2267 | a successful save keeps the invariant iff the id it generates is not taken |
| Profiles.SaveBreaksInv | cmd/sshcustomd/main.go:2346-2365 | for every save that creates a profile there is a file that meets the invariant and breaks with it |
| Profiles.DeleteKeepsInv | cmd/sshcustomd/main.go:789-810 | a successful deletion keeps the invariant and removes the id |
| Profiles.StoreInvariant | cmd/sshcustomd/main.go:2191-2267 | over every sequence of requests, failed ones included, ids are unique and nonempty, the selected id names a profile or is empty, and exactly that profile is flagged |
| Profiles.BoundedIsRoomy | cmd/sshcustomd/main.go:2357-2364 | below 10000 profiles and requests together no generated id is ever taken |
| Profiles.SaveEffect | cmd/sshcustomd/main.go:2238-2265 | a save stores exactly the requested profile, keeps the old password where none is given, and leaves all others alone but for the flag |
| Profiles.SavedProfile | cmd/sshcustomd/main.go:2210-2265 | field by field what a save stores: a nonempty password replaces the stored one, an empty one keeps it, and a new profile without one has none; the type is "password" where the request leaves it empty; everything else is as requested |
| Profiles.CheckMeans | cmd/sshcustomd/main.go:2223-2237 | a save is accepted iff host and user are not blank, the port is from 1 to 65535 and the mode is known; the first that is wrong is the answer, and the file stays |
| Profiles.NameMeans | cmd/sshcustomd/main.go:2212-2215 | the stored name is the trimmed one, or "SSHCustom Profile" for a blank one |
| Profiles.IdMeans | cmd/sshcustomd/main.go:2211-2222 | the id is the trimmed one, or one made from the name for a blank one |
| Profiles.SelectEffect | cmd/sshcustomd/main.go:2191-2208 | a select is refused for a blank or unknown id, and else selects the trimmed id and changes nothing but flags |
| Profiles.RemoveMeans | cmd/sshcustomd/main.go:789-810 | a deletion is refused iff the id is empty or unknown, and then changes nothing |
| Profiles.ServedMeans | cmd/sshcustomd/main.go:744-760 | a request that is answered with an error changes nothing, and the answer is none iff operation, load and write succeed |
| Profiles.DeleteEffect | cmd/sshcustomd/main.go:791-805 | exactly one profile goes, and the selection with it if it was selected |
| Profiles.ProfilesFile.SelectById | cmd/sshcustomd/main.go:2191-2208 | the flags and the selected id after a select, a miss included |
| Profiles.ProfilesFile.UpsertProfile | cmd/sshcustomd/main.go:2210-2267 | the file after a save, each refusal in order |
| Profiles.ProfilesFile.DeleteProfile | cmd/sshcustomd/main.go:789-810 | the file after a deletion |
| Profiles.Service.Serve | cmd/sshcustomd/main.go:744-760 | a handler works on a fresh copy and stores it only on success; a failing load or write of the file is answered and changes nothing |
| HostCache.KeyMatches | internal/dnsx/dnsx.go:170-173 | a host without a bar matches a key iff it is what stands behind the last bar of the key's host |
| HostCache.KeyTells | internal/dnsx/dnsx.go:170-173 | for server lists and hosts without a bar another mode, list or host gives another key |
| HostCache.SameHost | internal/dnsx/dnsx.go:89-91 | case and outer white space of a host do not matter |
| HostCache.HostMeans | internal/dnsx/dnsx.go:89-91 | a host is trimmed and in lower case, letter by letter |
| HostCache.EvictionExact | internal/dnsx/dnsx.go:127-146 | for hosts without a bar EvictHost removes precisely the entries built for the host, under every mode and server list |
| HostCache.BarredHostEvicted | internal/dnsx/dnsx.go:135-141 | with a bar in a host the suffix match hits entries of another host |
| HostCache.InsertRefines | internal/dnsx/dnsx.go:175-199 | an insert, with or without giving up an oldest entry, keeps the refinement |
| HostCache.CacheRefines | internal/dnsx/dnsx.go:93-102 | over every run the size stays within 2000, a hit is a hit of the unbounded expiring map, and a live entry is missing only if nothing older is kept |
| HostCache.ReferenceIsLastPut | internal/dnsx/dnsx.go:193-197 | the unbounded map holds the value put last and not evicted since, and nothing else |
| HostCache.HitIsLastPut | internal/dnsx/dnsx.go:97-101 | a hit returns the addresses and the source put last for the key, within five minutes, in nanoseconds, of that put |
| HostCache.LivesUntilCrowdedOut | internal/dnsx/dnsx.go:182-192 | an entry is a hit until it expires, is evicted, or 2000 others were inserted after it or before it at the same instant |
| HostCache.Cache.Lookup | internal/dnsx/dnsx.go:89-102 | the cache branch of ResolveHost |
| HostCache.Cache.Scan | internal/dnsx/dnsx.go:183-190 | the scan finds an entry of minimal expiry, in whatever order the map is walked |
| HostCache.Cache.Insert | internal/dnsx/dnsx.go:175-199 | one insert step |
| HostCache.Cache.EvictHost | internal/dnsx/dnsx.go:127-146 | one eviction step |

## Left out

- Sysctls, captive-portal settings, `tuneTCP` and `shRun`: shell effects outside the rule tables, which Cleanup does not fully reverse.
- Limits of iptables on the length of chain and interface names, `-g` targets, and match options the programs never use: a foreign rule may carry one uninterpreted match.
- Addresses in IPv6 packets and the text form of IPv6 addresses in SOCKS targets: the latter is a parameter.
- Bypass entries are parsed IPv4 addresses or blank; an entry that iptables cannot parse is covered only as a failing command.
- Iptables.Tables.Apply: the returned error is the list of errors, not their joined text.
- `isLocalOrBlockedTarget`, `classifyDisconnect`, `isStreamRetryable`, `normalizeMode`, `buildTransport`, `normalizedCopyBufferSize`: one-branch helpers or plain field copying; their results are inputs of the model where they matter.
- Real SSH, TLS, sockets, keepalive, DNS queries and subprocesses: inputs chosen by an adversary (a dial succeeds or fails, a read returns a chunk, an end or a timeout).
- `startTunnel`, `stopTunnel` and auto-restart: the running flag is checked and then set without a lock and the backoff is reset on each start, so there is no guarantee to prove.
- Timers: the idle and grace timers of `pipeBoth` may fire at any moment; only safety and the absence of blocking are stated.
- TunnelLoop.Engine.Tunnel: fields of State other than the phase of the run are not modelled, and a finite script of rounds stands for the run up to any moment.
- Probe.BannerRealigned: whether the answer has HTTP status lines and whether the profile allows them are parameters.
- Socks.Handshake: a write that fails delivers none of its bytes.
- Profiles.Service.Serve: a write of the profile file that fails leaves the file as it was.
- Pipe.PipeIntegrity: deadlines and half-close are not modelled: the SSH channel supports neither as a pump uses them, and on the TCP side they show as a failing read or write.
- Pipe.PumpsEnd: the window for incoming data and the locks of the SSH transport, so that a read or write there may take long but is one step.
- ProfileIds.Slugify: text is ASCII; Unicode case folding is not modelled, and neither is it in the host names of the cache.
- HostCache.Cache.Insert: keys are nonempty, as every key from `cacheKey` is; `NormalizeServers` (which, unlike its comment, does not reject names that are no addresses) is not modelled, the server list in a key is any text.
- HTTP routes, JSON, the dashboard, log files and metrics: input and output only.
