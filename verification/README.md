# Verified model of route-balancer

route-balancer is a daemon that keeps a router with several uplinks in order. It watches
default routes, probe results, delegated IPv6 prefixes and neighbour traffic, computes what
should be installed, compares that with what it reads back from the kernel, and runs an ordered
batch of commands. This project models that logic in Dafny and proves what it is for.

## What is modelled

**Two protocols over lossy mailboxes.** `Claims`, `ClaimProber`, `ClaimProtocol` and
`ClaimSafety` model the proxy-NDP claims: the reconciler's book of conflicts, burns, outstanding
claims and proofs, the prober's pending claims, two bounded mailboxes whose sends may fail, a
clock, and a ghost history of sightings, verdicts and installs. `HealthMonitor` and
`HealthProtocol` model the threshold machine of a monitor and the reconciler that starts, stops
and listens to monitors. Steps are whole turns of an actor (or the loss of one message), and the
main results hold for every run, every interleaving and every loss.

**Calculate, compare, apply, over an abstract kernel.** `Routes`, `Gateways`, `Assign`,
`Translation`, `Firewall`, `Learning` and `Leases` model the parts: reading and subtracting
default routes, taking up gateways, slicing delegations, the translation and mark tables with
their printers and parsers, and leases. `Desired` computes the inventory, `Kernel` says what each
action does to routes, rules, tables, nftables and iptables, `Plan` turns an inventory and a
reading into a batch, `Command` gives the batch its stable order. `PlanFacts` proves what every
batch contains whatever was read; `Converge`, `ConvergeTables`, `ConvergeNft`, `Convergence` and
`ClosedLoop` prove exactly when the next pass has nothing to do, `Settling` how many passes it takes,
`Installed` that what is wanted is then there. `InventoryFacts` and `InventoryExact` say what is wanted,
`RuleTexts` what is read, without naming the functions that compute it.
`Shadows` explores the side conditions, `Witnesses` gives concrete routers that meet them, and one
for each way not to settle. `Shutdown` models the batch that takes everything away again.
`TranslationMeaning` and `FirewallMeaning` read the rendered rules as packet filters.

**Byte loops.** `Netlink` models cutting datagrams into messages and attributes and reading a
discard route, `Icmp` the echo request and its RFC 1071 checksum.

Objects the source updates in place are classes (`Reconciler`, `Prober`, `Monitor`, `HealthBook`,
`RouteState`, `LeaseBook`, `Draft`), its loops are loops, its in-place sort works on an array;
each is proved against a specification function, and the lemmas are about those functions.

## What turned out not to hold

* A pass does not always leave the next one idle. An IPv6 table that is no longer wanted is torn
  down by deleting one fwmark rule (`internal/route/route.go:213-233`); when two rules select it,
  one is left (`Witnesses.SecondRuleHappens`). `Converge.Stale6SettlesExactly` gives the exact
  condition, and `Settling.LoopSettlesInPasses` the exact number of passes: one per rule.
* The IPv6 mark table may be given the name of the translation table when the firewall backend is
  iptables, because `internal/settings/settings.go:67-89` compares names only for the nftables
  backend. Two resources then undo each other in every pass, whatever the kernel holds
  (`Convergence.ClashIsNeverQuiet`, `Witnesses.ClashHappens`). The same holds for the name of the
  learning table.
* "Is the rule installed" is answered by matching text (`internal/route/route.go:320-327`), so a rule
  into table 52 counts as one into table 5 (`Shadows.TenfoldShadows`). A rule found by the text of one
  that the same pass removes is missed for a pass (`Witnesses.ShadowHappens`).
  `ConvergeTables.SelectedExactly` says exactly what is selected afterwards;
  `Shadows.ThreeDigitTablesNeverShadow` says that table offsets of at least 100, as by default, are
  safe.
* These three are all: under the remaining conditions `ClosedLoop.LoopSettles` makes them an "if and
  only if", and `Witnesses.BusyRouterFinishes` shows a router for which none occurs.
* A shutdown does not flush the tables of IPv6 gateways (`internal/reconcile/routing.go:8-13`), so their
  routes outlive the daemon (`Shutdown.ShutdownLeavesTheRest`); nor does it delete a fwmark rule of a
  gateway whose link has gone.
* With more than 500 gateways a fwmark rule can be taken for a per-gateway rule
  (`Shadows.MarkTakenForGateway`).
* Within one call, an entry looked at before a refused sibling with the same host identifier is
  still claimed speculatively (`ClaimSafety.SiblingLookedAtFirst`).

Addresses are two 64-bit halves; printed prefixes and addresses have one spelling each. Listings are
lines of white-space separated fields, as the parsers see them; numbers in them are read and written
digit by digit.

## Model

| member | source | states |
|---|---|---|
| Claims.PlanExactly | internal/reconcile/ndpclaim.go:18-48 | Exactly what becomes of each missing entry: refused iff its address is local, installed as proved iff it holds a proof, claimed speculatively iff neither its identifier is burned nor a sibling was refused before it, claimed screened iff one of these and no conflict is remembered; entries in flight get nothing. |
| Claims.PlanClaims | internal/reconcile/ndpclaim.go:18-48 | The loop over the missing entries computes exactly the plan of the specification. |
| Claims.Reconciler.HandleClaimVerified | internal/reconcile/ndpclaim.go:50-106 | A verdict counts exactly while a claim of its kind is outstanding, and settles it; a contested one is remembered from now on and burns the identifier, a free screened one becomes a proof and clears the conflict, a free verdict burns nothing. |
| Claims.Reconciler.SweepInFlightClaims | internal/reconcile/ndpclaim.go:115-124 | Exactly the claims whose deadline has passed are forgotten. |
| Claims.Reconciler.ProxyEntryActions | internal/reconcile/ndpproxy.go:73-106 | The whole new book and the whole list of actions of a pass that acts. |
| Claims.ActionsOfPass | internal/reconcile/ndpproxy.go:73-106 | Every action of a pass that acts, both directions: withdrawn exactly when stale, installed exactly when proved or speculatively claimed, offered exactly when claimed. |
| Claims.PassDecides | internal/reconcile/ndpproxy.go:28-106 | What any pass over a readable table does about any entry, in terms of the table, the desired set and the book: which entries are withdrawn, refused, installed as proved or speculatively, and offered with which kind, each exactly when; and what the book then holds of it. A missing entry that is due is never passed over. |
| Claims.PassBurns | internal/reconcile/ndpclaim.go:25-41 | A pass burns exactly the identifiers of the entries it refuses. |
| Claims.PassRests | internal/reconcile/ndpproxy.go:57-71 | A pass that cannot read the table, or finds nothing stale and everything missing in flight, takes no action and only forgets expired claims. |
| Claims.SharedBurnKey | internal/reconcile/ndpclaim.go:72-80 | Two entries share a burn key exactly when they stand on one uplink and have one host half, or are the same. |
| Claims.ConflictHonoured | internal/reconcile/ndpproxy.go:28-106 | While a conflict is remembered no pass installs or offers the entry, and any pass with a readable neighbour table withdraws it if it is installed. |
| ClaimProber.Prober.AdmitBatch | internal/claim/claim.go:85-117 | New claims start now, claims already pending keep their start. |
| ClaimProber.Prober.PollOnce | internal/claim/claim.go:119-165 | Seen addresses are ruled contested, unseen ones free only after the whole window, and what is ruled on is no longer pending. |
| ClaimSafety.InvOnEveryRun | internal/reconcile/ndpclaim.go:18-124 | In every reachable state of reconciler, prober, clock and lossy mailboxes: nothing is both in flight and proved, deadlines are at most one give-up interval past the last pass, every proof and every proved install has its own accepted free verdict. |
| ClaimSafety.VerdictSettles | internal/reconcile/ndpclaim.go:50-106 | The whole book after a verdict: contested burns the identifier and dates the conflict, free and screened leaves a proof, anything not outstanding changes nothing. |
| ClaimSafety.ContestedBurnsForGood | internal/reconcile/ndpclaim.go:97-100 | On every run, the identifier of each contested verdict that counted is burned in that state and in every later one. |
| ClaimSafety.PollDecides | internal/claim/claim.go:119-165 | A poll ends exactly the pending claims that were seen or whose window has passed; the others stay as they were. |
| ClaimSafety.RulingIsReported | internal/claim/claim.go:119-165 | Each ruling is recorded, and reaches the reconciler exactly when its mailbox has room. |
| ClaimSafety.OffersArrive | internal/claim/claim.go:56-117 | A pass offers its claims if there is room; a batch taken makes pending exactly its claims that could be solicited, with a new start unless they were pending before. |
| ClaimSafety.StopForgets | internal/reconcile/ndpproxy.go:121-132 | Stopping forgets conflicts, claims and proofs, but no burn. |
| ClaimSafety.BurnedIsNeverSpeculated | internal/reconcile/ndpclaim.go:25-47 | Once a host identifier is burned on an uplink, no later step of any run claims an address with it there speculatively, whatever prefix it has. |
| ClaimSafety.BurnedInstallIsEarned | internal/reconcile/ndpproxy.go:86-99 | Each later install of such an address spends a verdict of its own: accepted, free, from a screened probe of exactly that address that was pending for at least the full window, with every poll made between its start and the verdict, and the deciding one, not seeing it. |
| ClaimSafety.LostClaimsLapse | internal/reconcile/ndpclaim.go:113-124 | A lost offer or verdict blocks no entry longer than one give-up interval. |
| ClaimSafety.SiblingLookedAtFirst | internal/reconcile/ndpclaim.go:25-41 | A concrete plan in which the order of the entries lets a sibling be claimed speculatively. |
| HealthMonitor.CounterIsRight | internal/reconcile/health.go:121-151 | Over every probe history the monitor is failed exactly when some long enough run of failures was not followed by a long enough run of successes, and the counter is the length of the trailing opposing run, below its threshold. |
| HealthMonitor.Monitor.Fold | internal/reconcile/health.go:121-151 | One result moves state and counter as the specification does. |
| HealthMonitor.Monitor.Step | internal/reconcile/health.go:95-119 | A report is made exactly when the state differs from the one last delivered, and counts as delivered exactly when there was room. |
| HealthProtocol.ProbeTargets | internal/reconcile/health.go:235-265 | Every key gets its best candidate, whatever the order of the gateways. |
| HealthProtocol.BestTargetsAreUnique | internal/reconcile/health.go:253-265 | There is one best choice, so the choice does not depend on that order. |
| HealthProtocol.HealthBook.SyncMonitors | internal/reconcile/health.go:206-227 | Afterwards exactly the wanted keys run, each with the wanted target, under its old number exactly when it ran with that target before, else under a new one; a verdict stays exactly for the monitors that stayed. |
| HealthProtocol.SyncExactly | internal/reconcile/health.go:206-227 | The same of the transition system. |
| HealthProtocol.SyncStartsFresh | internal/reconcile/health.go:267-294 | A monitor under a new number starts healthy, with an empty counter and the thresholds configured for its key. |
| HealthProtocol.WantedOnEveryRun | internal/reconcile/health.go:206-227 | In every reachable state exactly what was wanted last is monitored, with the target wanted. |
| HealthProtocol.TickReports | internal/reconcile/health.go:95-119 | A tick moves the counter; a standing other than the last delivered is posted, and counts as delivered, exactly when the mailbox has room. |
| HealthProtocol.AgreementOnEveryRun | internal/reconcile/health.go:153-227 | In every reachable state each running monitor and the view after draining the queue agree on the last delivered verdict, across full mailboxes, stops and restarts; unhealthy keys are always monitored. |
| HealthProtocol.StoppedMonitorsAreMute | internal/reconcile/health.go:184-204 | No event of a stopped monitor ever changes the view again. |
| Assign.AssignUplink | internal/nptv6/assign.go:42-66 | The first min(slots, known) subnets by priority get consecutive slices and the rest are dropped in order. |
| Assign.SlotsExactly | internal/nptv6/assign.go:16-25 | A delegation of 1 to 64 bits has as many slots as 64-bit networks, up to the largest 32-bit integer, any other none. |
| Assign.AssignedInOrder | internal/nptv6/assign.go:42-66 | The subnets that exist get, by priority, consecutive networks counted up from the delegation with its stray bits cleared, for as long as there are any. |
| Assign.SliceOfDelegation | internal/nptv6/assign.go:27-40 | OR-ing in the index never meets a prefix bit, and the slice lies inside the delegation even when the lease's prefix has stray bits. |
| Assign.SlicesAreDisjoint | internal/nptv6/assign.go:27-40 | Slices of one delegation are equal exactly when their indexes are. |
| Assign.AllUplinksAreSliced | internal/reconcile/desired.go:311-333 | Every assignment lies in its uplink's delegation and no uplink uses a slice twice. |
| Assign.EntriesAreInjective | internal/ndp/entry.go:19-49 | One proxy address stands for one assignment and one host. |
| Assign.DesiredEntries | internal/ndp/entry.go:19-49 | The nested loops yield exactly the addresses of the hosts inside a mapped subnet of a proxied uplink, with the delegation in front of the host half. |
| Assign.RenumberingKeepsBurnKey | internal/reconcile/ndpclaim.go:72-80 | The burn key of a host does not depend on the delegation, and tells hosts apart. |
| Translation.Ruleset | internal/nptv6/rules.go:65-122 | The loop builds exactly the table of the specification. |
| Translation.ParseRules | internal/nptv6/rules.go:155-185 | The loop reads exactly the keys of the lines. |
| Translation.RuleReadsBack | internal/nptv6/rules.go:73-90 | A printed rule reads back as its key, whatever its comment says. |
| Translation.TableReadsBack | internal/nptv6/rules.go:155-185 | A printed table reads back as the keys of its rules, for any table name and comments. |
| Translation.FreshTableIsInSync | internal/nptv6/rules.go:264-272 | For every list of assignments, inbound setting and guard a table just applied is not judged drifted, and reads back as exactly the desired set. |
| Translation.KeysTellRules | internal/nptv6/rules.go:124-153 | Two rules have one key exactly when they are the same. |
| Translation.DriftIsSeen | internal/nptv6/rules.go:264-272 | A table that is there is judged drifted exactly when its rules, whatever they are, are not the wanted ones; a missing one whenever one is wanted. |
| Translation.PrintedRules | internal/nptv6/rules.go:73-90 | How each of the four rules is worded. |
| Translation.TableLayout | internal/nptv6/rules.go:92-122 | The whole table as it is written, with the type, hook and priority of each chain; the filter chains only when they have rules. |
| TranslationMeaning.OutboundFate | internal/nptv6/rules.go:65-122 | Every internally sourced packet leaving an uplink has one fate: rewritten into the uplink's delegation with its low half kept, dropped when the uplink maps nothing and leak protection is on, else untouched. |
| TranslationMeaning.ForeignSourcePasses | internal/nptv6/rules.go:73-90 | Packets from outside the internal prefix are neither rewritten nor dropped. |
| TranslationMeaning.SourceRewritingIsInjective | internal/nptv6/rules.go:73-75 | Per uplink no two sources are merged (section 3.2 of RFC 6296, without the checksum adjustment). |
| TranslationMeaning.InboundUndoesOutbound | internal/nptv6/rules.go:46-81 | On an uplink configured to allow inbound, what comes back to a rewritten source reaches that source (section 3.3 of RFC 6296). |
| TranslationMeaning.ClosedUplinksStayClosed | internal/nptv6/rules.go:46-84 | On an uplink not configured to allow inbound, or not configured at all, no packet gains a destination, and exactly new connections to mapped addresses are dropped. |
| TranslationMeaning.OpenAsConfigured | internal/nptv6/rules.go:46-49 | An uplink is open exactly when it is configured so. |
| Numbers.HexReadsBack | internal/firewall/firewall.go:213-217 | A mark printed in hexadecimal, padded or not, is read as the same number. |
| Firewall.DesiredMarkRules | internal/firewall/firewall.go:47-88 | The nested loops produce exactly the rules of the specification, in configuration order. |
| Firewall.RuleExpands | internal/firewall/firewall.go:63-99 | What one port rule becomes: for every source one mark rule of its protocol, or two, tcp before udp; nothing without a mark or ports. |
| Firewall.MarksAreUnique | internal/firewall/firewall.go:30-37 | A mark names one gateway. |
| Firewall.ParseNftMarkRules | internal/firewall/firewall.go:190-222 | The line loop reads what the specification reads, chain by chain. |
| Firewall.NftLineReadsBack | internal/firewall/firewall.go:139-146 | A mark statement reads back as its rule, as written and as listed, with and without a source prefix. |
| Firewall.NftTableReadsBack | internal/firewall/firewall.go:190-245 | Both chains of a printed table read back as the wanted rules, in order. |
| Firewall.IptRulesReadBack | internal/firewall/firewall.go:352-373 | The iptables chain reads back in order, from arguments and from its listing. |
| Firewall.FreshNftIsInSync | internal/firewall/firewall.go:272-295 | A mark table just written is not judged drifted, whatever was there. |
| Firewall.FreshIptIsInSync | internal/firewall/firewall.go:425-482 | Cleaning up and installing, command by command, leaves a chain that is not judged drifted, or none. |
| Firewall.NftJudged | internal/firewall/firewall.go:272-288 | Exactly when the nftables marks are judged in place: none of the older layout, none at all when nothing is wanted, else the wanted rules in order in every chain. |
| Firewall.IptJudged | internal/firewall/firewall.go:425-441 | Exactly when the iptables chain is: absent when nothing is wanted, else with the wanted rules in order and reached from both hooks. |
| Firewall.NftTableLayout | internal/firewall/firewall.go:148-188 | The whole mark table as it is written, per family. |
| Firewall.OnlyMarksAreRead | internal/firewall/firewall.go:190-222 | A line without a protocol, a port match and a mark is read by neither parser. |
| FirewallMeaning.NftFollowsConfig | internal/firewall/firewall.go:139-188 | nft stamps every packet with the mark of the last configured port rule that applies to it. |
| FirewallMeaning.IptFollowsConfig | internal/firewall/firewall.go:443-467 | iptables stamps the same mark, so the two backends agree on every packet. |
| Routes.ParseNexthops | internal/route/parse.go:18-35 | The loop reads the nexthops of the specification. |
| Routes.NexthopsMatch | internal/route/parse.go:37-51 | The comparison answers exactly whether the two maps match, unknown weights matching any. |
| Routes.JudgedInPlace | internal/route/route.go:140-145 | An installed route is judged in place exactly when it has the wanted hops, with the wanted weights unless a single hop hides its weight. |
| Routes.SubtractRoutes | internal/route/parse.go:87-101 | Of each hop the first occurrences, as many as are to be dropped, are gone and the rest is kept in order. |
| Routes.ForeignRoutesRemain | internal/route/parse.go:87-101 | For any interleaving the result is a subsequence whose hops are, with multiplicity, exactly the foreign ones. |
| Routes.OwnRouteNeverSeedsItself | internal/route/route.go:180-189 | Wherever the managed route stands in the listing and however it is worded, what is left has the foreign hops. |
| RuleTexts.ObservedExactly | internal/route/parse.go:103-140 | Exactly which default routes are taken up: those that do not refuse, over a named link other than lo; a gateway that is no address of the family counts as none. |
| Gateways.RouteState.AbsorbGatewayFamily | internal/reconcile/absorb.go:77-110 | The family's gateways are replaced, an unreadable family is left alone. |
| Gateways.AbsorbedMembers | internal/reconcile/absorb.go:85-109 | A family's gateways are exactly those the routes name, whatever their order and repetition. |
| Gateways.AbsorbedExactly | internal/reconcile/absorb.go:85-109 | Exactly which gateways a family has after it was read, by hop, link, link number and configured weight. |
| Gateways.AbsorbAgain | internal/reconcile/absorb.go:77-110 | The gateway set depends on the foreign hops alone. |
| Gateways.ActiveNexthopsAre | internal/reconcile/desired.go:121-142 | The nexthops are exactly the gateways of the family whose link's probe has not failed in it and whose weight is positive, with that weight, ordered by device and address, none twice. |
| Command.Ordered | internal/command/command.go:139-142 | The in-place sort leaves the stable order of the specification. |
| Command.SortedIsStable | internal/command/command.go:139-142 | Actions of one rank keep their order. |
| Command.StableOrderIsUnique | internal/command/command.go:139-142 | Order and stability leave one result, so any stable sort gives this one. |
| Command.ShutdownRunsInPhases | internal/command/command.go:54-71 | Phases whose actions have ranks between -60 and 60, shifted apart and sorted together, equal the concatenation of the phases, each sorted on its own. |
| Shutdown.CleanupRouteActions | internal/reconcile/routing.go:15-26 | The loops build the managed routes' deletions, then each known IPv4 gateway's teardown. |
| Shutdown.DropMarksOf | internal/reconcile/firewall.go:14-43 | The loop deletes exactly the fwmark rules of configured rules whose gateway has a mark, a link and a usable table. |
| Shutdown.ShutdownIsPhased | internal/reconcile/reconcile.go:132-154 | The five phases the shutdown builds have such ranks, so its sorted batch runs phase by phase. |
| Shutdown.CmdsOfFinal | internal/firewall/firewall.go:469-483 | In the sorted shutdown batch the iptables commands run in the order they were built in. |
| Shutdown.ShutdownClears | internal/reconcile/reconcile.go:132-154 | From any kernel with unique IPv4 rule priorities and only the daemon's jumps, the shutdown batch leaves no managed route, no table or rule of a known IPv4 gateway, no configured fwmark rule of a known link, no nftables table or iptables chain of the daemon's, and no proxy entry it could read. |
| Shutdown.ShutdownLeavesTheRest | internal/reconcile/routing.go:8-13 | Foreign routes, other nftables tables, other proxy entries and every IPv6 table are as they were. |
| Shutdown.ShutdownSparesRules | internal/route/route.go:375-401 | A rule that is no configured fwmark rule and has no known IPv4 gateway's priority stays. |
| Desired.ComputeInventory | internal/reconcile/desired.go:84-103 | Filling the inventory step by step gives the inventory of the specification. |
| Desired.Draft.DesiredECMP | internal/reconcile/desired.go:105-119 | Every managed family is wanted with its active nexthops, or retained when there are none. |
| Desired.Draft.DesiredIPv6Marks | internal/reconcile/desired.go:228-283 | Tables, fwmark rules and mark rules of the IPv6 side, from gateways, links and assignments. |
| InventoryFacts.EcmpIsInstallable | internal/reconcile/desired.go:105-142 | A managed family is never absent; what is wanted is non-empty, ordered, duplicate-free and made of gateways that have not failed, of positive weight; it is retained exactly when every gateway of the family has failed or has no weight. |
| InventoryFacts.UplinkMapsExactly | internal/reconcile/desired.go:311-348 | Exactly when a configured uplink has assignments: it holds a delegation of 1 to 64 bits and names a subnet that exists and, if it is also a gateway, its IPv6 side has not failed and a gateway of positive weight stands behind it. |
| InventoryExact.TablesExactly | internal/reconcile/desired.go:144-178 | Exactly which per-gateway tables are wanted, and with which number, source, subnet, gateway and priority. |
| InventoryExact.Fwmarks4Exactly | internal/reconcile/desired.go:180-215 | Exactly which IPv4 fwmark rules are wanted, by gateway position, link and table. |
| InventoryExact.Fwmarks6Exactly | internal/reconcile/desired.go:260-278 | Exactly which IPv6 ones. |
| InventoryExact.FwmarksAscend | internal/reconcile/desired.go:224-226 | Both in the order of their marks. |
| InventoryExact.GuardedExactly | internal/nptv6/rules.go:32-44 | Exactly which uplinks are guarded. |
| InventoryExact.LearnedExactly | internal/ndp/learn.go:30-38 | Exactly which prefixes are learned on which uplinks. |
| InventoryExact.ProxiedExactly | internal/reconcile/desired.go:350-355 | Exactly which addresses are proxied, and where. |
| InventoryFacts.WantedTables | internal/route/route.go:64-74 | Every wanted table is the interface's own and numbered 1 to 252. |
| InventoryFacts.Fwmark6SelectsBuiltTable | internal/reconcile/desired.go:260-278 | Every IPv6 fwmark rule selects a table the same inventory builds, and its mark names its gateway. |
| InventoryFacts.MarkedSubnetIsTranslated | internal/reconcile/desired.go:280-291 | The source subnet of an IPv6 mark rule is one its gateway translates, with the matching rewrite key and no guard. |
| InventoryFacts.SteeredTrafficIsTranslated | internal/reconcile/desired.go:228-291 | Port steering and translation compose: a flow the IPv6 marks send to a gateway never leaves it untranslated. |
| Learning.TableReadsBack | internal/ndp/learn.go:40-97 | The printed learning table reads back as its rules, whatever the set has learned. |
| Learning.DriftIsSeen | internal/ndp/learn.go:122-131 | A table that is there is judged drifted exactly when its rules are not the wanted ones, a missing one whenever one is wanted. |
| Learning.TableLayout | internal/ndp/learn.go:40-67 | The whole table as it is written. |
| Plan.MakePlan | internal/reconcile/differ.go:162-193 | The loop over resources gives the batch of the specification. |
| Plan.InstalledFwmarks | internal/route/route.go:213-233 | The loop over rule lines finds what the specification finds, one entry per table. |
| RuleTexts.WordsAreText | internal/route/route.go:320-327 | Looking for words among fields finds exactly what the source finds in the text of the line. |
| RuleTexts.LookupExactly | internal/route/route.go:239-259 | The priority and table of a rule line are its first field, up to a colon, and the field behind "lookup". |
| RuleTexts.GatewayRuleExactly | internal/route/route.go:191-211 | Exactly which lines are taken for per-gateway rules. |
| RuleTexts.GatewayIfsExactly | internal/route/route.go:191-211 | Exactly which interfaces have per-gateway rules in a listing, each found once, in ascending order. |
| RuleTexts.FwmarkExactly | internal/route/route.go:213-233 | Exactly which lines are taken for fwmark rules. |
| Converge.FwmarksInAre | internal/route/route.go:213-233 | What is found was read from some line, and every table a fwmark line leads into is among those found. |
| Converge.OneEntryPerTable | internal/route/route.go:218-230 | No table is found twice. |
| PlanFacts.BatchIsAllowed | internal/reconcile/differ.go:68-83 | Every action of every batch, whatever was read, is one of a fixed list of kinds with its rank and its reason. |
| PlanFacts.TablesStayOwn | internal/route/route.go:375-401 | No action of any pass writes or flushes a table numbered 253 or above. |
| PlanFacts.DefaultRouteStays | internal/reconcile/differ.go:195-226 | Until shutdown no run removes a managed family's default route, whatever is read, fails or is skipped; it is always the one found at the start or one made of gateways some pass saw healthy. |
| PlanFacts.BatchRunsInsideOut | internal/route/route.go:261-298 | In a sorted batch selectors are deleted before their table is flushed, contents are written before a rule leads into them, everything is taken away before anything is put up, mark tables are written before routes and rules, translation and learning tables after them. |
| PlanFacts.WantedRuleIsNotStale | internal/reconcile/differ.go:267-311 | A wanted IPv6 fwmark rule, as listed, is recognised and never planned for stale teardown. |
| Converge.EcmpSettles | internal/route/route.go:93-145 | After a pass the managed route is judged in place. |
| Converge.Stale4Settles | internal/reconcile/differ.go:262-311 | After a pass no per-gateway rule is stale. |
| Converge.Stale6SettlesExactly | internal/reconcile/differ.go:267-311 | IPv6 teardown is finished by one pass if and only if no stale table was selected by two fwmark rules. |
| ConvergeTables.RulesLeft | internal/route/route.go:403-416 | Exactly the rules there are after a pass: those it does not reap, and those it adds. |
| ConvergeTables.SelectedExactly | internal/route/route.go:320-327 | What is selected after a pass is exactly what evidence that is not reaped selects and what was added. |
| ConvergeTables.TableSettles | internal/route/route.go:261-344 | After a pass a wanted table has its default route; and it is judged in place if and only if its rule has evidence that is left or added. |
| ConvergeTables.FwmarksSettle | internal/route/route.go:403-434 | After a pass all wanted fwmark rules are found if and only if each has evidence that is left or added. |
| ConvergeNft.Marks4Settle | internal/reconcile/differ.go:345-379 | After a pass the IPv4 mark tables are as wanted, including the one of the backend not chosen. |
| ConvergeNft.NptSettles | internal/reconcile/differ.go:409-423 | After a pass the translation table is as wanted, unless it was before and shares its name with the IPv6 mark table; both directions. |
| ConvergeNft.CmdsOfSorted | internal/command/command.go:139-142 | Sorting a batch keeps the iptables commands of each rank in the order they were planned. |
| Convergence.ClashIsNeverQuiet | internal/settings/settings.go:67-89 | With clashing table names every pass over every kernel has something to do. |
| Convergence.SecondPassIsQuiet | internal/reconcile/differ.go:68-83 | After one undisturbed pass the next computes the same inventory and plans nothing, if and only if no stale table was selected twice, no two owners of a table name disagree, and no wanted rule had all its evidence reaped. |
| Installed.PassInstalls | internal/reconcile/differ.go:68-83 | Whatever stood there before, after one undisturbed pass everything wanted is there: managed routes, tables with their contents and rules, fwmark rules, marks of both families in the chosen backend and none in the other, translation and learning rules. |
| Installed.DriftedTableIsWritten | internal/route/route.go:261-298 | Over any kernel, a wanted table judged not in place afterwards has its default route, for IPv4 with the source, its subnet route and its rule. |
| Installed.MissingMarksAreWritten | internal/route/route.go:403-416 | When one wanted fwmark rule is not found, all are there afterwards, word for word. |
| Installed.StaleTables4AreFlushed | internal/reconcile/differ.go:262-311 | A table that a stale per-gateway rule leads into is empty afterwards. |
| Installed.StaleTables6AreFlushed | internal/reconcile/differ.go:262-311 | So is one that a stale IPv6 fwmark rule leads into. |
| ClosedLoop.LoopSettles | internal/reconcile/events.go:45-65 | The same with the gateways read again: the pass changes nothing that the next one reads them from, and they stand on the links it read. |
| Settling.OneRuleGoes | internal/reconcile/differ.go:267-311 | A pass takes exactly one fwmark rule from every stale IPv6 table that has some. |
| Settling.PrioritiesAfter | internal/route/route.go:403-416 | IPv6 rule priorities stay unique over a pass that adds to none already in use. |
| Settling.LoopSettlesInPasses | internal/reconcile/differ.go:68-83 | Over any run of the undisturbed loop, without a clash or shadows, pass i (from 1) arrives at the same gateways and inventory as the first and plans nothing, if and only if no stale IPv6 table was selected by more than i fwmark rules at the start. |
| Settling.LoopComesToRest | internal/reconcile/differ.go:68-83 | So the loop is at rest once it has made as many passes as there were IPv6 rules, and at least one. |
| Settling.FollowingIsNext | internal/reconcile/events.go:45-65 | Every round of the loop has a next one with the same state. |
| Witnesses.ClashHappens | internal/settings/settings.go:67-89 | Settings that pass validation, and a tame first pass, whose next batch is not empty: the mark table has the name of the translation table. |
| Witnesses.SecondRuleHappens | internal/route/route.go:213-233 | The same with two fwmark rules into one stale IPv6 table. |
| Witnesses.ShadowHappens | internal/route/route.go:320-327 | The same with a table offset of 3, where the only evidence for the rule into table 5 is one into table 52 about to be reaped. |
| Witnesses.BusyRouterWants | internal/reconcile/desired.go:84-103 | A concrete router wants a managed route, an IPv6 table, fwmark and mark rules of both families, and a translated subnet. |
| Witnesses.BusyRouterFinishes | internal/reconcile/events.go:45-65 | It meets every condition of the loop theorem, its gateways read from the kernel, and the batch after its first pass is empty. |
| Shadows.NoShadowsNothingLost | internal/route/route.go:320-344 | When every selector that is found has evidence not about to be reaped, no wanted rule is lost. |
| Shadows.TenfoldShadows | internal/route/route.go:320-327 | A rule into a table is taken for one from the same address into the table of one digit less. |
| Shadows.ThreeDigitTablesNeverShadow | internal/route/route.go:320-344 | With a table offset of at least 100 no rule the daemon reaps is the evidence for one it wants. |
| Shadows.MarkTakenForGateway | internal/route/route.go:191-206 | A fwmark rule, of any mark with a readable priority, is taken for a per-gateway rule exactly when its mark is 500 more than its table. |
| Leases.AttributeAll | internal/prefix/source.go:132-167 | The nested loop attributes to each source its standing lease, or its last standing observation unless it may not be seeded. |
| Leases.LeaseBook.AbsorbLeases | internal/reconcile/absorb.go:112-134 | The leases become those attributed; one that is the same is kept as it is. |
| Leases.LeasesAreAttributed | internal/reconcile/absorb.go:112-134 | After any events and one pass the leases are, prefix and length, those attributed from that pass's observations and the flags. |
| Leases.HeldExactly | internal/prefix/source.go:132-167 | The same in words: the configured prefix, or the last one announced, unless the uplink's was withdrawn on the wire last and its source minds. |
| Leases.WireExactly | internal/reconcile/prefixwatch.go:16-60 | A wire event changes its own uplink only: an announcement is held, a withdrawal drops the lease it names and no other, and the flag follows. |
| Leases.FlagsAreLastWires | internal/reconcile/prefixwatch.go:33-36 | Each withdrawn flag equals the last wire event for its uplink. |
| Leases.HistoryIsForgotten | internal/reconcile/prefixwatch.go:16-60 | Runs that end in the same pass with the same last wire events hold the same leases, whatever came before. |
| Leases.AttributionPerUplink | internal/prefix/source.go:73-99 | An advertised prefix withdrawn on the wire is not taken up again from what is still observed. |
| Leases.ChosenIsLast | internal/prefix/source.go:132-167 | What is chosen for a source is exactly the last of its observations that stands. |
| Leases.SourcesAsConfigured | internal/prefix/source.go:50-99 | Which observations each of the two observed sources takes for its own, and which of them may be taken up again after a withdrawal. |
| Leases.RouteOutlivesWithdrawal | internal/prefix/source.go:50-99 | A route's lease is globally routable and does not depend on withdrawals on the wire; an advertised one was seen on its own uplink and ends with the withdrawal. |
| Netlink.SplitMessages | internal/netlink/route.go:152-168 | The loop cuts a datagram into its frames. |
| Netlink.WalkAttrs | internal/netlink/ipv6.go:72-90 | The loop visits the attributes up to and including the first the visitor stops at. |
| Netlink.PackedIsCut | internal/netlink/route.go:152-168 | Cutting returns exactly the frames that were packed, whatever the padding holds (section 2.3.2 of RFC 3549). |
| Netlink.UnpaddedLastIsCut | internal/netlink/ipv6.go:84-88 | The last frame needs no padding. |
| Netlink.AttrsReadBack | internal/netlink/ipv6.go:72-90 | Walking visits exactly the attributes that were encoded. |
| Netlink.AnyBytesAreCutInBounds | internal/netlink/ipv6.go:72-90 | On any bytes the frames are consecutive slices, in bounds, each as long as its own length field says. |
| Netlink.DiscardRouteReadsBack | internal/netlink/ipv6.go:115-165 | An announced or withdrawn discard route yields its prefix and length, between any other attributes. |
| Netlink.DiscardExactly | internal/netlink/ipv6.go:115-165 | Exactly which messages, of any bytes, yield an observation, and which one. |
| Netlink.LittleEndianBytes | internal/netlink/route.go:152-168 | The weight of each byte of a number in host order. |
| Icmp.Checksum | internal/probe/icmp.go:246-258 | On up to 65537 words the 32-bit loop and the folding loop give the complement of the sum of section 1 of RFC 1071. |
| Icmp.AllOnesSum | internal/probe/icmp.go:246-250 | One word more than 65537 would wrap the register. |
| Icmp.FoldedSum | internal/probe/icmp.go:254-256 | Folding the plain sum gives the one's-complement sum. |
| Icmp.StoredChecksumVerifies | internal/probe/icmp.go:141-145 | Storing the checksum in a zeroed field makes the whole message verify. |
| Icmp.EchoVerifies | internal/probe/icmp.go:141-145 | A request as sent, its checksum stored, verifies and is still told apart by type, identifier and number. |
| Icmp.EchoMatches | internal/probe/icmp.go:182-197 | A message is taken for the answer exactly when type, identifier and number are those of the request. |
| Icmp.EchoLayout | internal/probe/icmp.go:182-190 | The layout of the request, byte by byte. |

## Left out

- Sockets, subprocesses, sysctl and the probes themselves: their answers are parameters, and sends and reads may fail.
- Goroutines and the Go memory model: one turn of an actor, or one send with its bookkeeping, is one step.
- Configuration parsing, logging and error texts: the checks made at start-up are the predicate `InventoryFacts.Validated`.
- The proxy-NDP switch of an interface, purging the neighbour cache and the grouping of claims per uplink.
- The learned hosts: reading the set back, and its being emptied when the learning table is rewritten, so convergence does not speak of proxy entries.
- Connection tracking, route selection and hashing in the kernel: packets are the first of their flow.
- Route events from netlink: the daemon only treats them as a hint to run a pass.
- The metric of a gateway: nothing but log lines depends on it.
- Firewall.NftTableReadsBack: nft is taken to list the elements of a port set in the order they were written.
- Claims.PlanClaims: entries come in some order without repetition, not necessarily the printed order the source sorts by.
- Plan.MakePlan: the wanted tables are visited in any order, where the source sorts them; results hold for every order.
- Merging into an nftables table that is already there: writing replaces a table, since the mark tables are deleted in the same batch just before and the others in the same transaction.
- Convergence.SecondPassIsQuiet: assumes at most 500 gateways, unique rule priorities, no foreign route at a managed metric, only the daemon's own jumps to its iptables chain, and names that are not keywords of the tools.
- Settling.LoopSettlesInPasses: assumes that no name clashes, that no rule about to be reaped is the only evidence for a wanted one, and that what the first pass adds has a priority of its own; with a clash `Convergence.ClashIsNeverQuiet` holds instead.
- Shutdown.ShutdownClears: the kernel is taken to delete the first rule of a priority, and an exact rule wherever it stands.
- Numbers.HexReadsBack: digit-separating underscores, which Go also accepts with base 0, are not modelled.
- Leases.AttributionPerUplink: IPv4 addresses mapped into IPv6 are not treated apart.
