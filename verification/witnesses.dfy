/** Concrete routers: the conditions of the loop theorems can be met, and each way not to settle
    does occur. */
module Witnesses {
  import opened Common
  import opened Tokens
  import opened Numbers
  import opened Routes
  import opened Gateways
  import opened Desired
  import opened InventoryFacts
  import opened Kernel
  import opened Plan
  import opened PlanFacts
  import opened Converge
  import opened ConvergeTables
  import opened Convergence
  import opened Shadows
  import opened ClosedLoop
  import Assign
  import Firewall
  import Translation

  // ----- the next pass --------------------------------------------------------------------------

  /** The pass after one that ran undisturbed, over the same settings and state. */
  ghost function NextPass(p: Pass, t: Tools, k: Kernel): Pass
    requires Shaped(p)
  {
    p.(inst := ReadBack(p, t, After(p, k)))
  }

  /** The pass read its gateways from the kernel, starting without any, wherever the managed route
      stands in the listings. */
  ghost predicate FromScratch(p: Pass, t: Tools, k: Kernel) {
    SoundOwn(k, IPv4) && SoundOwn(k, IPv6) && forall at :: ReadFrom(p, t, at, k, map[])
  }

  lemma NextPassIsQuiet(p: Pass, t: Tools, k: Kernel)
    requires TamePass(p, t, k) && FromScratch(p, t, k)
    ensures Shaped(NextPass(p, t, k))
    ensures BatchOf(NextPass(p, t, k)) == [] <==> OneRulePerStaleTable(p, k.rules.v6) && !NameClash(p.c, p.inv) && AllEvidenced(p, k)
  {
    LinksDoMatch(p, t, Both(0, 0), k, map[]);
    SecondPassIsQuiet(p, NextPass(p, t, k), t, k);
  }

  /** A tame pass, and yet the next batch is not empty. */
  ghost predicate LeavesWork(p: Pass, t: Tools, k: Kernel) {
    TamePass(p, t, k) && FromScratch(p, t, k) && BatchOf(NextPass(p, t, k)) != []
  }

  lemma ClashLeavesWork(p: Pass, t: Tools, k: Kernel)
    requires TamePass(p, t, k) && FromScratch(p, t, k) && NameClash(p.c, p.inv)
    ensures LeavesWork(p, t, k)
  {
    NextPassIsQuiet(p, t, k);
  }

  lemma SecondRuleLeavesWork(p: Pass, t: Tools, k: Kernel, r: Rule, s: Rule)
    requires TamePass(p, t, k) && FromScratch(p, t, k) && r in k.rules.v6 && s in k.rules.v6 && r != s
    requires StaleRule6(p, r) && StaleRule6(p, s) && IfOf(p.c.rt, r) == IfOf(p.c.rt, s)
    ensures LeavesWork(p, t, k)
  {
    NextPassIsQuiet(p, t, k);
  }

  lemma LostEvidenceLeavesWork(p: Pass, t: Tools, k: Kernel, id: TableId)
    requires TamePass(p, t, k) && FromScratch(p, t, k) && id in p.inv.tables && !TableEvidenced(p, k, id)
    ensures LeavesWork(p, t, k)
  {
    NextPassIsQuiet(p, t, k);
  }

  /** One stale rule is all the evidence there is for the one wanted table, whose contents are in
      place: the pass reaps the rule and adds none. */
  ghost predicate OnlyShadow(p: Pass, k: Kernel, id: TableId, r: Rule) {
    && id.fam.IPv4? && p.inv.tables.Keys == {id} && p.inv.fwmarks4 == []
    && k.rules.v4 == [r] && StaleLine4(p, RuleLine(r))
    && TableInSync(p.inv.tables[id], p.inst.rules.v4, ContentsOf(p.inst, id))
  }

  lemma ShadowIsReaped(p: Pass, k: Kernel, id: TableId, r: Rule)
    requires Shaped(p) && OnlyShadow(p, k, id, r) && SoundTables(p.inv) && FewMarks(p.c, p.inv)
    requires !p.st.linksStale && p.inst.rules.v4 == Some(RuleLines(k.rules.v4)) && Priorities(k.rules.v4)
    ensures Reaped(Executed(p), IPv4, r)
  {
    ExecutedRuns(p);
    Parts(p);
    PlannedParts(p, Stale4(p.c.rt, p.inv, p.st.linksStale, Listed4(p)));
    StaleRuleIsGone(p, k, Executed(p), r);
    RulesLeft(p, k, Executed(p), IPv4, r);
  }

  lemma AddedForDrift(p: Pass, acts: Batch, r: Rule)
    requires Runs(p, acts) && p.inv.fwmarks4 == [] && Added(acts, IPv4, r)
    ensures exists spec :: DriftedTable(p, IPv4, spec)
  {
    var a :| a in acts && a.op == RuleAdd(IPv4, r);
    assert RuleAddAllowed(p, a.order, IPv4, r) by {
      assert Allowed(p, a);
    }
  }

  lemma NothingIsAdded(p: Pass, acts: Batch, id: TableId, r: Rule)
    requires Runs(p, acts) && p.inv.tables.Keys == {id} && p.inv.fwmarks4 == []
    requires TableInSync(p.inv.tables[id], p.inst.rules.Of(id.fam), ContentsOf(p.inst, id))
    ensures !Added(acts, IPv4, r)
  {
    forall spec
      ensures !DriftedTable(p, IPv4, spec)
    {
      assert forall other :: other in p.inv.tables ==> other == id;
    }
    if Added(acts, IPv4, r) {
      AddedForDrift(p, acts, r);
    }
  }

  lemma NoEvidenceLeft(k: Kernel, acts: Batch, fam: Fam, r: Rule, selector: Fields, table: nat)
    requires |selector| == 2 && k.rules.Of(fam) == [r] && Reaped(acts, fam, r) && forall x :: !Added(acts, fam, x)
    ensures !Evidenced(k, acts, fam, selector, table)
  {
    assert forall x :: x in k.rules.Of(fam) ==> x == r;
  }

  lemma ShadowIsLost(p: Pass, k: Kernel, id: TableId, r: Rule)
    requires Shaped(p) && OnlyShadow(p, k, id, r) && Reaped(Executed(p), IPv4, r)
    ensures !TableEvidenced(p, k, id)
  {
    ExecutedRuns(p);
    forall x
      ensures !Added(Executed(p), IPv4, x)
    {
      NothingIsAdded(p, Executed(p), id, x);
    }
    NoEvidenceLeft(k, Executed(p), IPv4, r, ["from", p.inv.tables[id].src], p.inv.tables[id].table);
  }

  lemma ShadowLeavesWork(p: Pass, t: Tools, k: Kernel, id: TableId, r: Rule)
    requires TamePass(p, t, k) && FromScratch(p, t, k) && OnlyShadow(p, k, id, r)
    ensures LeavesWork(p, t, k)
  {
    MarksAreBuilt(p.c, p.st, p.inv);
    ShadowIsReaped(p, k, id, r);
    ShadowIsLost(p, k, id, r);
    LostEvidenceLeavesWork(p, t, k, id);
  }

  // ----- routers with at most one gateway ----------------------------------------------------------

  const GATEWAY4 := "10.0.0.254"
  const GATEWAY6 := "fe80::1"

  function PlainTools(): Tools {
    Tools(Both(Wording([], []), Wording([], [])), Both({GATEWAY4}, {GATEWAY6}))
  }

  lemma ToolsAreSensible()
    ensures Sensible(PlainTools())
  {
    assert AddressText(GATEWAY4) && AddressText(GATEWAY6);
  }

  /** A default route of somebody else, at metric 7, and nothing else but these rules and tables. */
  function KernelWith(foreign: Both<seq<Fields>>, rules: Both<seq<Rule>>, tables: map<TableKey, seq<Fields>>): Kernel {
    Kernel(foreign, Both(None, None), rules, tables, map[], Firewall.IptState(None, {}))
  }

  function DefaultVia(ip: string, dev: string): Fields {
    ["default", "via", ip, "dev", dev, "metric", Itoa(7)]
  }

  lemma MetricOfDefault(ip: string, dev: string)
    requires ip != "metric" && dev != "metric"
    ensures MetricOf(DefaultVia(ip, dev)) == 7
  {
    var line := DefaultVia(ip, dev);
    FieldAt(line, "metric", 5);
    AtoiReadsBack(7);
  }

  function NoComments(t: Option<Translation.Table>): Translation.Comments {
    match t
    case None => Translation.Comments([], [], [], [])
    case Some(t) =>
      Translation.Comments(Blank(|t.prerouting|), Blank(|t.postrouting|), Blank(|t.inbound|), Blank(|t.guard|))
  }

  function Blank(n: nat): (lines: seq<Line>)
    ensures |lines| == n && forall l :: l in lines ==> l != []
  {
    seq(n, i => [Word("#")])
  }

  /** A pass that reads the kernel. */
  function PassOver(c: Settings, st: State, keys: seq<string>, k: Kernel, ids: seq<TableId>): Pass
    requires forall x :: x in keys ==> x in st.gateways
  {
    var inv := InventoryFor(c, st, keys);
    Pass(c, st, inv, Observe(c, st, inv.marks, PlainTools().w, PlainTools().addresses, k), ids, NoComments(inv.ruleset))
  }

  lemma InventoryIsComputed(c: Settings, st: State, keys: seq<string>)
    requires Sorts(keys, st.gateways.Keys) && forall x :: x in keys ==> x in st.gateways
    ensures Computed(c, st, InventoryFor(c, st, keys))
  {
  }

  lemma PassIsPlannable(p: Pass)
    requires Validated(p.c) && Computed(p.c, p.st, p.inv) && Consistent(p.st.gateways)
    requires Enumerates(p.ids, p.inv.tables.Keys) && p.comments == NoComments(p.inv.ruleset)
    ensures Sane(p)
  {
    assert forall id :: id in p.ids ==> id in Range(p.ids);
    MarksArePrintable(p);
  }

  lemma PassIsSane(c: Settings, st: State, keys: seq<string>, k: Kernel, ids: seq<TableId>)
    requires Validated(c) && Sorts(keys, st.gateways.Keys) && Consistent(st.gateways) && (forall x :: x in keys ==> x in st.gateways)
    requires Enumerates(ids, InventoryFor(c, st, keys).tables.Keys)
    ensures Sane(PassOver(c, st, keys, k, ids))
  {
    InventoryIsComputed(c, st, keys);
    PassIsPlannable(PassOver(c, st, keys, k, ids));
  }

  lemma PassIsTame(p: Pass, k: Kernel)
    requires Sane(p) && TameSettings(p.c) && TameState(p) && TameKernel(p, k) && p.inst == ReadBack(p, PlainTools(), k)
    ensures TamePass(p, PlainTools(), k)
  {
    SaneIsShaped(p);
    ToolsAreSensible();
  }

  function OneGateway(gw: Gateway): map<string, Gateway> {
    map[KeyOf(gw) := gw]
  }

  lemma OneTable(c: Settings, st: State, gw: Gateway, spec: TableSpec)
    requires st.gateways == OneGateway(gw) && SpecFor(c, st, gw) == Some(spec)
    ensures TablesFor(c, st, [KeyOf(gw)], gw.fam) == map[TableId(gw.fam, gw.ifIndex) := spec]
    ensures forall fam :: fam != gw.fam ==> TablesFor(c, st, [KeyOf(gw)], fam) == map[]
  {
    var keys := [KeyOf(gw)];
    assert forall fam :: TablesFor(c, st, keys[..0], fam) == map[];
  }

  lemma OneTableWanted(c: Settings, st: State, gw: Gateway, spec: TableSpec)
    requires st.gateways == OneGateway(gw) && SpecFor(c, st, gw) == Some(spec)
    ensures InventoryFor(c, st, [KeyOf(gw)]).tables == map[TableId(gw.fam, gw.ifIndex) := spec]
  {
    OneTable(c, st, gw, spec);
    var one := map[TableId(gw.fam, gw.ifIndex) := spec];
    assert map[] + one == one && one + map[] == one;
  }

  lemma OneGatewayIsSane(c: Settings, st: State, gw: Gateway, spec: TableSpec, k: Kernel)
    requires Validated(c) && st.gateways == OneGateway(gw) && SpecFor(c, st, gw) == Some(spec)
    ensures Sane(PassOver(c, st, [KeyOf(gw)], k, [TableId(gw.fam, gw.ifIndex)]))
  {
    var keys, ids := [KeyOf(gw)], [TableId(gw.fam, gw.ifIndex)];
    assert Range(keys) == st.gateways.Keys;
    OneTableWanted(c, st, gw, spec);
    assert Range(ids) == InventoryFor(c, st, keys).tables.Keys;
    PassIsSane(c, st, keys, k, ids);
  }

  lemma OneGatewayRoute(gw: Gateway, unhealthy: Unhealthy)
    requires Active(gw, unhealthy, gw.fam)
    ensures ActiveNexthops(OneGateway(gw), [KeyOf(gw)], unhealthy, gw.fam) == [NexthopOf(gw, unhealthy)]
  {
    var keys, hop := [KeyOf(gw)], NexthopOf(gw, unhealthy);
    assert Collected(OneGateway(gw), keys[..0], unhealthy, gw.fam) == [];
    assert Collected(OneGateway(gw), keys, unhealthy, gw.fam) == [hop];
    assert SortHops([hop][..0]) == [];
  }

  lemma OneRouteIsAbsorbed(gw: Gateway, routes: seq<Observed>, weights: Weights, ifaces: map<string, nat>)
    requires |routes| == 1 && GatewayAt(gw.fam, routes[0].hop, weights, ifaces) == Some(gw)
    ensures Absorbed(map[], gw.fam, routes, weights, ifaces) == OneGateway(gw)
  {
    assert Absorbed(map[], gw.fam, routes[..0], weights, ifaces) == map[];
  }

  lemma OneRouteIsRead(gw: Gateway, fams: seq<Fam>, readings: Both<seq<Observed>>, weights: Weights, ifaces: map<string, nat>)
    requires fams == [gw.fam] && |readings.Of(gw.fam)| == 1
    requires GatewayAt(gw.fam, readings.Of(gw.fam)[0].hop, weights, ifaces) == Some(gw)
    ensures GatewaysRead(map[], fams, readings, weights, ifaces) == OneGateway(gw)
  {
    OneRouteIsAbsorbed(gw, readings.Of(gw.fam), weights, ifaces);
    assert GatewaysRead(map[], fams[..0], readings, weights, ifaces) == map[];
  }

  /** The gateway eth0, with index 2 in the links. */
  function StateWith(gateways: map<string, Gateway>, addrs: map<nat, Address4>, leases: map<string, Assign.Lease>): State {
    State(gateways, {}, map["eth0" := 2], addrs, false, leases, [])
  }

  lemma TameStateWith(p: Pass)
    requires !p.st.linksStale && p.st.ifaces == map["eth0" := 2] && SoundTables(p.inv)
    requires p.st.gateways in {map[], OneGateway(Gateway4()), OneGateway(Gateway6())}
    ensures TameState(p)
  {
    forall k | k in p.st.gateways
      ensures p.st.gateways[k] == Gateway4() || p.st.gateways[k] == Gateway6()
    {
    }
    NamesAreNoWords();
  }

  lemma NamesAreNoWords()
    ensures "eth0" !in KEYWORDS && "eth0" != "lo" && "eth9" !in KEYWORDS && "eth9" != "lo" && GATEWAY4 !in KEYWORDS && GATEWAY6 !in KEYWORDS
  {
  }

  function Gateway4(): Gateway {
    Gateway(IPv4, GATEWAY4, 2, "eth0", 1)
  }

  function Gateway6(): Gateway {
    Gateway(IPv6, GATEWAY6, 2, "eth0", 1)
  }

  lemma OneDefault(ip: string, dev: string, addresses: set<string>)
    requires ip in addresses && ip !in KEYWORDS && dev !in KEYWORDS && dev != "" && dev != "lo"
    ensures DefaultRoutes([DefaultVia(ip, dev)], addresses) == [Observed(Hop(ip, dev), 7)]
  {
    var line := DefaultVia(ip, dev);
    FieldAt(line, "via", 1);
    FieldAt(line, "dev", 3);
    FieldAt(line, "metric", 5);
    AtoiReadsBack(7);
    assert ObservedIn(line, addresses) == Some(Observed(Hop(ip, dev), 7));
    assert [line][..0] == [];
  }

  /** What a pass reads of a kernel with one default route and none of the daemon's. */
  lemma OneReading(at: Both<nat>, k: Kernel, fam: Fam, ip: string, dev: string)
    requires k.own.Of(fam).None? && k.foreign.Of(fam) == [DefaultVia(ip, dev)] && ip in PlainTools().addresses.Of(fam)
    requires ip !in KEYWORDS && dev !in KEYWORDS && dev != "" && dev != "lo"
    ensures Reading(PlainTools(), at, k, fam) == [Observed(Hop(ip, dev), 7)]
  {
    var lines := [DefaultVia(ip, dev)];
    var i := if at.Of(fam) <= 1 then at.Of(fam) else 1;
    assert lines[..i] + [] + lines[i..] == lines;
    assert FullListing(k, fam, PlainTools().w.Of(fam), at.Of(fam)) == lines;
    OneDefault(ip, dev, PlainTools().addresses.Of(fam));
    var one := [Observed(Hop(ip, dev), 7)];
    assert Subtracted(one[..0], []) == [];
    assert Subtracted(one, []) == one;
  }

  /** A default route over a link that is not among the gateways' links gives no gateway. */
  lemma NoRouteIsReadFrom(p: Pass, t: Tools, at: Both<nat>, k: Kernel, fam: Fam)
    requires p.c.rt.observed == [fam] && p.st.gateways == map[] && p.st.ifaces == map["eth0" := 2]
    requires |Reading(t, at, k, fam)| == 1 && Reading(t, at, k, fam)[0].hop.dev == "eth9"
    ensures ReadFrom(p, t, at, k, map[])
  {
    var routes, readings := Reading(t, at, k, fam), Readings(t, at, k);
    assert "eth9" !in p.st.ifaces;
    assert Absorbed(map[], fam, routes[..0], p.c.weights, p.st.ifaces) == map[];
    assert Absorbed(map[], fam, routes, p.c.weights, p.st.ifaces) == map[];
    assert GatewaysRead(map[], p.c.rt.observed[..0], readings, p.c.weights, p.st.ifaces) == map[];
    assert readings.Of(fam) == routes;
  }

  lemma OneRouteIsReadFrom(p: Pass, t: Tools, at: Both<nat>, k: Kernel, gw: Gateway)
    requires p.c.rt.observed == [gw.fam] && p.st.gateways == OneGateway(gw) && p.st.ifaces == map["eth0" := 2]
    requires |Reading(t, at, k, gw.fam)| == 1 && GatewayAt(gw.fam, Reading(t, at, k, gw.fam)[0].hop, p.c.weights, p.st.ifaces) == Some(gw)
    ensures ReadFrom(p, t, at, k, map[])
  {
    assert Readings(t, at, k).Of(gw.fam) == Reading(t, at, k, gw.fam);
    OneRouteIsRead(gw, p.c.rt.observed, Readings(t, at, k), p.c.weights, p.st.ifaces);
  }

  // ----- no gateway -----------------------------------------------------------------------------------

  function Fw(nftables: bool, table: string, rules: seq<Firewall.PortRule>, rules6: seq<Firewall.PortRule>): FirewallOptions {
    FirewallOptions(nftables, "RB", table, ["eth0"], rules, rules6)
  }

  function Npt(internal: Option<Assign.Block>, subnets: map<string, Assign.Block>, names: seq<string>): Assign.Options {
    Assign.Options("npt", internal, subnets, [Assign.Uplink("eth0", names, false)], true)
  }

  function NoProxy(): ProxyOptions {
    ProxyOptions("npt" + "-ndp", [], "60s", "1024")
  }

  /** Translation, and the IPv4 side managed. */
  function SettingsWith(offset: nat, fw: FirewallOptions, npt: Assign.Options): Settings {
    Settings(RouteOptions(offset, 1024, [IPv4], [IPv4]), fw, true, npt, NoProxy(), map["eth0" := 1])
  }

  lemma SettingsAreTame(c: Settings)
    requires c.fw.chain == "RB" && |c.fw.gateways| == 1 && |c.npt.uplinks| == 1 && c.npt.uplinks[0].name == "eth0" && c.nd == NoProxy()
    ensures TameSettings(c)
  {
    assert "RB"[0] != '-';
    assert |c.nd.table| == 7;
    assert forall u :: u in c.npt.uplinks ==> u == c.npt.uplinks[0];
  }

  lemma KernelIsTame(p: Pass, k: Kernel)
    requires p.c.rt.managed == [IPv4] && k.foreign.v4 in {[DefaultVia(GATEWAY4, "eth0")], [DefaultVia(GATEWAY4, "eth9")]} && k.ipt == Firewall.IptState(None, {})
    requires Priorities(k.rules.v4) && Priorities(k.rules.v6)
    ensures TameKernel(p, k)
  {
    MetricOfDefault(GATEWAY4, "eth0");
    MetricOfDefault(GATEWAY4, "eth9");
  }

  /** Nothing to route yet: no gateway and no lease. */
  function IdleState(): State {
    StateWith(map[], map[], map[])
  }

  function IdlePass(c: Settings, k: Kernel): Pass {
    PassOver(c, IdleState(), [], k, [])
  }

  lemma IdlePassIsTame(c: Settings, k: Kernel)
    requires Validated(c) && TameSettings(c) && TameKernel(IdlePass(c, k), k)
    ensures TamePass(IdlePass(c, k), PlainTools(), k)
    ensures IdlePass(c, k).inv.tables == map[]
  {
    var p := IdlePass(c, k);
    var keys: seq<string> := [];
    assert Sorts(keys, IdleState().gateways.Keys);
    assert p.inv.tables == map[];
    var ids: seq<TableId> := [];
    assert Enumerates(ids, p.inv.tables.Keys);
    PassIsSane(c, IdleState(), [], k, []);
    TameStateWith(p);
    PassIsTame(p, k);
  }

  lemma IdleFromScratch(c: Settings, k: Kernel)
    requires c.rt.observed == [IPv4] && k.own == Both(None, None) && k.foreign.v4 == [DefaultVia(GATEWAY4, "eth9")]
    ensures FromScratch(IdlePass(c, k), PlainTools(), k)
  {
    NamesAreNoWords();
    forall at
      ensures ReadFrom(IdlePass(c, k), PlainTools(), at, k, map[])
    {
      OneReading(at, k, IPv4, GATEWAY4, "eth9");
      NoRouteIsReadFrom(IdlePass(c, k), PlainTools(), at, k, IPv4);
    }
  }

  // ----- a name clash --------------------------------------------------------------------------------------

  /** The iptables backend, with the name of the translation table for its mark tables. */
  function ClashSettings(): Settings {
    SettingsWith(100, Fw(false, "npt", [], []), Npt(Some(Assign.Block(0xfd00_0000_0000_0000, 48)), map[], []))
  }

  function EmptyKernel(): Kernel {
    KernelWith(Both([DefaultVia(GATEWAY4, "eth9")], []), Both([], []), map[])
  }

  /** The uplink is guarded, so there is a translation table, and it has the name of the IPv6 mark
      table. */
  lemma ClashHappens()
    ensures Validated(ClashSettings()) && LeavesWork(IdlePass(ClashSettings(), EmptyKernel()), PlainTools(), EmptyKernel())
  {
    var c, k := ClashSettings(), EmptyKernel();
    SettingsAreTame(c);
    KernelIsTame(IdlePass(c, k), k);
    IdlePassIsTame(c, k);
    IdleFromScratch(c, k);
    ClashingInventory();
    ClashLeavesWork(IdlePass(c, k), PlainTools(), k);
  }

  lemma ClashingInventory()
    ensures IdlePass(ClashSettings(), EmptyKernel()).inv.ruleset.Some?
  {
    var c := ClashSettings();
    var list := AssignmentsOf(c, IdleState());
    assert Translation.GuardsAmong(c.npt.uplinks[..0], list) == [];
    assert list == [] by {
      assert Assign.AssignedAll(c.npt, c.npt.uplinks[..0], map[], ActiveAmong(c, IdleState(), c.npt.uplinks)) == [];
    }
    assert Translation.Guards(c.npt, list) == ["eth0"];
  }

  // ----- two rules into one stale table ------------------------------------------------------------------------

  function PlainSettings(): Settings {
    SettingsWith(100, Fw(true, "rb", [], []), Npt(None, map[], []))
  }

  /** Left over from earlier settings: two fwmark rules into table 102. */
  function LeftoverMark(mark: nat): Rule {
    FwmarkRule(FwmarkSpec(mark, 102, FwmarkPriority(mark)))
  }

  function LeftoverKernel(): Kernel {
    KernelWith(Both([DefaultVia(GATEWAY4, "eth9")], []), Both([], [LeftoverMark(1), LeftoverMark(2)]), map[])
  }

  /** Two IPv6 fwmark rules lead into one stale table. */
  lemma SecondRuleHappens()
    ensures Validated(PlainSettings()) && LeavesWork(IdlePass(PlainSettings(), LeftoverKernel()), PlainTools(), LeftoverKernel())
  {
    var c, k := PlainSettings(), LeftoverKernel();
    NamesAreApart();
    SettingsAreTame(c);
    LeftoverKernelIsTame();
    IdlePassIsTame(c, k);
    IdleFromScratch(c, k);
    LeftoversAreStale(IdlePass(c, k), k);
    SecondRuleLeavesWork(IdlePass(c, k), PlainTools(), k, LeftoverMark(1), LeftoverMark(2));
  }

  lemma LeftoverKernelIsTame()
    ensures TameKernel(IdlePass(PlainSettings(), LeftoverKernel()), LeftoverKernel())
  {
    assert LeftoverMark(1).prio == 501 && LeftoverMark(2).prio == 502;
    KernelIsTame(IdlePass(PlainSettings(), LeftoverKernel()), LeftoverKernel());
  }

  lemma LeftoversAreStale(p: Pass, k: Kernel)
    requires p.c.rt.offset == 100 && p.inv.tables == map[] && k.rules.v6 == [LeftoverMark(1), LeftoverMark(2)]
    ensures LeftoverMark(1) in k.rules.v6 && LeftoverMark(2) in k.rules.v6 && LeftoverMark(1) != LeftoverMark(2)
    ensures StaleRule6(p, LeftoverMark(1)) && IfOf(p.c.rt, LeftoverMark(1)) == 2
    ensures StaleRule6(p, LeftoverMark(2)) && IfOf(p.c.rt, LeftoverMark(2)) == 2
  {
    LeftoverIsStale(p, 1);
    LeftoverIsStale(p, 2);
    assert LeftoverMark(1).prio == 501 && LeftoverMark(2).prio == 502;
  }

  lemma NamesAreApart()
    ensures "rb" != "npt" && "rb" != "npt" + "-ndp" && "npt" != "npt" + "-ndp"
  {
    assert |"rb"| == 2 && |"npt"| == 3 && |"npt" + "-ndp"| == 7;
  }

  lemma LeftoverIsStale(p: Pass, mark: nat)
    requires p.c.rt.offset == 100 && p.inv.tables == map[] && mark < 500
    ensures StaleRule6(p, LeftoverMark(mark)) && IfOf(p.c.rt, LeftoverMark(mark)) == 2
  {
    FwmarkLineParses(p.c.rt, FwmarkSpec(mark, 102, FwmarkPriority(mark)));
  }

  // ----- a shadow ----------------------------------------------------------------------------------------------

  /** A table offset of 3, so that eth0, of index 2, has table 5. */
  function ShadowSettings(): Settings {
    SettingsWith(3, Fw(true, "rb", [], []), Npt(None, map[], []))
  }

  function ShadowState(): State {
    StateWith(OneGateway(Gateway4()), map[2 := Address4("10.0.0.1", "")], map[])
  }

  function ShadowSpec(): TableSpec {
    TableSpec(IPv4, 2, "eth0", 5, "10.0.0.1", "", GATEWAY4, 1005)
  }

  /** Left over from an interface of index 49 that had the same address. */
  function ShadowRuleSpec(): TableSpec {
    TableSpec(IPv4, 49, "eth1", 52, "10.0.0.1", "", GATEWAY4, 1052)
  }

  function ShadowRule(): Rule {
    TableRule(ShadowRuleSpec())
  }

  /** Table 5 is there, the rule that leads into it is not. */
  function ShadowKernel(): Kernel {
    KernelWith(Both([DefaultVia(GATEWAY4, "eth0")], []), Both([ShadowRule()], []), map[TableKey(IPv4, 5) := [DefaultLine(ShadowSpec())]])
  }

  function ShadowKeys(): seq<string> {
    [KeyOf(Gateway4())]
  }

  function ShadowPass(): Pass {
    PassOver(ShadowSettings(), ShadowState(), ShadowKeys(), ShadowKernel(), [TableId(IPv4, 2)])
  }

  lemma ShadowTables()
    ensures ShadowPass().inv.tables == map[TableId(IPv4, 2) := ShadowSpec()]
    ensures ShadowPass().inv.tables.Keys == {TableId(IPv4, 2)}
    ensures ShadowPass().inv.fwmarks4 == [] && ShadowPass().inv.fwmarks6 == []
  {
    OneTableWanted(ShadowSettings(), ShadowState(), Gateway4(), ShadowSpec());
  }

  lemma ShadowIsValidated()
    ensures Validated(ShadowSettings())
  {
    NamesAreApart();
  }

  lemma ShadowTable()
    ensures SpecFor(ShadowSettings(), ShadowState(), Gateway4()) == Some(ShadowSpec())
  {
  }

  lemma ShadowPassIsSane()
    ensures Validated(ShadowSettings()) && Sane(ShadowPass())
  {
    ShadowIsValidated();
    ShadowTable();
    OneGatewayIsSane(ShadowSettings(), ShadowState(), Gateway4(), ShadowSpec(), ShadowKernel());
  }

  lemma ShadowPassIsTame()
    ensures TamePass(ShadowPass(), PlainTools(), ShadowKernel())
  {
    ShadowPassIsSane();
    ShadowKernelIsTame();
    ShadowStateIsTame();
    PassIsTame(ShadowPass(), ShadowKernel());
  }

  lemma ShadowKernelIsTame()
    ensures TameKernel(ShadowPass(), ShadowKernel())
  {
    KernelIsTame(ShadowPass(), ShadowKernel());
  }

  lemma ShadowStateIsTame()
    ensures TameSettings(ShadowPass().c) && TameState(ShadowPass())
  {
    SettingsAreTame(ShadowSettings());
    ShadowTexts();
    TameStateWith(ShadowPass());
  }

  lemma AddressIsNoWord()
    ensures "10.0.0.1" != "lookup" && "" != "default" && "" != "lookup"
  {
    assert |"10.0.0.1"| == 8 && |"lookup"| == 6 && |""| == 0 && |"default"| == 7;
  }

  lemma ShadowTexts()
    ensures SoundTables(ShadowPass().inv)
  {
    ShadowTables();
    AddressIsNoWord();
  }

  lemma ShadowSelects()
    ensures Selects(RuleLines([ShadowRule()]), ["from", "10.0.0.1"], 5)
  {
    TenfoldShadows(ShadowRuleSpec(), 5);
    assert ShadowRule() in [ShadowRule()];
    EvidenceIn([ShadowRule()], ["from", "10.0.0.1"], 5);
  }

  /** Two readings of the pass. */
  lemma ShadowIsRead()
    ensures ShadowPass().inst.rules.v4 == Some(RuleLines([ShadowRule()]))
    ensures ContentsOf(ShadowPass().inst, TableId(IPv4, 2)) == Some([DefaultLine(ShadowSpec())])
  {
    var c, st := ShadowSettings(), ShadowState();
    assert TableForIface(c.rt, 2) == Some(5);
    assert TableId(IPv4, 2) in ReadIds(c, st);
    assert ReadContents(c, ShadowKernel(), TableId(IPv4, 2)) == Some([DefaultLine(ShadowSpec())]);
  }

  lemma ShadowIsTaken()
    ensures TableInSync(ShadowSpec(), ShadowPass().inst.rules.v4, ContentsOf(ShadowPass().inst, TableId(IPv4, 2)))
  {
    ShadowIsRead();
    ShadowSelects();
    DefaultLineHasWords(ShadowSpec());
    assert [DefaultLine(ShadowSpec())][0] == DefaultLine(ShadowSpec());
  }

  lemma ShadowIsStale()
    ensures StaleLine4(ShadowPass(), RuleLine(ShadowRule()))
  {
    ShadowTables();
    AddressIsNoWord();
    TableRuleParses(ShadowRuleSpec());
  }

  lemma ItIsTheOnlyShadow()
    ensures OnlyShadow(ShadowPass(), ShadowKernel(), TableId(IPv4, 2), ShadowRule())
  {
    ShadowTables();
    ShadowIsStale();
    ShadowIsTaken();
    ShadowByParts(ShadowPass(), ShadowKernel(), TableId(IPv4, 2), ShadowRule(), ShadowSpec());
  }

  lemma ShadowByParts(p: Pass, k: Kernel, id: TableId, r: Rule, spec: TableSpec)
    requires id.fam.IPv4? && p.inv.tables == map[id := spec] && p.inv.fwmarks4 == [] && k.rules.v4 == [r] && StaleLine4(p, RuleLine(r))
    requires TableInSync(spec, p.inst.rules.v4, ContentsOf(p.inst, id))
    ensures OnlyShadow(p, k, id, r)
  {
  }

  lemma ShadowHopIsGateway()
    ensures GatewayAt(IPv4, Hop(GATEWAY4, "eth0"), ShadowSettings().weights, ShadowState().ifaces) == Some(Gateway4())
  {
  }

  lemma ShadowFromScratch()
    ensures FromScratch(ShadowPass(), PlainTools(), ShadowKernel())
  {
    NamesAreNoWords();
    ShadowHopIsGateway();
    forall at
      ensures ReadFrom(ShadowPass(), PlainTools(), at, ShadowKernel(), map[])
    {
      OneReading(at, ShadowKernel(), IPv4, GATEWAY4, "eth0");
      OneRouteIsReadFrom(ShadowPass(), PlainTools(), at, ShadowKernel(), Gateway4());
    }
  }

  /** The pass takes the rule into table 52 for the wanted one into table 5, and reaps it; the next
      pass finds the wanted rule missing. */
  lemma ShadowHappens()
    ensures Validated(ShadowSettings()) && LeavesWork(ShadowPass(), PlainTools(), ShadowKernel())
  {
    ShadowPassIsSane();
    ShadowPassIsTame();
    ShadowFromScratch();
    ItIsTheOnlyShadow();
    ShadowLeavesWork(ShadowPass(), PlainTools(), ShadowKernel(), TableId(IPv4, 2), ShadowRule());
  }

  // ----- a busy router ---------------------------------------------------------------------------------------------

  const SUBNET := Assign.Block(0xfd00_0000_0000_0001, 64)

  /** Steers a port to eth0 for both families, and translates one subnet behind it. */
  function BusySettings(): Settings {
    Settings(
      RouteOptions(100, 1024, [IPv6], [IPv6]),
      Fw(true, "rb", [Firewall.PortRule("eth0", [443], "tcp")], [Firewall.PortRule("eth0", [443], "tcp")]),
      true,
      Npt(Some(Assign.Block(0xfd00_0000_0000_0000, 48)), map["lan" := SUBNET], ["lan"]),
      NoProxy(),
      map["eth0" := 1])
  }

  function BusyState(): State {
    StateWith(OneGateway(Gateway6()), map[], map["eth0" := Assign.Lease(Assign.Addr(0x2001_0db8_0000_0000, 0), 56)])
  }

  /** Nothing is installed yet. */
  function BusyKernel(): Kernel {
    KernelWith(Both([], [DefaultVia(GATEWAY6, "eth0")]), Both([], []), map[])
  }

  function BusyPass(): Pass {
    PassOver(BusySettings(), BusyState(), [KeyOf(Gateway6())], BusyKernel(), [TableId(IPv6, 2)])
  }

  function BusySpec(): TableSpec {
    TableSpec(IPv6, 2, "eth0", 102, "", "", GATEWAY6, 0)
  }

  function BusyAssignment(): Assign.Assignment {
    Assign.Assignment("eth0", "lan", SUBNET, Assign.SubnetAt(Assign.Addr(0x2001_0db8_0000_0000, 0), 56, 0))
  }

  lemma BusyTables()
    ensures BusyPass().inv.tables == map[TableId(IPv6, 2) := BusySpec()]
    ensures BusyPass().inv.tables.Keys == {TableId(IPv6, 2)}
  {
    BusyTable();
    OneTableWanted(BusySettings(), BusyState(), Gateway6(), BusySpec());
  }

  lemma BusyTable()
    ensures SpecFor(BusySettings(), BusyState(), Gateway6()) == Some(BusySpec())
  {
    assert BusySettings().fw.rules6[0].gateway == "eth0";
  }

  lemma BusyUplinkIsActive()
    ensures "eth0" in ActiveAmong(BusySettings(), BusyState(), BusySettings().npt.uplinks)
  {
    var c, st := BusySettings(), BusyState();
    assert KeyOf(Gateway6()) in st.gateways;
    assert UplinkActive(c, st, c.npt.uplinks[0].name);
  }

  lemma BusyAssignments()
    ensures BusyPass().inv.assignments == [BusyAssignment()]
  {
    var c, st := BusySettings(), BusyState();
    var u, lease := c.npt.uplinks[0], st.leases["eth0"];
    BusyUplinkIsActive();
    assert Assign.AssignedAll(c.npt, c.npt.uplinks[..0], st.leases, ActiveAmong(c, st, c.npt.uplinks)) == [];
    assert Assign.Known(c.npt.subnets, u.subnetPriority[..0]) == [];
    assert Assign.Known(c.npt.subnets, u.subnetPriority) == ["lan"];
    assert Assign.SlotsFor(lease.length) >= 1;
    assert Assign.AssignedTo(c.npt, u, lease) == [BusyAssignment()];
  }

  function Steer(): Firewall.PortRule {
    Firewall.PortRule("eth0", [443], "tcp")
  }

  lemma SteeredHasMark(family: Firewall.Family)
    requires Firewall.Sources(family, "eth0") != []
    ensures Firewall.MarkRules(["eth0"], family, [Steer()]) != []
  {
    var rules := [Steer()];
    var sources, protos := Firewall.Sources(family, "eth0"), Firewall.ProtocolsFor("tcp");
    assert Firewall.Mark(["eth0"], "eth0") == 1;
    var n := |sources| - 1;
    assert |Firewall.PerProtocol(protos, Firewall.PortText([443]), 1, sources[n])| == 1;
    assert Firewall.RulesOf(["eth0"], family, Steer()) != [];
    assert rules[..0] == [];
  }

  lemma BusyMarks()
    ensures BusyPass().inv.marks != [] && BusyPass().inv.marks6 != []
  {
    var mapped := MappedSubnets([BusyAssignment()]);
    BusyAssignments();
    SteeredHasMark(Firewall.V4);
    assert Firewall.Prefixes(mapped[..0], "eth0") == [];
    assert Firewall.Sources(Firewall.V6(mapped), "eth0") != [];
    SteeredHasMark(Firewall.V6(mapped));
  }

  lemma BusyMarkRules()
    ensures BusyPass().inv.fwmarks4 != [] && BusyPass().inv.fwmarks6 != []
  {
    var c, st, f := BusySettings(), BusyState(), FwmarkSpec(1, 102, FwmarkPriority(1));
    BusyTables();
    assert Firewall.Mark(c.fw.gateways, "eth0") == 1;
    assert SpecOfRule(c, st, Steer()) == Some(f);
    assert Steer() in c.fw.rules && Steer() in c.fw.rules6;
    Fwmarks4Members(c, st, c.fw.rules, f);
    SortMarksKeeps(Fwmarks4(c, st, c.fw.rules), f);
    Fwmarks6Members(c, st, BusyPass().inv.tables, c.fw.rules6, f);
    SortMarksKeeps(Fwmarks6(c, st, BusyPass().inv.tables, c.fw.rules6), f);
  }

  /** What the busy router wants: a route, a table and its default route, fwmark and mark rules of
      both families, and a translation. */
  lemma BusyRouterWants()
    ensures var inv := BusyPass().inv;
            && inv.ecmp[IPv6] == Want([Nexthop(GATEWAY6, "eth0", 1)])
            && inv.tables == map[TableId(IPv6, 2) := BusySpec()]
            && inv.fwmarks4 != [] && inv.fwmarks6 != [] && inv.marks != [] && inv.marks6 != []
            && inv.assignments == [BusyAssignment()] && inv.ruleset.Some?
  {
    BusyRoute();
    BusyTables();
    BusyMarkRules();
    BusyMarks();
    BusyAssignments();
    BusyRuleset();
  }

  lemma BusyRuleset()
    ensures BusyPass().inv.ruleset.Some?
  {
    BusyAssignments();
  }

  lemma BusyRoute()
    ensures BusyPass().inv.ecmp[IPv6] == Want([Nexthop(GATEWAY6, "eth0", 1)])
  {
    OneGatewayRoute(Gateway6(), BusyState().unhealthy);
  }

  lemma BusyIsValidated()
    ensures Validated(BusySettings())
  {
    NamesAreApart();
  }

  lemma BusyPassIsSane()
    ensures Sane(BusyPass())
  {
    BusyIsValidated();
    BusyTable();
    OneGatewayIsSane(BusySettings(), BusyState(), Gateway6(), BusySpec(), BusyKernel());
  }

  lemma KernelIsTame6(p: Pass, k: Kernel)
    requires p.c.rt.managed == [IPv6] && p.c.rt.ipv6Metric == 1024 && k.foreign.v6 == [DefaultVia(GATEWAY6, "eth0")]
    requires k.ipt == Firewall.IptState(None, {}) && k.rules == Both([], [])
    ensures TameKernel(p, k)
  {
    MetricOfDefault(GATEWAY6, "eth0");
  }

  lemma BusyKernelIsTame()
    ensures TameKernel(BusyPass(), BusyKernel())
  {
    KernelIsTame6(BusyPass(), BusyKernel());
  }

  lemma BusySettingsAreTame()
    ensures TameSettings(BusyPass().c)
  {
    SettingsAreTame(BusySettings());
  }

  lemma BusyTexts()
    ensures SoundTables(BusyPass().inv)
  {
    BusyTables();
    AddressIsNoWord();
  }

  lemma BusyStateIsTame()
    ensures TameState(BusyPass())
  {
    BusyTexts();
    TameStateWith(BusyPass());
  }

  lemma BusyPassIsTame()
    ensures TamePass(BusyPass(), PlainTools(), BusyKernel())
  {
    BusyPassIsSane();
    BusyKernelIsTame();
    BusySettingsAreTame();
    BusyStateIsTame();
    PassIsTame(BusyPass(), BusyKernel());
  }

  /** A tame pass, and the next batch is empty. */
  ghost predicate Finishes(p: Pass, t: Tools, k: Kernel) {
    TamePass(p, t, k) && FromScratch(p, t, k) && BatchOf(NextPass(p, t, k)) == []
  }

  lemma NoRulesFinishes(p: Pass, t: Tools, k: Kernel)
    requires TamePass(p, t, k) && FromScratch(p, t, k) && !NameClash(p.c, p.inv) && k.rules == Both([], [])
    ensures Finishes(p, t, k)
  {
    NoRulesNoShadows(p, k);
    NoShadowsNothingLost(p, t, k);
    NextPassIsQuiet(p, t, k);
  }

  lemma NoRulesNoShadows(p: Pass, k: Kernel)
    requires k.rules == Both([], [])
    ensures NoShadows(p, k)
  {
  }

  lemma BusyHopIsGateway()
    ensures GatewayAt(IPv6, Hop(GATEWAY6, "eth0"), BusySettings().weights, BusyState().ifaces) == Some(Gateway6())
  {
  }

  lemma BusyFromScratch()
    ensures FromScratch(BusyPass(), PlainTools(), BusyKernel())
  {
    NamesAreNoWords();
    BusyHopIsGateway();
    forall at
      ensures ReadFrom(BusyPass(), PlainTools(), at, BusyKernel(), map[])
    {
      OneReading(at, BusyKernel(), IPv6, GATEWAY6, "eth0");
      OneRouteIsReadFrom(BusyPass(), PlainTools(), at, BusyKernel(), Gateway6());
    }
  }

  /** One pass of the busy router, from nothing, puts all of that in place: the next batch is empty. */
  lemma BusyRouterFinishes()
    ensures Finishes(BusyPass(), PlainTools(), BusyKernel())
  {
    BusyPassIsTame();
    BusyFromScratch();
    NamesAreApart();
    NoRulesFinishes(BusyPass(), PlainTools(), BusyKernel());
  }
}
