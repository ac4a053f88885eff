/** From settings and state to the inventory of everything that should be installed. */
module Desired {
  import opened Common
  import opened Numbers
  import opened Routes
  import opened Gateways
  import HealthProtocol
  import Firewall
  import Assign
  import Translation
  import Learning
  import Claims

  datatype RouteOptions = RouteOptions(offset: nat, ipv6Metric: nat, managed: seq<Fam>, observed: seq<Fam>)

  datatype FirewallOptions = FirewallOptions(
    nftables: bool,
    chain: string,
    table: string,
    gateways: seq<string>,
    rules: seq<Firewall.PortRule>,
    rules6: seq<Firewall.PortRule>)

  datatype ProxyUplink = ProxyUplink(name: string, prefixes: seq<Assign.Block>)

  /** Timeout and size of the learning set, as printed. */
  datatype ProxyOptions = ProxyOptions(table: string, uplinks: seq<ProxyUplink>, timeout: string, size: string)

  datatype Settings = Settings(
    rt: RouteOptions,
    fw: FirewallOptions,
    translates: bool,
    npt: Assign.Options,
    nd: ProxyOptions,
    weights: Weights)

  /** An interface's own IPv4 address, and its subnet unless it is a host address. */
  datatype Address4 = Address4(ip: string, subnet: string)

  datatype State = State(
    gateways: map<string, Gateway>,
    unhealthy: Unhealthy,
    ifaces: map<string, nat>,
    addrs: map<nat, Address4>,
    linksStale: bool,
    leases: map<string, Assign.Lease>,
    hosts: seq<Assign.Host>)

  datatype EcmpEntry = Retain | Want(nexthops: seq<Nexthop>)

  datatype TableId = TableId(fam: Fam, ifIndex: nat)

  datatype TableSpec = TableSpec(fam: Fam, ifIndex: nat, ifName: string, table: nat, src: string, subnet: string, via: string, prio: nat)

  datatype FwmarkSpec = FwmarkSpec(mark: nat, table: nat, prio: nat)

  datatype Inventory = Inventory(
    ecmp: map<Fam, EcmpEntry>,
    tables: map<TableId, TableSpec>,
    fwmarks4: seq<FwmarkSpec>,
    fwmarks6: seq<FwmarkSpec>,
    marks: seq<Firewall.MarkRule>,
    marks6: seq<Firewall.MarkRule>,
    assignments: seq<Assign.Assignment>,
    guarded: seq<string>,
    ruleset: Option<Translation.Table>,
    nptRules: set<Translation.Key>,
    learn: seq<Learning.LearnRule>,
    proxy: set<Claims.Entry>)

  const RESERVED_TABLE := 253

  /** None for an interface whose table would be one of the kernel's own. */
  function TableForIface(rt: RouteOptions, ifIndex: nat): Option<nat> {
    var table := rt.offset + ifIndex;
    if 0 < table < RESERVED_TABLE then Some(table) else None
  }

  function GatewayPriority(table: nat): nat {
    1000 + table
  }

  function EcmpMetric(rt: RouteOptions, fam: Fam): nat {
    if fam.IPv6? then rt.ipv6Metric else 0
  }

  function FwmarkPriority(mark: nat): nat {
    500 + mark
  }

  function FwmarkFor(rt: RouteOptions, mark: nat, ifIndex: nat): Option<FwmarkSpec> {
    match TableForIface(rt, ifIndex)
    case None => None
    case Some(table) => Some(FwmarkSpec(mark, table, FwmarkPriority(mark)))
  }

  // ----- the parts, as functions of settings and state ------------------------------------------

  function EcmpFor(managed: seq<Fam>, st: State, keys: seq<string>): map<Fam, EcmpEntry>
    requires forall k :: k in keys ==> k in st.gateways
  {
    map fam | fam in managed :: EcmpEntryFor(st, keys, fam)
  }

  function EcmpEntryFor(st: State, keys: seq<string>, fam: Fam): EcmpEntry
    requires forall k :: k in keys ==> k in st.gateways
  {
    var ns := ActiveNexthops(st.gateways, keys, st.unhealthy, fam);
    if ns == [] then Retain else Want(ns)
  }

  lemma EcmpOneMore(managed: seq<Fam>, i: nat, st: State, keys: seq<string>)
    requires i < |managed| && forall k :: k in keys ==> k in st.gateways
    ensures EcmpFor(managed[..i + 1], st, keys) == EcmpFor(managed[..i], st, keys)[managed[i] := EcmpEntryFor(st, keys, managed[i])]
  {
    assert managed[..i + 1] == managed[..i] + [managed[i]];
  }

  function V4Spec(rt: RouteOptions, st: State, gw: Gateway): Option<TableSpec> {
    if gw.fam != IPv4 || gw.ifIndex !in st.addrs then None
    else
      match TableForIface(rt, gw.ifIndex)
      case None => None
      case Some(table) =>
        var addr := st.addrs[gw.ifIndex];
        Some(TableSpec(IPv4, gw.ifIndex, gw.ifName, table, addr.ip, addr.subnet, gw.ip, GatewayPriority(table)))
  }

  predicate Steered(rules: seq<Firewall.PortRule>, ifName: string) {
    exists i :: 0 <= i < |rules| && rules[i].gateway == ifName
  }

  function V6Spec(c: Settings, gw: Gateway): Option<TableSpec> {
    if gw.fam != IPv6 || !Steered(c.fw.rules6, gw.ifName) then None
    else
      match TableForIface(c.rt, gw.ifIndex)
      case None => None
      case Some(table) => Some(TableSpec(IPv6, gw.ifIndex, gw.ifName, table, "", "", gw.ip, 0))
  }

  function SpecFor(c: Settings, st: State, gw: Gateway): Option<TableSpec> {
    if gw.fam.IPv4? then V4Spec(c.rt, st, gw) else V6Spec(c, gw)
  }

  /** Of several gateways behind one interface the last in key order gives the table. */
  function TablesFor(c: Settings, st: State, keys: seq<string>, fam: Fam): map<TableId, TableSpec>
    requires forall k :: k in keys ==> k in st.gateways
  {
    if keys == [] then map[]
    else
      var n := |keys| - 1;
      var before := TablesFor(c, st, keys[..n], fam);
      var gw := st.gateways[keys[n]];
      var spec := if gw.fam == fam then SpecFor(c, st, gw) else None;
      if spec.None? then before else before[TableId(fam, gw.ifIndex) := spec.value]
  }

  function SpecOfRule(c: Settings, st: State, rule: Firewall.PortRule): Option<FwmarkSpec> {
    var mark := Firewall.Mark(c.fw.gateways, rule.gateway);
    if mark == 0 || rule.gateway !in st.ifaces then None
    else FwmarkFor(c.rt, mark, st.ifaces[rule.gateway])
  }

  /** An IPv6 rule only steers into a table that is built. */
  function Spec6OfRule(c: Settings, st: State, tables: map<TableId, TableSpec>, rule: Firewall.PortRule): Option<FwmarkSpec> {
    if rule.gateway in st.ifaces && TableId(IPv6, st.ifaces[rule.gateway]) in tables
    then SpecOfRule(c, st, rule) else None
  }

  function Fwmarks4(c: Settings, st: State, rules: seq<Firewall.PortRule>): seq<FwmarkSpec> {
    if rules == [] then []
    else
      var n := |rules| - 1;
      var spec := SpecOfRule(c, st, rules[n]);
      Fwmarks4(c, st, rules[..n]) + if spec.None? then [] else [spec.value]
  }

  function Fwmarks6(c: Settings, st: State, tables: map<TableId, TableSpec>, rules: seq<Firewall.PortRule>): seq<FwmarkSpec> {
    if rules == [] then []
    else
      var n := |rules| - 1;
      var spec := Spec6OfRule(c, st, tables, rules[n]);
      Fwmarks6(c, st, tables, rules[..n]) + if spec.None? then [] else [spec.value]
  }

  function PlaceMark(specs: seq<FwmarkSpec>, x: FwmarkSpec): seq<FwmarkSpec> {
    if specs == [] then [x]
    else
      var n := |specs| - 1;
      if x.mark < specs[n].mark then PlaceMark(specs[..n], x) + [specs[n]] else specs + [x]
  }

  function SortMarks(specs: seq<FwmarkSpec>): seq<FwmarkSpec> {
    if specs == [] then [] else PlaceMark(SortMarks(specs[..|specs| - 1]), specs[|specs| - 1])
  }

  /** An uplink that is also a gateway translates while its IPv6 side is healthy and some
      default route of positive weight uses it. */
  predicate UplinkActive(c: Settings, st: State, name: string) {
    || name !in c.weights
    || (HealthProtocol.Key(name, IPv6) !in st.unhealthy
        && exists k :: k in st.gateways && st.gateways[k].ifName == name && st.gateways[k].weight > 0)
  }

  function ActiveAmong(c: Settings, st: State, uplinks: seq<Assign.Uplink>): set<string> {
    set i | 0 <= i < |uplinks| && UplinkActive(c, st, uplinks[i].name) :: uplinks[i].name
  }

  function AssignmentsOf(c: Settings, st: State): seq<Assign.Assignment> {
    if !c.translates then [] else Assign.AssignedAll(c.npt, c.npt.uplinks, st.leases, ActiveAmong(c, st, c.npt.uplinks))
  }

  /** A prefix as printed. Only its being injective is used. */
  function BlockText(b: Assign.Block): string {
    Itoa(b.hi) + "/" + Itoa(b.len)
  }

  function MappedSubnets(list: seq<Assign.Assignment>): seq<Firewall.Mapped> {
    seq(|list|, i requires 0 <= i < |list| => Firewall.Mapped(list[i].uplink, BlockText(list[i].internal)))
  }

  function LearnOf(u: ProxyUplink): seq<Learning.LearnRule> {
    seq(|u.prefixes|, i requires 0 <= i < |u.prefixes| => Learning.LearnRule(u.prefixes[i], u.name))
  }

  function LearnRules(uplinks: seq<ProxyUplink>): seq<Learning.LearnRule> {
    if uplinks == [] then []
    else LearnRules(uplinks[..|uplinks| - 1]) + LearnOf(uplinks[|uplinks| - 1])
  }

  function UplinkNames(uplinks: seq<ProxyUplink>): set<string> {
    set u | u in uplinks :: u.name
  }

  function Proxies(c: Settings): bool {
    c.nd.uplinks != []
  }

  /** The whole inventory; keys is the text order of the gateway keys. */
  function InventoryFor(c: Settings, st: State, keys: seq<string>): Inventory
    requires forall k :: k in keys ==> k in st.gateways
  {
    var list := AssignmentsOf(c, st);
    var tables4 := TablesFor(c, st, keys, IPv4);
    var tables6 := if c.fw.rules6 == [] then map[] else TablesFor(c, st, keys, IPv6);
    Inventory(
      EcmpFor(c.rt.managed, st, keys),
      tables4 + tables6,
      SortMarks(Fwmarks4(c, st, c.fw.rules)),
      if c.fw.rules6 == [] then [] else SortMarks(Fwmarks6(c, st, tables4 + tables6, c.fw.rules6)),
      Firewall.MarkRules(c.fw.gateways, Firewall.V4, c.fw.rules),
      Firewall.MarkRules(c.fw.gateways, Firewall.V6(MappedSubnets(list)), c.fw.rules6),
      list,
      if c.translates then Translation.Guards(c.npt, list) else [],
      if c.translates then Translation.TableFor(c.npt, list) else None,
      if c.translates then Translation.KeysFor(c.npt, list) else {},
      if c.translates && Proxies(c) then LearnRules(c.nd.uplinks) else [],
      if c.translates && Proxies(c) then Assign.EntriesOf(list, st.hosts, UplinkNames(c.nd.uplinks)) else {})
  }

  // ----- filling the inventory -------------------------------------------------------------------

  lemma PutAfterMerge<K, V>(a: map<K, V>, b: map<K, V>, k: K, v: V)
    ensures (a + b)[k := v] == a + b[k := v]
  {
  }

  class Draft {
    const c: Settings
    const st: State
    const keys: seq<string>
    var ecmp: map<Fam, EcmpEntry>
    var tables: map<TableId, TableSpec>
    var fwmarks4: seq<FwmarkSpec>
    var fwmarks6: seq<FwmarkSpec>
    var marks: seq<Firewall.MarkRule>
    var marks6: seq<Firewall.MarkRule>
    var assignments: seq<Assign.Assignment>

    ghost predicate Valid() {
      && Sorts(keys, st.gateways.Keys)
      && forall k :: k in keys ==> k in st.gateways
    }

    constructor (c: Settings, st: State, keys: seq<string>)
      requires Sorts(keys, st.gateways.Keys) && forall k :: k in keys ==> k in st.gateways
      ensures Valid() && this.c == c && this.st == st && this.keys == keys
      ensures ecmp == map[] && tables == map[] && fwmarks4 == fwmarks6 == [] && marks == marks6 == [] && assignments == []
    {
      this.c, this.st, this.keys := c, st, keys;
      ecmp, tables, fwmarks4, fwmarks6, marks, marks6, assignments := map[], map[], [], [], [], [], [];
    }

    method DesiredECMP()
      requires Valid() && ecmp == map[]
      modifies this`ecmp
      ensures ecmp == EcmpFor(c.rt.managed, st, keys)
    {
      for i := 0 to |c.rt.managed|
        invariant ecmp == EcmpFor(c.rt.managed[..i], st, keys)
      {
        var fam := c.rt.managed[i];
        EcmpOneMore(c.rt.managed, i, st, keys);
        var nexthops := FindActiveNexthops(st.gateways, keys, st.unhealthy, fam);
        if |nexthops| == 0 {
          ecmp := ecmp[fam := Retain];
          continue;
        }
        ecmp := ecmp[fam := Want(nexthops)];
      }
      assert c.rt.managed[..|c.rt.managed|] == c.rt.managed;
    }

    /** The tables of one family, added to those already there. */
    method DesiredTables(fam: Fam)
      requires Valid()
      modifies this`tables
      ensures tables == old(tables) + TablesFor(c, st, keys, fam)
    {
      for i := 0 to |keys|
        invariant tables == old(tables) + TablesFor(c, st, keys[..i], fam)
      {
        assert keys[..i + 1][..i] == keys[..i];
        var gw := st.gateways[keys[i]];
        if gw.fam != fam {
          continue;
        }
        var spec := SpecFor(c, st, gw);
        if spec.Some? {
          PutAfterMerge(old(tables), TablesFor(c, st, keys[..i], fam), TableId(fam, gw.ifIndex), spec.value);
          tables := tables[TableId(fam, gw.ifIndex) := spec.value];
        }
      }
      assert keys[..|keys|] == keys;
    }

    method DesiredFwmarks()
      modifies this`fwmarks4, this`marks
      ensures fwmarks4 == SortMarks(Fwmarks4(c, st, c.fw.rules))
      ensures marks == Firewall.MarkRules(c.fw.gateways, Firewall.V4, c.fw.rules)
    {
      var specs: seq<FwmarkSpec> := [];
      for i := 0 to |c.fw.rules|
        invariant specs == Fwmarks4(c, st, c.fw.rules[..i])
      {
        assert c.fw.rules[..i + 1][..i] == c.fw.rules[..i];
        var spec := SpecOfRule(c, st, c.fw.rules[i]);
        if spec.Some? {
          specs := specs + [spec.value];
        }
      }
      assert c.fw.rules[..|c.fw.rules|] == c.fw.rules;
      fwmarks4 := SortMarks(specs);
      marks := Firewall.DesiredMarkRules(c.fw.gateways, Firewall.V4, c.fw.rules);
    }

    method DesiredIPv6Marks()
      requires Valid() && fwmarks6 == [] && marks6 == []
      requires tables == TablesFor(c, st, keys, IPv4)
      modifies this`tables, this`fwmarks6, this`marks6
      ensures var tables6 := if c.fw.rules6 == [] then map[] else TablesFor(c, st, keys, IPv6);
              && tables == old(tables) + tables6
              && fwmarks6 == if c.fw.rules6 == [] then [] else SortMarks(Fwmarks6(c, st, tables, c.fw.rules6))
      ensures marks6 == Firewall.MarkRules(c.fw.gateways, Firewall.V6(MappedSubnets(assignments)), c.fw.rules6)
    {
      if |c.fw.rules6| == 0 {
        return;
      }
      DesiredTables(IPv6);
      var specs: seq<FwmarkSpec> := [];
      for i := 0 to |c.fw.rules6|
        invariant specs == Fwmarks6(c, st, tables, c.fw.rules6[..i])
      {
        assert c.fw.rules6[..i + 1][..i] == c.fw.rules6[..i];
        var spec := Spec6OfRule(c, st, tables, c.fw.rules6[i]);
        if spec.Some? {
          specs := specs + [spec.value];
        }
      }
      assert c.fw.rules6[..|c.fw.rules6|] == c.fw.rules6;
      fwmarks6 := SortMarks(specs);
      marks6 := Firewall.DesiredMarkRules(c.fw.gateways, Firewall.V6(MappedSubnets(assignments)), c.fw.rules6);
    }

    method Fill(list: seq<Assign.Assignment>)
      requires Valid() && ecmp == map[] && tables == map[] && fwmarks6 == [] && marks6 == []
      modifies this
      ensures ecmp == EcmpFor(c.rt.managed, st, keys)
      ensures var tables6 := if c.fw.rules6 == [] then map[] else TablesFor(c, st, keys, IPv6);
              && tables == TablesFor(c, st, keys, IPv4) + tables6
              && fwmarks6 == if c.fw.rules6 == [] then [] else SortMarks(Fwmarks6(c, st, tables, c.fw.rules6))
      ensures fwmarks4 == SortMarks(Fwmarks4(c, st, c.fw.rules))
      ensures marks == Firewall.MarkRules(c.fw.gateways, Firewall.V4, c.fw.rules)
      ensures marks6 == Firewall.MarkRules(c.fw.gateways, Firewall.V6(MappedSubnets(list)), c.fw.rules6)
    {
      assignments := list;
      DesiredECMP();
      DesiredTables(IPv4);
      DesiredFwmarks();
      DesiredIPv6Marks();
    }
  }

  method FindActiveUplinks(c: Settings, st: State) returns (active: set<string>)
    ensures active == ActiveAmong(c, st, c.npt.uplinks)
  {
    active := {};
    var uplinks := c.npt.uplinks;
    for i := 0 to |uplinks|
      invariant active == ActiveAmong(c, st, uplinks[..i])
    {
      assert uplinks[..i + 1] == uplinks[..i] + [uplinks[i]];
      assert forall k :: 0 <= k < i ==> uplinks[..i + 1][k] == uplinks[..i][k];
      var on := UplinkActive(c, st, uplinks[i].name);
      ActiveOneMore(c, st, uplinks, i);
      if on {
        active := active + {uplinks[i].name};
      }
    }
    assert uplinks[..|uplinks|] == uplinks;
  }

  lemma ActiveOneMore(c: Settings, st: State, uplinks: seq<Assign.Uplink>, i: nat)
    requires i < |uplinks|
    ensures ActiveAmong(c, st, uplinks[..i + 1]) ==
            ActiveAmong(c, st, uplinks[..i]) + if UplinkActive(c, st, uplinks[i].name) then {uplinks[i].name} else {}
  {
    var more, less := uplinks[..i + 1], uplinks[..i];
    assert more == less + [uplinks[i]];
    forall name | name in ActiveAmong(c, st, less)
      ensures name in ActiveAmong(c, st, more)
    {
      var k :| 0 <= k < i && UplinkActive(c, st, less[k].name) && less[k].name == name;
      assert more[k] == less[k];
    }
    if UplinkActive(c, st, uplinks[i].name) {
      assert more[i] == uplinks[i];
    }
  }

  method DesiredNptv6(c: Settings, st: State)
    returns (list: seq<Assign.Assignment>, guarded: seq<string>, ruleset: Option<Translation.Table>, rules: set<Translation.Key>)
    requires Assign.DistinctNames(c.npt.uplinks)
    ensures list == AssignmentsOf(c, st)
    ensures guarded == if c.translates then Translation.Guards(c.npt, list) else []
    ensures ruleset == if c.translates then Translation.TableFor(c.npt, list) else None
    ensures rules == if c.translates then Translation.KeysFor(c.npt, list) else {}
  {
    if !c.translates {
      return [], [], None, {};
    }
    var active := FindActiveUplinks(c, st);
    var dropped;
    list, dropped := Assign.AssignmentsFor(c.npt, st.leases, active);
    guarded := Translation.GuardUplinks(c.npt, list);
    ruleset := Translation.Ruleset(c.npt, list);
    rules := Translation.DesiredRules(c.npt, list);
  }

  /** The inventory of a state; the ranges over the gateway map go in the text order of its keys. */
  ghost predicate Computed(c: Settings, st: State, inv: Inventory) {
    exists keys :: Sorts(keys, st.gateways.Keys) && (forall k :: k in keys ==> k in st.gateways) && inv == InventoryFor(c, st, keys)
  }

  method ComputeInventory(c: Settings, st: State) returns (inv: Inventory)
    requires Assign.DistinctNames(c.npt.uplinks)
    ensures Computed(c, st, inv)
  {
    var order := SortedKeys(st.gateways);
    assert forall k :: k in order ==> k in Range(order);
    var list, guarded, ruleset, rules := DesiredNptv6(c, st);
    var draft := new Draft(c, st, order);
    draft.Fill(list);
    var learn: seq<Learning.LearnRule> := [];
    var proxy: set<Claims.Entry> := {};
    if c.translates && Proxies(c) {
      learn := LearnRules(c.nd.uplinks);
      proxy := Assign.DesiredEntries(list, st.hosts, UplinkNames(c.nd.uplinks));
    }
    inv := Inventory(draft.ecmp, draft.tables, draft.fwmarks4, draft.fwmarks6, draft.marks, draft.marks6,
                     list, guarded, ruleset, rules, learn, proxy);
  }
}
