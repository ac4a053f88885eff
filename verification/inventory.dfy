/** What holds of every inventory. */
module InventoryFacts {
  import opened Common
  import opened Numbers
  import opened Routes
  import opened Gateways
  import opened Desired
  import opened Bits
  import opened Text
  import HealthProtocol
  import Firewall
  import FirewallMeaning
  import Assign
  import Translation
  import TranslationMeaning

  /** The checks a configuration passes before the daemon starts. */
  ghost predicate Validated(c: Settings) {
    && c.rt.offset + 2 <= RESERVED_TABLE
    && Distinct(c.fw.gateways) && |c.fw.gateways| < INT32_LIMIT
    && Assign.DistinctNames(c.npt.uplinks)
    && (c.fw.rules6 != [] ==> c.translates && c.fw.nftables)
    && (Proxies(c) ==> c.translates)
    && c.nd.table == c.npt.table + "-ndp"
    && (c.fw.nftables && c.translates ==> c.fw.table != c.npt.table)
    && (c.fw.nftables && Proxies(c) ==> c.fw.table != c.nd.table)
  }

  /** One state has one inventory. */
  lemma InventoryIsUnique(c: Settings, st: State, a: Inventory, b: Inventory)
    requires Computed(c, st, a) && Computed(c, st, b)
    ensures a == b
  {
    var k :| Sorts(k, st.gateways.Keys) && (forall x :: x in k ==> x in st.gateways) && a == InventoryFor(c, st, k);
    var l :| Sorts(l, st.gateways.Keys) && (forall x :: x in l ==> x in st.gateways) && b == InventoryFor(c, st, l);
    SortIsUnique(k, l, st.gateways.Keys);
  }

  // ----- the managed route --------------------------------------------------------------------

  /** Fit to be installed: at least one nexthop, strictly ordered by device and address, none
      twice; and exactly the gateways of the family whose link's side has not failed and whose
      weight is positive. */
  ghost predicate Installable(st: State, fam: Fam, ns: seq<Nexthop>) {
    && ns != [] && DistinctHops(ns)
    && (forall i, j :: 0 <= i < j < |ns| ==>
          if ns[i].dev != ns[j].dev then Less(ns[i].dev, ns[j].dev) else Less(ns[i].via, ns[j].via))
    && forall x :: x in ns <==>
         exists k :: k in st.gateways && st.gateways[k].fam == fam
           && HealthProtocol.Key(st.gateways[k].ifName, fam) !in st.unhealthy && st.gateways[k].weight > 0
           && x == Nexthop(st.gateways[k].ip, st.gateways[k].ifName, st.gateways[k].weight)
  }

  /** A managed family is wanted or retained, never absent; what is wanted is installable, and
      it is retained exactly when every gateway of the family has failed or has no weight. */
  lemma EcmpIsInstallable(c: Settings, st: State, inv: Inventory, fam: Fam)
    requires Computed(c, st, inv) && Consistent(st.gateways)
    ensures fam in inv.ecmp <==> fam in c.rt.managed
    ensures fam in inv.ecmp && inv.ecmp[fam].Want? ==> Installable(st, fam, inv.ecmp[fam].nexthops)
    ensures fam in inv.ecmp ==>
              (inv.ecmp[fam].Retain? <==>
                 forall k :: k in st.gateways && st.gateways[k].fam == fam ==>
                   HealthProtocol.Key(st.gateways[k].ifName, fam) in st.unhealthy || st.gateways[k].weight <= 0)
  {
    var keys :| Sorts(keys, st.gateways.Keys) && (forall k :: k in keys ==> k in st.gateways) && inv == InventoryFor(c, st, keys);
    EntryIsInstallable(st, keys, fam);
    assert fam in inv.ecmp ==> inv.ecmp[fam] == EcmpEntryFor(st, keys, fam);
  }

  lemma EntryIsInstallable(st: State, keys: seq<string>, fam: Fam)
    requires Sorts(keys, st.gateways.Keys) && (forall k :: k in keys ==> k in st.gateways) && Consistent(st.gateways)
    ensures EcmpEntryFor(st, keys, fam).Want? ==> Installable(st, fam, EcmpEntryFor(st, keys, fam).nexthops)
    ensures EcmpEntryFor(st, keys, fam).Retain? <==>
            forall k :: k in st.gateways && st.gateways[k].fam == fam ==>
              HealthProtocol.Key(st.gateways[k].ifName, fam) in st.unhealthy || st.gateways[k].weight <= 0
  {
    ActiveNexthopsAre(st.gateways, keys, st.unhealthy, fam);
    var ns := ActiveNexthops(st.gateways, keys, st.unhealthy, fam);
    if ns != [] {
      assert ns[0] in ns;
    }
    forall k | k in st.gateways && st.gateways[k].fam == fam
               && HealthProtocol.Key(st.gateways[k].ifName, fam) !in st.unhealthy && st.gateways[k].weight > 0
      ensures Nexthop(st.gateways[k].ip, st.gateways[k].ifName, st.gateways[k].weight) in ns
    {
    }
  }

  // ----- assignments ------------------------------------------------------------------------------

  /** Exactly when a configured uplink has assignments: it translates, holds a delegation of 1 to 64
      bits, names a subnet that exists; and, if it is also a gateway, its IPv6 side has not failed
      and some gateway of positive weight stands behind it. */
  lemma UplinkMapsExactly(c: Settings, st: State, inv: Inventory, u: Assign.Uplink)
    requires Computed(c, st, inv) && Assign.DistinctNames(c.npt.uplinks) && u in c.npt.uplinks
    ensures (exists a :: a in inv.assignments && a.uplink == u.name) <==>
            && c.translates && u.name in st.leases && 0 < st.leases[u.name].length <= 64
            && (exists s :: s in u.subnetPriority && s in c.npt.subnets)
            && (u.name in c.weights ==>
                  && HealthProtocol.Key(u.name, IPv6) !in st.unhealthy
                  && exists k :: k in st.gateways && st.gateways[k].ifName == u.name && st.gateways[k].weight > 0)
  {
    if c.translates {
      var i :| 0 <= i < |c.npt.uplinks| && c.npt.uplinks[i] == u;
      UplinkMaps(c.npt, c.npt.uplinks, st.leases, ActiveAmong(c, st, c.npt.uplinks), i);
      SomethingIsMapped(c.npt, u, st.leases);
      if u.name in ActiveAmong(c, st, c.npt.uplinks) {
        var j :| 0 <= j < |c.npt.uplinks| && UplinkActive(c, st, c.npt.uplinks[j].name) && c.npt.uplinks[j].name == u.name;
      }
    }
  }

  lemma {:induction false} UplinkMaps(o: Assign.Options, uplinks: seq<Assign.Uplink>, leases: map<string, Assign.Lease>, active: set<string>, i: nat)
    requires Assign.DistinctNames(uplinks) && i < |uplinks|
    ensures forall a :: a in Assign.AssignedAll(o, uplinks, leases, active) && a.uplink == uplinks[i].name <==>
              && uplinks[i].name in leases && uplinks[i].name in active
              && a in Assign.AssignedTo(o, uplinks[i], leases[uplinks[i].name])
  {
    var n := |uplinks| - 1;
    if i < n {
      UplinkMaps(o, uplinks[..n], leases, active, i);
    } else {
      OthersMapElsewhere(o, uplinks[..n], leases, active, uplinks[n].name);
    }
  }

  lemma {:induction false} OthersMapElsewhere(o: Assign.Options, uplinks: seq<Assign.Uplink>, leases: map<string, Assign.Lease>, active: set<string>, name: string)
    requires forall u :: u in uplinks ==> u.name != name
    ensures forall a :: a in Assign.AssignedAll(o, uplinks, leases, active) ==> a.uplink != name
  {
    if uplinks != [] {
      var n := |uplinks| - 1;
      assert uplinks[n] in uplinks && forall u :: u in uplinks[..n] ==> u in uplinks;
      OthersMapElsewhere(o, uplinks[..n], leases, active, name);
    }
  }

  lemma SomethingIsMapped(o: Assign.Options, u: Assign.Uplink, leases: map<string, Assign.Lease>)
    ensures u.name in leases ==>
              ((exists a :: a in Assign.AssignedTo(o, u, leases[u.name])) <==>
                 0 < leases[u.name].length <= 64 && exists s :: s in u.subnetPriority && s in o.subnets)
  {
    if u.name in leases {
      KnownMeans(o.subnets, u.subnetPriority);
      var known, list := Assign.Known(o.subnets, u.subnetPriority), Assign.AssignedTo(o, u, leases[u.name]);
      assert known != [] ==> known[0] in known;
      assert list != [] ==> list[0] in list;
    }
  }

  lemma {:induction false} KnownMeans(subnets: map<string, Assign.Block>, names: seq<string>)
    ensures forall s :: s in Assign.Known(subnets, names) <==> s in names && s in subnets
  {
    if names != [] {
      var n := |names| - 1;
      assert names == names[..n] + [names[n]];
      KnownMeans(subnets, names[..n]);
    }
  }

  // ----- tables ---------------------------------------------------------------------------------

  lemma {:induction false} TablesAreSpecs(c: Settings, st: State, keys: seq<string>, fam: Fam, id: TableId) returns (k: string)
    requires (forall x :: x in keys ==> x in st.gateways) && id in TablesFor(c, st, keys, fam)
    ensures k in st.gateways && id == TableId(fam, st.gateways[k].ifIndex) && st.gateways[k].fam == fam
    ensures SpecFor(c, st, st.gateways[k]) == Some(TablesFor(c, st, keys, fam)[id])
  {
    var n := |keys| - 1;
    var gw := st.gateways[keys[n]];
    if gw.fam == fam && SpecFor(c, st, gw).Some? && TableId(fam, gw.ifIndex) == id {
      k := keys[n];
    } else {
      k := TablesAreSpecs(c, st, keys[..n], fam, id);
    }
  }

  /** A wanted table has a gateway behind its interface. */
  lemma TableHasGateway(c: Settings, st: State, inv: Inventory, id: TableId) returns (k: string)
    requires Computed(c, st, inv) && id in inv.tables
    ensures k in st.gateways && st.gateways[k].fam == id.fam && st.gateways[k].ifIndex == id.ifIndex
    ensures SpecFor(c, st, st.gateways[k]) == Some(inv.tables[id])
  {
    var keys :| Sorts(keys, st.gateways.Keys) && (forall x :: x in keys ==> x in st.gateways) && inv == InventoryFor(c, st, keys);
    var t4 := TablesFor(c, st, keys, IPv4);
    var t6 := if c.fw.rules6 == [] then map[] else TablesFor(c, st, keys, IPv6);
    assert inv.tables == t4 + t6;
    var fam := if id in t6 then IPv6 else IPv4;
    k := TablesAreSpecs(c, st, keys, fam, id);
  }

  lemma SpecFacts(c: Settings, st: State, gw: Gateway)
    requires SpecFor(c, st, gw).Some?
    ensures var spec := SpecFor(c, st, gw).value;
            && spec.fam == gw.fam && spec.ifIndex == gw.ifIndex
            && 0 < spec.table < RESERVED_TABLE && spec.table == c.rt.offset + gw.ifIndex
            && (gw.fam.IPv4? ==> spec.prio == GatewayPriority(spec.table))
            && (gw.fam.IPv6? ==> c.fw.rules6 != [])
  {
  }

  /** Every wanted table is the interface's own and none of the kernel's. */
  lemma WantedTables(c: Settings, st: State, inv: Inventory, id: TableId)
    requires Computed(c, st, inv) && id in inv.tables
    ensures var spec := inv.tables[id];
            && spec.fam == id.fam && spec.ifIndex == id.ifIndex && 0 < spec.table < RESERVED_TABLE
            && spec.table == c.rt.offset + id.ifIndex
            && (id.fam.IPv4? ==> spec.prio == GatewayPriority(spec.table))
            && (id.fam.IPv6? ==> c.fw.rules6 != [])
  {
    var k := TableHasGateway(c, st, inv, id);
    SpecFacts(c, st, st.gateways[k]);
  }

  // ----- fwmark rules -----------------------------------------------------------------------------

  lemma {:induction false} SortMarksKeeps(specs: seq<FwmarkSpec>, x: FwmarkSpec)
    ensures x in SortMarks(specs) <==> x in specs
  {
    if specs != [] {
      var n := |specs| - 1;
      assert specs == specs[..n] + [specs[n]];
      SortMarksKeeps(specs[..n], x);
      PlaceMarkAdds(SortMarks(specs[..n]), specs[n], x);
    }
  }

  lemma {:induction false} PlaceMarkAdds(specs: seq<FwmarkSpec>, y: FwmarkSpec, x: FwmarkSpec)
    ensures x in PlaceMark(specs, y) <==> x in specs || x == y
  {
    if specs != [] {
      var n := |specs| - 1;
      assert specs == specs[..n] + [specs[n]];
      PlaceMarkAdds(specs[..n], y, x);
    }
  }

  lemma {:induction false} Fwmarks6Members(c: Settings, st: State, tables: map<TableId, TableSpec>, rules: seq<Firewall.PortRule>, f: FwmarkSpec)
    ensures f in Fwmarks6(c, st, tables, rules) <==> exists rule :: rule in rules && Spec6OfRule(c, st, tables, rule) == Some(f)
  {
    if rules != [] {
      var n := |rules| - 1;
      assert rules == rules[..n] + [rules[n]];
      Fwmarks6Members(c, st, tables, rules[..n], f);
    }
  }

  lemma {:induction false} Fwmarks4Members(c: Settings, st: State, rules: seq<Firewall.PortRule>, f: FwmarkSpec)
    ensures f in Fwmarks4(c, st, rules) <==> exists rule :: rule in rules && SpecOfRule(c, st, rule) == Some(f)
  {
    if rules != [] {
      var n := |rules| - 1;
      assert rules == rules[..n] + [rules[n]];
      Fwmarks4Members(c, st, rules[..n], f);
    }
  }

  /** A mark rule's mark names one gateway, and its table is that gateway's interface's. */
  ghost predicate SteersToGateway(c: Settings, st: State, f: FwmarkSpec) {
    && 1 <= f.mark <= |c.fw.gateways|
    && f.prio == FwmarkPriority(f.mark)
    && var name := c.fw.gateways[f.mark - 1];
       name in st.ifaces && TableForIface(c.rt, st.ifaces[name]) == Some(f.table)
  }

  lemma Fwmark4Facts(c: Settings, st: State, inv: Inventory, f: FwmarkSpec)
    requires Computed(c, st, inv) && f in inv.fwmarks4
    ensures SteersToGateway(c, st, f)
  {
    SortMarksKeeps(Fwmarks4(c, st, c.fw.rules), f);
    Fwmarks4Members(c, st, c.fw.rules, f);
    var rule :| rule in c.fw.rules && SpecOfRule(c, st, rule) == Some(f);
  }

  /** Every IPv6 fwmark rule selects a table that the same inventory builds. */
  lemma Fwmark6SelectsBuiltTable(c: Settings, st: State, inv: Inventory, f: FwmarkSpec)
    requires Computed(c, st, inv) && f in inv.fwmarks6
    ensures SteersToGateway(c, st, f)
    ensures var id := TableId(IPv6, st.ifaces[c.fw.gateways[f.mark - 1]]);
            id in inv.tables && inv.tables[id].table == f.table && f.table == c.rt.offset + id.ifIndex
  {
    assert f in SortMarks(Fwmarks6(c, st, inv.tables, c.fw.rules6));
    Mark6HasTable(c, st, inv.tables, f);
    WantedTables(c, st, inv, TableId(IPv6, st.ifaces[c.fw.gateways[f.mark - 1]]));
  }

  lemma Mark6HasTable(c: Settings, st: State, tables: map<TableId, TableSpec>, f: FwmarkSpec)
    requires f in SortMarks(Fwmarks6(c, st, tables, c.fw.rules6))
    ensures SteersToGateway(c, st, f)
    ensures TableId(IPv6, st.ifaces[c.fw.gateways[f.mark - 1]]) in tables
  {
    SortMarksKeeps(Fwmarks6(c, st, tables, c.fw.rules6), f);
    Fwmarks6Members(c, st, tables, c.fw.rules6, f);
    var rule :| rule in c.fw.rules6 && Spec6OfRule(c, st, tables, rule) == Some(f);
  }

  predicate MarkFits(c: Settings, f: FwmarkSpec) {
    && 0 < f.table < RESERVED_TABLE && c.rt.offset <= f.table
    && f.prio <= FwmarkPriority(|c.fw.gateways|)
  }

  predicate MarkIsBuilt(c: Settings, inv: Inventory, f: FwmarkSpec) {
    MarkFits(c, f) && TableId(IPv6, f.table - c.rt.offset) in inv.tables
  }

  /** Every fwmark rule leads into one of the daemon's tables, at a priority made from its mark,
      the IPv6 ones into a table that is built. */
  ghost predicate MarksBuilt(c: Settings, inv: Inventory) {
    && (forall f :: f in inv.fwmarks4 ==> MarkFits(c, f))
    && (forall f :: f in inv.fwmarks6 ==> MarkIsBuilt(c, inv, f))
  }

  lemma Fwmark4Fits(c: Settings, st: State, inv: Inventory, f: FwmarkSpec)
    requires Computed(c, st, inv) && f in inv.fwmarks4
    ensures MarkFits(c, f)
  {
    Fwmark4Facts(c, st, inv, f);
  }

  lemma Fwmark6IsBuilt(c: Settings, st: State, inv: Inventory, f: FwmarkSpec)
    requires Computed(c, st, inv) && f in inv.fwmarks6
    ensures MarkIsBuilt(c, inv, f)
  {
    Fwmark6SelectsBuiltTable(c, st, inv, f);
  }

  lemma MarksAreBuilt(c: Settings, st: State, inv: Inventory)
    requires Computed(c, st, inv)
    ensures MarksBuilt(c, inv)
  {
    forall f | f in inv.fwmarks4
      ensures MarkFits(c, f)
    {
      Fwmark4Fits(c, st, inv, f);
    }
    forall f | f in inv.fwmarks6
      ensures MarkIsBuilt(c, inv, f)
    {
      Fwmark6IsBuilt(c, st, inv, f);
    }
  }

  // ----- IPv6 mark rules and translation ------------------------------------------------------------

  lemma BlockTextIsInjective(a: Assign.Block, b: Assign.Block)
    requires BlockText(a) == BlockText(b)
    ensures a == b
  {
    forall n: nat
      ensures '/' !in Itoa(n)
    {
    }
    CutsAreEqual(Itoa(a.hi), '/', Itoa(a.len), Itoa(b.hi), Itoa(b.len));
    ItoaIsInjective(a.hi, b.hi);
    ItoaIsInjective(a.len, b.len);
  }

  /** The source subnet of an IPv6 mark rule is one its gateway translates, the rule set holds
      the matching rewrite, and the gateway is not guarded. */
  lemma MarkedSubnetIsTranslated(c: Settings, st: State, inv: Inventory, r: Firewall.MarkRule) returns (a: Assign.Assignment)
    requires Validated(c) && Computed(c, st, inv) && r in inv.marks6
    ensures 1 <= r.mark <= |c.fw.gateways|
    ensures a in inv.assignments && a.uplink == c.fw.gateways[r.mark - 1] && BlockText(a.internal) == r.saddr
    ensures Translation.KeyOf(Translation.SourceRule(a)) in inv.nptRules
    ensures a.uplink !in inv.guarded
  {
    var mapped := MappedSubnets(inv.assignments);
    Firewall.MarkRuleFacts(c.fw.gateways, Firewall.V6(mapped), c.fw.rules6, r);
    var i :| 0 <= i < |mapped| && mapped[i] == Firewall.Mapped(c.fw.gateways[r.mark - 1], r.saddr);
    a := inv.assignments[i];
    assert Translation.KeyOf(Translation.SourceRule(a)) in Translation.SourceKeys(inv.assignments);
    assert Translation.Translates(inv.assignments, a.uplink);
    if c.npt.leakProtection && c.npt.internal.Some? {
      Translation.GuardsAreUplinks(c.npt.uplinks, inv.assignments, a.uplink);
    }
  }

  /** The prefixes, as printed, of the assignments that contain a source. */
  ghost function Inside(list: seq<Assign.Assignment>, src: Assign.Addr): set<string>
    requires forall a :: a in list ==> a.internal.len <= 64
  {
    set a | a in list && TranslationMeaning.Within(src, a.internal) :: BlockText(a.internal)
  }

  lemma {:induction false} LastThatApplies(gateways: seq<string>, family: Firewall.Family, rules: seq<Firewall.PortRule>,
                                           q: FirewallMeaning.Packet)
    returns (rule: Firewall.PortRule)
    requires FirewallMeaning.Wanted(gateways, family, rules, q) != 0
    ensures rule in rules && FirewallMeaning.Applies(gateways, family, rule, q)
    ensures FirewallMeaning.Wanted(gateways, family, rules, q) == Firewall.Mark(gateways, rule.gateway)
  {
    var n := |rules| - 1;
    if FirewallMeaning.Applies(gateways, family, rules[n], q) {
      rule := rules[n];
    } else {
      rule := LastThatApplies(gateways, family, rules[..n], q);
    }
  }

  /** The IPv6 marks send the flow q, carried by p, to the uplink p leaves by. */
  ghost predicate Steers(c: Settings, list: seq<Assign.Assignment>, p: TranslationMeaning.Packet, q: FirewallMeaning.Packet) {
    && (forall a :: a in list ==> a.internal.len == 64)
    && q.inside == Inside(list, p.src) && p.src.hi < Pow2(64)
    && var m := FirewallMeaning.Wanted(c.fw.gateways, Firewall.V6(MappedSubnets(list)), c.fw.rules6, q);
       1 <= m <= |c.fw.gateways| && c.fw.gateways[m - 1] == p.oif
  }

  lemma MappedByRule(gateways: seq<string>, mapped: seq<Firewall.Mapped>, rule: Firewall.PortRule, q: FirewallMeaning.Packet)
    returns (m: Firewall.Mapped)
    requires FirewallMeaning.Applies(gateways, Firewall.V6(mapped), rule, q)
    ensures m in mapped && m.uplink == rule.gateway && (m.prefix == "" || m.prefix in q.inside)
  {
    m :| m in mapped && m.uplink == rule.gateway && (m.prefix == "" || m.prefix in q.inside);
  }

  lemma SteeredSourceIsMapped(c: Settings, list: seq<Assign.Assignment>, p: TranslationMeaning.Packet, q: FirewallMeaning.Packet)
    requires Steers(c, list, p, q)
    ensures exists a :: a in list && TranslationMeaning.Hits(a, p)
  {
    var mapped := MappedSubnets(list);
    var rule := LastThatApplies(c.fw.gateways, Firewall.V6(mapped), c.fw.rules6, q);
    var m := MappedByRule(c.fw.gateways, mapped, rule, q);
    PrefixHits(list, m, p);
  }

  lemma PrefixHits(list: seq<Assign.Assignment>, m: Firewall.Mapped, p: TranslationMeaning.Packet)
    requires forall a :: a in list ==> a.internal.len == 64
    requires p.src.hi < Pow2(64) && m in MappedSubnets(list) && m.uplink == p.oif
    requires m.prefix == "" || m.prefix in Inside(list, p.src)
    ensures exists a :: a in list && TranslationMeaning.Hits(a, p)
  {
    var i :| 0 <= i < |list| && MappedSubnets(list)[i] == m;
    var a := list[i];
    assert m.prefix == BlockText(a.internal) && m.prefix != "";
    var b :| b in list && TranslationMeaning.Within(p.src, b.internal) && BlockText(b.internal) == m.prefix;
    BlockTextIsInjective(a.internal, b.internal);
    TranslationMeaning.WithinNet(p.src, a.internal);
    assert TranslationMeaning.Hits(a, p);
  }

  /** Port steering and translation compose: a flow that the IPv6 marks send to a gateway never
      leaves it untranslated. */
  lemma SteeredTrafficIsTranslated(c: Settings, st: State, inv: Inventory, p: TranslationMeaning.Packet, q: FirewallMeaning.Packet)
    requires Validated(c) && Computed(c, st, inv) && c.translates
    requires TranslationMeaning.Resolved(c.npt) && Assign.Valid64(st.leases)
    requires Steers(c, inv.assignments, p, q)
    ensures var hit := TranslationMeaning.FirstHit(inv.assignments, p);
            && hit.Some? && hit.value.uplink == p.oif
            && inv.ruleset.Some?
            && TranslationMeaning.WellSized(inv.ruleset.value.postrouting) && TranslationMeaning.WellSized(inv.ruleset.value.guard)
            && TranslationMeaning.LeaveBy(inv.ruleset, p) ==
               TranslationMeaning.Passed(p.(src := Assign.Addr(hit.value.external.hi, p.src.lo)))
  {
    SteeredSourceIsMapped(c, inv.assignments, p, q);
    TranslationMeaning.FirstHitMeans(inv.assignments, p);
    TranslationMeaning.ConfiguredFacts(c.npt, st.leases, ActiveAmong(c, st, c.npt.uplinks), inv.assignments);
    TranslationMeaning.MappedFate(c.npt, inv.assignments, p);
  }
}
