/** The inventory part by part, said in terms of settings and state alone. */
module InventoryExact {
  import opened Common
  import opened Text
  import opened Gateways
  import opened Desired
  import opened InventoryFacts
  import Firewall
  import Assign
  import Claims
  import Learning
  import Translation

  // ----- tables ---------------------------------------------------------------------------------

  /** The gateway under the key gives its link a table: the table's number is none of the kernel's,
      and the link has an address of its own, or an IPv6 port rule leads to it. */
  ghost predicate Gives(c: Settings, st: State, id: TableId, k: string) {
    && k in st.gateways && st.gateways[k].fam == id.fam && st.gateways[k].ifIndex == id.ifIndex
    && 0 < c.rt.offset + id.ifIndex < 253
    && if id.fam.IPv4? then id.ifIndex in st.addrs else exists r :: r in c.fw.rules6 && r.gateway == st.gateways[k].ifName
  }

  /** The table as that gateway gives it. */
  function Given(c: Settings, st: State, id: TableId, gw: Gateway): TableSpec
    requires id.fam.IPv4? ==> id.ifIndex in st.addrs
  {
    var table := c.rt.offset + id.ifIndex;
    if id.fam.IPv4?
    then TableSpec(IPv4, id.ifIndex, gw.ifName, table, st.addrs[id.ifIndex].ip, st.addrs[id.ifIndex].subnet, gw.ip, 1000 + table)
    else TableSpec(IPv6, id.ifIndex, gw.ifName, table, "", "", gw.ip, 0)
  }

  lemma SpecMeans(c: Settings, st: State, k: string)
    requires k in st.gateways
    ensures var gw := st.gateways[k]; var id := TableId(gw.fam, gw.ifIndex);
            && (SpecFor(c, st, gw).Some? <==> Gives(c, st, id, k))
            && (SpecFor(c, st, gw).Some? ==> SpecFor(c, st, gw) == Some(Given(c, st, id, gw)))
  {
    var gw := st.gateways[k];
    if r :| r in c.fw.rules6 && r.gateway == gw.ifName {
      var i :| 0 <= i < |c.fw.rules6| && c.fw.rules6[i] == r;
    }
  }

  /** Of the gateways that give a table the last one in the text order of the keys does. */
  ghost predicate LastToGive(c: Settings, st: State, id: TableId, k: string) {
    Gives(c, st, id, k) && forall l :: Gives(c, st, id, l) ==> l == k || Less(l, k)
  }

  ghost predicate LastAmong(c: Settings, st: State, keys: seq<string>, id: TableId, k: string) {
    k in keys && Gives(c, st, id, k) && forall l :: l in keys && Gives(c, st, id, l) ==> l == k || Less(l, k)
  }

  lemma {:induction false} TablesForAre(c: Settings, st: State, keys: seq<string>, id: TableId)
    requires Ascending(keys) && forall k :: k in keys ==> k in st.gateways
    ensures var tables := TablesFor(c, st, keys, id.fam);
            && (id in tables <==> exists k :: k in keys && Gives(c, st, id, k))
            && (id in tables ==> exists k :: LastAmong(c, st, keys, id, k) && tables[id] == Given(c, st, id, st.gateways[k]))
  {
    if keys != [] {
      var n := |keys| - 1;
      assert keys == keys[..n] + [keys[n]];
      TablesForAre(c, st, keys[..n], id);
      SpecMeans(c, st, keys[n]);
      if Gives(c, st, id, keys[n]) {
        LastIsLast(c, st, keys, id);
      } else if id in TablesFor(c, st, keys[..n], id.fam) {
        var k :| LastAmong(c, st, keys[..n], id, k) && TablesFor(c, st, keys[..n], id.fam)[id] == Given(c, st, id, st.gateways[k]);
        assert LastAmong(c, st, keys, id, k);
      }
    }
  }

  lemma LastIsLast(c: Settings, st: State, keys: seq<string>, id: TableId)
    requires Ascending(keys) && keys != [] && Gives(c, st, id, keys[|keys| - 1])
    ensures LastAmong(c, st, keys, id, keys[|keys| - 1])
  {
  }

  lemma OtherFamily(c: Settings, st: State, keys: seq<string>, fam: Fam, id: TableId)
    requires (forall k :: k in keys ==> k in st.gateways) && id in TablesFor(c, st, keys, fam)
    ensures id.fam == fam
  {
    var k := TablesAreSpecs(c, st, keys, fam, id);
  }

  /** Exactly which tables are wanted, and how. */
  lemma TablesExactly(c: Settings, st: State, inv: Inventory, id: TableId)
    requires Computed(c, st, inv)
    ensures id in inv.tables <==> exists k :: Gives(c, st, id, k)
    ensures id in inv.tables ==> exists k :: LastToGive(c, st, id, k) && inv.tables[id] == Given(c, st, id, st.gateways[k])
  {
    var keys :| Sorts(keys, st.gateways.Keys) && (forall k :: k in keys ==> k in st.gateways) && inv == InventoryFor(c, st, keys);
    TablesForAre(c, st, keys, id);
    assert forall k :: k in st.gateways <==> k in Range(keys);
    OneSideHasIt(c, st, keys, id);
    if id in inv.tables {
      var k :| LastAmong(c, st, keys, id, k) && TablesFor(c, st, keys, id.fam)[id] == Given(c, st, id, st.gateways[k]);
      assert LastToGive(c, st, id, k);
    }
  }

  lemma OneSideHasIt(c: Settings, st: State, keys: seq<string>, id: TableId)
    requires Ascending(keys) && forall k :: k in keys ==> k in st.gateways
    ensures var tables := InventoryFor(c, st, keys).tables;
            && (id in tables <==> id in TablesFor(c, st, keys, id.fam))
            && (id in tables ==> tables[id] == TablesFor(c, st, keys, id.fam)[id])
  {
    TablesForAre(c, st, keys, id);
    if id in TablesFor(c, st, keys, IPv4) {
      OtherFamily(c, st, keys, IPv4, id);
    }
    if id in TablesFor(c, st, keys, IPv6) {
      OtherFamily(c, st, keys, IPv6, id);
    }
  }

  // ----- fwmark rules ----------------------------------------------------------------------------

  /** The fwmark rule of the i-th gateway, counted from 0, when some port rule leads to it. */
  ghost predicate Steers(c: Settings, st: State, rules: seq<Firewall.PortRule>, i: nat, f: FwmarkSpec) {
    && i < |c.fw.gateways| && (exists r :: r in rules && r.gateway == c.fw.gateways[i])
    && c.fw.gateways[i] in st.ifaces
    && var table := c.rt.offset + st.ifaces[c.fw.gateways[i]];
       0 < table < 253 && f == FwmarkSpec(i + 1, table, 500 + i + 1)
  }

  lemma SpecOfRuleMeans(c: Settings, st: State, rule: Firewall.PortRule, f: FwmarkSpec)
    requires Distinct(c.fw.gateways)
    ensures SpecOfRule(c, st, rule) == Some(f) <==>
            exists i: nat :: i < |c.fw.gateways| && c.fw.gateways[i] == rule.gateway && Steers(c, st, [rule], i, f)
  {
    if SpecOfRule(c, st, rule) == Some(f) {
      var i := IndexOf(c.fw.gateways, rule.gateway);
      assert rule in [rule];
      assert Steers(c, st, [rule], i, f);
    }
    if i: nat :| i < |c.fw.gateways| && c.fw.gateways[i] == rule.gateway && Steers(c, st, [rule], i, f) {
      assert c.fw.gateways[IndexOf(c.fw.gateways, rule.gateway)] == c.fw.gateways[i];
    }
  }

  /** Exactly which IPv4 fwmark rules are wanted. */
  lemma Fwmarks4Exactly(c: Settings, st: State, inv: Inventory, f: FwmarkSpec)
    requires Validated(c) && Computed(c, st, inv)
    ensures f in inv.fwmarks4 <==> exists i: nat :: Steers(c, st, c.fw.rules, i, f)
  {
    SortMarksKeeps(Fwmarks4(c, st, c.fw.rules), f);
    Fwmarks4Members(c, st, c.fw.rules, f);
    if f in inv.fwmarks4 {
      var rule :| rule in c.fw.rules && SpecOfRule(c, st, rule) == Some(f);
      SpecOfRuleMeans(c, st, rule, f);
      var i: nat :| i < |c.fw.gateways| && c.fw.gateways[i] == rule.gateway && Steers(c, st, [rule], i, f);
      assert Steers(c, st, c.fw.rules, i, f);
    }
    if i: nat :| Steers(c, st, c.fw.rules, i, f) {
      var rule :| rule in c.fw.rules && rule.gateway == c.fw.gateways[i];
      assert rule in [rule];
      assert Steers(c, st, [rule], i, f);
      SpecOfRuleMeans(c, st, rule, f);
    }
  }

  /** And which IPv6 ones: only those that lead into a wanted table. */
  lemma Fwmarks6Exactly(c: Settings, st: State, inv: Inventory, f: FwmarkSpec)
    requires Validated(c) && Computed(c, st, inv)
    ensures f in inv.fwmarks6 <==>
            exists i: nat :: Steers(c, st, c.fw.rules6, i, f) && TableId(IPv6, st.ifaces[c.fw.gateways[i]]) in inv.tables
  {
    SortMarksKeeps(Fwmarks6(c, st, inv.tables, c.fw.rules6), f);
    Fwmarks6Members(c, st, inv.tables, c.fw.rules6, f);
    if f in inv.fwmarks6 {
      var rule :| rule in c.fw.rules6 && Spec6OfRule(c, st, inv.tables, rule) == Some(f);
      SpecOfRuleMeans(c, st, rule, f);
      var i: nat :| i < |c.fw.gateways| && c.fw.gateways[i] == rule.gateway && Steers(c, st, [rule], i, f);
      assert Steers(c, st, c.fw.rules6, i, f);
    }
    if i: nat :| Steers(c, st, c.fw.rules6, i, f) && TableId(IPv6, st.ifaces[c.fw.gateways[i]]) in inv.tables {
      var rule :| rule in c.fw.rules6 && rule.gateway == c.fw.gateways[i];
      assert rule in [rule];
      assert Steers(c, st, [rule], i, f);
      SpecOfRuleMeans(c, st, rule, f);
    }
  }

  ghost predicate MarksAscend(specs: seq<FwmarkSpec>) {
    forall i, j :: 0 <= i < j < |specs| ==> specs[i].mark <= specs[j].mark
  }

  lemma {:induction false} PlacedAscends(specs: seq<FwmarkSpec>, x: FwmarkSpec)
    requires MarksAscend(specs)
    ensures MarksAscend(PlaceMark(specs, x))
  {
    if specs != [] {
      var n := |specs| - 1;
      assert specs == specs[..n] + [specs[n]];
      if x.mark < specs[n].mark {
        PlacedAscends(specs[..n], x);
        var placed := PlaceMark(specs[..n], x);
        forall i | 0 <= i < |placed|
          ensures placed[i].mark <= specs[n].mark
        {
          PlaceMarkAdds(specs[..n], x, placed[i]);
        }
      }
    }
  }

  lemma {:induction false} SortedAscends(specs: seq<FwmarkSpec>)
    ensures MarksAscend(SortMarks(specs))
  {
    if specs != [] {
      SortedAscends(specs[..|specs| - 1]);
      PlacedAscends(SortMarks(specs[..|specs| - 1]), specs[|specs| - 1]);
    }
  }

  /** Fwmark rules are wanted in the order of their marks. */
  lemma FwmarksAscend(c: Settings, st: State, inv: Inventory)
    requires Computed(c, st, inv)
    ensures MarksAscend(inv.fwmarks4) && MarksAscend(inv.fwmarks6)
  {
    SortedAscends(Fwmarks4(c, st, c.fw.rules));
    SortedAscends(Fwmarks6(c, st, inv.tables, c.fw.rules6));
  }

  // ----- translation, learning, proxying ------------------------------------------------------------

  /** Exactly which uplinks are guarded: with leak protection, those configured that map nothing. */
  lemma GuardedExactly(c: Settings, st: State, inv: Inventory, name: string)
    requires Computed(c, st, inv)
    ensures name in inv.guarded <==>
            && c.translates && c.npt.leakProtection && c.npt.internal.Some?
            && (exists u :: u in c.npt.uplinks && u.name == name)
            && forall a :: a in inv.assignments ==> a.uplink != name
  {
    Translation.GuardsAreUplinks(c.npt.uplinks, inv.assignments, name);
    if a :| a in inv.assignments && a.uplink == name {
      var i :| 0 <= i < |inv.assignments| && inv.assignments[i] == a;
    }
    if u :| u in c.npt.uplinks && u.name == name {
      var i :| 0 <= i < |c.npt.uplinks| && c.npt.uplinks[i] == u;
    }
  }

  /** Exactly what is learned: the prefixes of the proxied uplinks, while translating. */
  lemma LearnedExactly(c: Settings, st: State, inv: Inventory, r: Learning.LearnRule)
    requires Computed(c, st, inv)
    ensures r in inv.learn <==> c.translates && exists u :: u in c.nd.uplinks && u.name == r.uplink && r.internal in u.prefixes
  {
    LearnRulesAre(c.nd.uplinks, r);
  }

  lemma {:induction false} LearnRulesAre(uplinks: seq<ProxyUplink>, r: Learning.LearnRule)
    ensures r in LearnRules(uplinks) <==> exists u :: u in uplinks && u.name == r.uplink && r.internal in u.prefixes
  {
    if uplinks != [] {
      var n := |uplinks| - 1;
      assert uplinks == uplinks[..n] + [uplinks[n]];
      LearnRulesAre(uplinks[..n], r);
      LearnOfOne(uplinks[n], r);
    }
  }

  lemma LearnOfOne(u: ProxyUplink, r: Learning.LearnRule)
    ensures r in LearnOf(u) <==> u.name == r.uplink && r.internal in u.prefixes
  {
    if u.name == r.uplink && r.internal in u.prefixes {
      assert LearnOf(u)[IndexOf(u.prefixes, r.internal)] == r;
    }
  }

  /** The host answers for the assignment behind a proxied uplink. */
  predicate Proxied(uplinks: seq<ProxyUplink>, a: Assign.Assignment, h: Assign.Host) {
    (exists u :: u in uplinks && u.name == a.uplink) && h.uplink == a.uplink && h.addr.hi == a.internal.hi
  }

  lemma EntriesAre(list: seq<Assign.Assignment>, hosts: seq<Assign.Host>, uplinks: seq<ProxyUplink>, e: Claims.Entry)
    ensures e in Assign.EntriesOf(list, hosts, UplinkNames(uplinks)) <==>
            exists a, h :: a in list && h in hosts && Proxied(uplinks, a, h) && e == Claims.Entry(Claims.Ip(a.external.hi, h.addr.lo), a.uplink)
  {
    forall a: Assign.Assignment, h: Assign.Host
      ensures Assign.Answers(a, h, UplinkNames(uplinks)) <==> Proxied(uplinks, a, h)
      ensures Assign.EntryFor(a, h) == Claims.Entry(Claims.Ip(a.external.hi, h.addr.lo), a.uplink)
    {
    }
  }

  /** Exactly which addresses are proxied: of every learned host behind a proxied uplink, the address
      it has in the delegation that its subnet is mapped to there. */
  lemma ProxiedExactly(c: Settings, st: State, inv: Inventory, e: Claims.Entry)
    requires Computed(c, st, inv)
    ensures e in inv.proxy <==>
            c.translates && exists a, h :: a in inv.assignments && h in st.hosts && Proxied(c.nd.uplinks, a, h)
                              && e == Claims.Entry(Claims.Ip(a.external.hi, h.addr.lo), a.uplink)
  {
    ProxyComputed(c, st, inv);
    EntriesAre(inv.assignments, st.hosts, c.nd.uplinks, e);
  }

  lemma ProxyComputed(c: Settings, st: State, inv: Inventory)
    requires Computed(c, st, inv)
    ensures inv.proxy == if c.translates && Proxies(c) then Assign.EntriesOf(inv.assignments, st.hosts, UplinkNames(c.nd.uplinks)) else {}
  {
  }
}
