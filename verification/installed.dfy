/** What one pass leaves in the kernel, said of the kernel itself. */
module Installed {
  import opened Common
  import opened Tokens
  import opened Numbers
  import opened Routes
  import opened Command
  import opened Desired
  import opened Kernel
  import opened Plan
  import opened PlanFacts
  import opened Converge
  import opened ConvergeTables
  import opened Convergence
  import opened ClosedLoop
  import Firewall
  import Learning
  import Translation

  // ----- the managed routes ---------------------------------------------------------------------

  /** The route has the wanted hops, with the wanted weights unless a single hop hides its weight. */
  ghost predicate CarriesHops(have: Option<seq<Nexthop>>, want: seq<Nexthop>) {
    && have.Some? && HopSet(have.value) == HopSet(want)
    && (|have.value| != 1 ==> NexthopMap(have.value) == NexthopMap(want))
  }

  lemma JudgedThere(k: Kernel, fam: Fam, w: Wording, want: seq<Nexthop>)
    requires EcmpInSync(want, ReadEcmp(k, fam, w)) && PlainWording(w) && SoundOwn(k, fam)
    ensures CarriesHops(k.own.Of(fam), want)
  {
    MatchedCarries(k.own.Of(fam).value, want, w);
  }

  lemma MatchedCarries(have: seq<Nexthop>, want: seq<Nexthop>, w: Wording)
    requires Match(NexthopMap(want), Nexthops(Listing(have, w.alone))) && PlainWording(w) && SoundHops(have)
    ensures CarriesHops(Some(have), want)
  {
    JudgedInPlace(want, have, w.alone);
    MapKeys(want);
    MapKeys(have);
    WeightsAreKnown(have);
    if |have| != 1 {
      SameMap(NexthopMap(have), NexthopMap(want));
    }
  }

  lemma SameMap(a: map<Hop, int>, b: map<Hop, int>)
    requires a.Keys == b.Keys && forall h :: h in a && h in b ==> a[h] == b[h]
    ensures a == b
  {
  }

  lemma {:induction false} WeightsAreKnown(have: seq<Nexthop>)
    requires SoundHops(have)
    ensures forall h :: h in NexthopMap(have) ==> NexthopMap(have)[h] > 0
  {
    if have != [] {
      var n := |have| - 1;
      assert Sound(have[n]);
      WeightsAreKnown(have[..n]);
    }
  }

  lemma RoutesAreThere(c: Settings, inv: Inventory, t: Tools, k: Kernel)
    requires RoutesInPlace(c, inv, t, k) && Sensible(t) && SoundOwn(k, IPv4) && SoundOwn(k, IPv6)
    ensures forall fam :: fam in inv.ecmp && inv.ecmp[fam].Want? ==> CarriesHops(k.own.Of(fam), inv.ecmp[fam].nexthops)
    ensures forall fam :: fam !in c.rt.managed ==> DefaultRoutes(OwnListing(k, fam, t.w.Of(fam)), t.addresses.Of(fam)) == []
  {
    forall fam | fam in inv.ecmp && inv.ecmp[fam].Want?
      ensures CarriesHops(k.own.Of(fam), inv.ecmp[fam].nexthops)
    {
      JudgedThere(k, fam, t.w.Of(fam), inv.ecmp[fam].nexthops);
    }
    forall fam: Fam
      ensures fam in Families()
    {
      match fam {
        case IPv4 =>
        case IPv6 =>
      }
    }
  }

  // ----- tables and rules -------------------------------------------------------------------------------

  /** Some line has both pieces of text. */
  ghost predicate SomeRuleHas(rules: seq<Rule>, a: Fields, b: Fields)
    requires |a| == 2 && |b| == 2
  {
    exists r :: r in rules && ContainsWords(RuleLine(r), a) && ContainsWords(RuleLine(r), b)
  }

  lemma SelectedThere(rules: seq<Rule>, selector: Fields, table: nat)
    requires |selector| == 2 && Selects(RuleLines(rules), selector, table)
    ensures SomeRuleHas(rules, selector, ["lookup", Itoa(table)])
  {
    EvidenceIn(rules, selector, table);
    var r :| r in rules && Evidence(RuleLine(r), selector, table);
  }

  /** The table has a default route by the wanted gateway, and an IPv4 one a rule from the wanted
      address. */
  ghost predicate TableThere(c: Settings, inv: Inventory, k: Kernel, id: TableId)
    requires id in inv.tables
  {
    var spec, key := inv.tables[id], TableKey(id.fam, c.rt.offset + id.ifIndex);
    && key in k.tables
    && (exists l :: l in k.tables[key] && ContainsWords(l, if spec.via == "" then ["default", "dev", spec.ifName] else ["default", "via", spec.via]))
    && (id.fam.IPv4? ==> SomeRuleHas(k.rules.v4, ["from", spec.src], ["lookup", Itoa(spec.table)]))
  }

  lemma TableIsThere(c: Settings, st: State, inv: Inventory, k: Kernel, id: TableId)
    requires GoodTables(c, inv) && TablesInPlace(c, st, inv, k) && id in inv.tables
    ensures TableThere(c, inv, k, id)
  {
    var spec, contents := inv.tables[id], ReadContents(c, k, id);
    assert TableInSync(spec, Some(RuleLines(k.rules.Of(id.fam))), contents);
    var i :| 0 <= i < |contents.value| && ContainsWords(contents.value[i], DefaultWords(spec));
    assert contents.value[i] in contents.value;
    if id.fam.IPv4? {
      SelectedThere(k.rules.v4, ["from", spec.src], spec.table);
    }
  }

  lemma MarkRuleIsThere(specs: seq<FwmarkSpec>, rules: seq<Rule>, f: FwmarkSpec)
    requires FwmarksInSync(specs, Some(RuleLines(rules))) && f in specs
    ensures SomeRuleHas(rules, ["fwmark", "0x" + Format(f.mark, 16)], ["lookup", Itoa(f.table)])
  {
    assert specs[IndexOf(specs, f)] == f;
    assert Hex(f.mark, 0) == "0x" + Format(f.mark, 16);
    SelectedThere(rules, ["fwmark", Hex(f.mark, 0)], f.table);
  }

  /** A line that reads as a per-gateway rule leads into a wanted table, or into none of the daemon's. */
  predicate WantedIfGatewayRule(c: Settings, inv: Inventory, line: Fields) {
    match ParseLookup(line)
    case None => true
    case Some(l) =>
      l.prio == 1000 + l.table && 0 < l.table && c.rt.offset <= l.table < 253 ==> TableId(IPv4, l.table - c.rt.offset) in inv.tables
  }

  lemma WantedUnlessStale(c: Settings, inv: Inventory, line: Fields)
    requires !WantedIfGatewayRule(c, inv, line)
    ensures GatewayRuleIf(c.rt, line).Some?
    ensures var i := GatewayRuleIf(c.rt, line).value; TableId(IPv4, i) !in inv.tables && TableForIface(c.rt, i).Some?
  {
  }

  lemma NothingLeft4(c: Settings, inv: Inventory, lines: seq<Fields>, line: Fields)
    requires PlanOf(Stale4(c.rt, inv, false, GatewayRuleIfs(c.rt, lines))) == [] && line in lines
    ensures WantedIfGatewayRule(c, inv, line)
  {
    if !WantedIfGatewayRule(c, inv, line) {
      WantedUnlessStale(c, inv, line);
      var i := GatewayRuleIf(c.rt, line).value;
      GatewayRuleIfsAre(c.rt, lines, i);
      LeftoverIsPlanned(c.rt, inv, GatewayRuleIfs(c.rt, lines), i);
    }
  }

  lemma LeftoverIsPlanned(rt: RouteOptions, inv: Inventory, ifs: seq<nat>, i: nat)
    requires i in ifs && TableId(IPv4, i) !in inv.tables && TableForIface(rt, i).Some?
    ensures PlanOf(Stale4(rt, inv, false, ifs)) != []
  {
    var x: Act<Op> := Act(Teardown(TABLE_ROUTES), Flush(IPv4, rt.offset + i));
    assert x in TeardownTable(rt, IPv4, i);
    Stale4Plans(rt, inv, ifs, i, x);
  }

  // ----- what drifted is written in full -----------------------------------------------------------------

  lemma SubnetIsWritten(p: Pass, k: Kernel, acts: Batch, id: TableId, x: Act<Op>)
    requires Runs(p, acts) && id in p.inv.tables && p.inv.tables[id].subnet != "default" && p.inv.tables[id].subnet != ""
    requires var spec := p.inv.tables[id];
             x in acts && x == Act(TABLE_ROUTES, RouteReplace(spec.fam, spec.table, [spec.subnet, "dev", spec.ifName, "src", spec.src]))
    ensures x.op.line in Contents(Run(k, acts), KeyFor(p.inv.tables[id]))
  {
    var spec := p.inv.tables[id];
    var key, line := KeyFor(spec), x.op.line;
    var after := (s: Kernel) => key in s.tables && line in s.tables[key];
    forall a | a in acts && a.order >= x.order
      ensures Keeps(after, a.op)
    {
      RankOf(p, a);
      if a.op.RouteReplace? && TableKey(a.op.fam, a.op.table) == key {
        ReplaceOfWanted(p, id, a);
        forall s: Kernel | key in s.tables && line in s.tables[key]
          ensures line in Apply(s, a.op).tables[key]
        {
          if a.op.line != line {
            assert !SameRoute(line, a.op.line);
            ReplaceKeeps(s.tables[key], a.op.line, line);
          }
        }
      }
    }
    Establishes(k, acts, x, (s: Kernel) => true, after);
  }

  /** A wanted table that was found drifted is written in full: its default route, the subnet of its
      link, and, for IPv4, its rule. */
  lemma DriftedTableIsWritten(p: Pass, k: Kernel, id: TableId)
    requires Shaped(p) && id in p.inv.tables && p.inv.tables[id].subnet != "default"
    requires !TableInSync(p.inv.tables[id], p.inst.rules.Of(id.fam), ContentsOf(p.inst, id))
    ensures var spec := p.inv.tables[id];
            var lines := Contents(After(p, k), TableKey(id.fam, spec.table));
            && ["default"] + (if spec.via == "" then [] else ["via", spec.via]) + ["dev", spec.ifName]
               + (if id.fam.IPv4? then ["src", spec.src] else []) in lines
            && (id.fam.IPv4? && spec.subnet != "" ==> [spec.subnet, "dev", spec.ifName, "src", spec.src] in lines)
            && (id.fam.IPv4? ==> Rule(spec.prio, ["from", spec.src, "lookup", Itoa(spec.table)]) in After(p, k).rules.v4)
  {
    var spec, acts := p.inv.tables[id], Executed(p);
    ExecutedRuns(p);
    Parts(p);
    PlannedParts(p, Tables(p.inv, p.inst, p.ids));
    var d: Act<Op> := Act(TABLE_ROUTES, RouteReplace(spec.fam, spec.table, DefaultLine(spec)));
    assert d in TableActs(spec);
    DriftedTableIsPlanned(p, acts, id, d);
    DefaultIsWritten(p, k, acts, id, d);
    if id.fam.IPv4? {
      var r: Act<Op> := Act(TABLE_RULE, RuleAdd(IPv4, TableRule(spec)));
      assert r in TableActs(spec);
      DriftedTableIsPlanned(p, acts, id, r);
      RuleIsAdded(p, k, acts, r);
      if spec.subnet != "" {
        var x: Act<Op> := Act(TABLE_ROUTES, RouteReplace(IPv4, spec.table, [spec.subnet, "dev", spec.ifName, "src", spec.src]));
        assert x in TableActs(spec);
        DriftedTableIsPlanned(p, acts, id, x);
        SubnetIsWritten(p, k, acts, id, x);
      }
    }
  }

  /** When one wanted fwmark rule is not found, all of them are there afterwards, in full. */
  lemma MissingMarksAreWritten(p: Pass, k: Kernel, fam: Fam, f: FwmarkSpec)
    requires Shaped(p) && f in FwmarksOf(p, fam) && !FwmarksInSync(FwmarksOf(p, fam), p.inst.rules.Of(fam))
    ensures Rule(f.prio, ["from", "all", "fwmark", "0x" + Format(f.mark, 16), "lookup", Itoa(f.table)]) in After(p, k).rules.Of(fam)
  {
    ExecutedRuns(p);
    Parts(p);
    PlannedParts(p, Fwmarks(fam, FwmarksOf(p, fam), p.inst));
    MissingMarkIsAdded(p, Executed(p), fam, f);
    assert Hex(f.mark, 0) == "0x" + Format(f.mark, 16);
    var a :| a in Executed(p) && a.op == RuleAdd(fam, FwmarkRule(f));
    RuleIsAdded(p, k, Executed(p), a);
  }

  function FlushOf(rt: RouteOptions, fam: Fam, i: nat): Act<Op> {
    Act(Teardown(TABLE_ROUTES), Flush(fam, rt.offset + i))
  }

  lemma HasTable(rt: RouteOptions, i: nat)
    requires 0 < rt.offset + i < 253
    ensures TableForIface(rt, i).Some?
  {
  }

  lemma ReplacedIsWanted(p: Pass, a: Act<Op>, i: nat)
    requires Shaped(p) && Allowed(p, a) && a.op.RouteReplace? && a.op.table == p.c.rt.offset + i
    ensures TableId(a.op.fam, i) in p.inv.tables
  {
    var spec :| DriftedTable(p, a.op.fam, spec) && spec.table == a.op.table;
    var id :| id in p.inv.tables && id.fam == a.op.fam && p.inv.tables[id] == spec;
    assert id == TableId(a.op.fam, i);
  }

  lemma FlushedStaysEmpty(p: Pass, k: Kernel, acts: Batch, fam: Fam, i: nat)
    requires Runs(p, acts) && TableId(fam, i) !in p.inv.tables && FlushOf(p.c.rt, fam, i) in acts
    ensures TableKey(fam, p.c.rt.offset + i) !in Run(k, acts).tables
  {
    var key := TableKey(fam, p.c.rt.offset + i);
    var after := (s: Kernel) => key !in s.tables;
    forall a | a in acts
      ensures Keeps(after, a.op)
    {
      assert Allowed(p, a);
      if a.op.RouteReplace? && TableKey(a.op.fam, a.op.table) == key {
        ReplacedIsWanted(p, a, i);
      }
    }
    Establishes(k, acts, FlushOf(p.c.rt, fam, i), (s: Kernel) => true, after);
  }

  lemma Flush4IsPlanned(p: Pass, i: nat)
    requires Shaped(p) && !p.st.linksStale && TableId(IPv4, i) !in p.inv.tables && TableForIface(p.c.rt, i).Some? && i in Listed4(p)
    ensures FlushOf(p.c.rt, IPv4, i) in Executed(p)
  {
    Parts(p);
    PlannedParts(p, Stale4(p.c.rt, p.inv, p.st.linksStale, Listed4(p)));
    assert FlushOf(p.c.rt, IPv4, i) in TeardownTable(p.c.rt, IPv4, i);
    Stale4Plans(p.c.rt, p.inv, Listed4(p), i, FlushOf(p.c.rt, IPv4, i));
  }

  lemma Flush6InPlan(rt: RouteOptions, inv: Inventory, found: seq<InstalledFwmark>, e: InstalledFwmark)
    requires e in found && TableId(IPv6, e.ifIndex) !in inv.tables && TableForIface(rt, e.ifIndex).Some?
    ensures FlushOf(rt, IPv6, e.ifIndex) in PlanOf(Stale6(rt, inv, false, found))
  {
    var r := StaleResource(StaleFwmark(rt, e), false);
    Stale6Are(rt, inv, found, r);
    assert FlushOf(rt, IPv6, e.ifIndex) in TeardownTable(rt, IPv6, e.ifIndex);
    PlanMembers(Stale6(rt, inv, false, found), FlushOf(rt, IPv6, e.ifIndex));
  }

  lemma Flush6IsPlanned(p: Pass, i: nat)
    requires Shaped(p) && !p.st.linksStale && TableId(IPv6, i) !in p.inv.tables && TableForIface(p.c.rt, i).Some? && Seen(Listed6(p), i)
    ensures FlushOf(p.c.rt, IPv6, i) in Executed(p)
  {
    Parts(p);
    PlannedParts(p, Stale6(p.c.rt, p.inv, p.st.linksStale, Listed6(p)));
    var j :| 0 <= j < |Listed6(p)| && Listed6(p)[j].ifIndex == i;
    Flush6InPlan(p.c.rt, p.inv, Listed6(p), Listed6(p)[j]);
  }

  /** A table that a stale per-gateway rule leads into is empty afterwards. */
  lemma StaleTables4AreFlushed(p: Pass, k: Kernel, i: nat)
    requires Shaped(p) && !p.st.linksStale && TableId(IPv4, i) !in p.inv.tables && i in Listed4(p) && 0 < p.c.rt.offset + i < 253
    ensures TableKey(IPv4, p.c.rt.offset + i) !in After(p, k).tables
  {
    HasTable(p.c.rt, i);
    Flush4IsPlanned(p, i);
    ExecutedRuns(p);
    FlushedStaysEmpty(p, k, Executed(p), IPv4, i);
  }

  /** And one that a stale IPv6 fwmark rule leads into. */
  lemma StaleTables6AreFlushed(p: Pass, k: Kernel, i: nat)
    requires Shaped(p) && !p.st.linksStale && TableId(IPv6, i) !in p.inv.tables && Seen(Listed6(p), i) && 0 < p.c.rt.offset + i < 253
    ensures TableKey(IPv6, p.c.rt.offset + i) !in After(p, k).tables
  {
    HasTable(p.c.rt, i);
    Flush6IsPlanned(p, i);
    ExecutedRuns(p);
    FlushedStaysEmpty(p, k, Executed(p), IPv6, i);
  }

  // ----- mark rules ------------------------------------------------------------------------------------------

  /** The mark table holds the wanted rules, in order, in each of its chains; there is none when nothing
      is wanted. */
  ghost predicate MarksThere(k: Kernel, name: NftName, chains: set<string>, want: seq<Firewall.MarkRule>) {
    if want == [] then name !in k.nft
    else
      && name in k.nft
      && var got := Firewall.ReadLines(Firewall.Reading("", map[]), Texts(k.nft[name])).got;
         forall chain :: chain in chains ==> chain in got && got[chain] == want
  }

  lemma Marks4There(c: Settings, k: Kernel, want: seq<Firewall.MarkRule>)
    requires !Firewall.NftNeedsRestore(Firewall.V4, want, ReadNft4(c, k))
    ensures MarksThere(k, NftName("ip", c.fw.table), {"mangle_output", "mangle_prerouting"}, want)
    ensures NftName("inet", c.fw.table) !in k.nft
  {
    Firewall.NftJudged(Firewall.V4, want, ReadNft4(c, k));
  }

  lemma Marks6There(c: Settings, k: Kernel, want: seq<Firewall.MarkRule>)
    requires !Firewall.NftNeedsRestore(Firewall.V6([]), want, ReadNft6(c, k))
    ensures MarksThere(k, NftName("ip6", c.fw.table), {"mangle_prerouting"}, want)
  {
    Firewall.NftJudged(Firewall.V6([]), want, ReadNft6(c, k));
  }

  /** The iptables chain holds the wanted rules, in order, and both hooks lead to it; there is none when
      nothing is wanted. */
  ghost predicate ChainThere(k: Kernel, want: seq<Firewall.MarkRule>) {
    if want == [] then k.ipt.chain.None?
    else k.ipt.chain.Some? && Firewall.ReadIptRules(k.ipt.chain.value) == want && "OUTPUT" in k.ipt.jumps && "PREROUTING" in k.ipt.jumps
  }

  lemma ChainIsThere(k: Kernel, marks: seq<Firewall.MarkRule>, want: seq<Firewall.MarkRule>)
    requires !Firewall.IptNeedsRestore(want, Firewall.ReadInstalledIpt(marks, k.ipt))
    ensures ChainThere(k, want)
  {
    Firewall.IptJudged(want, Firewall.ReadInstalledIpt(marks, k.ipt));
  }

  // ----- translation and learning ---------------------------------------------------------------------------------

  /** The translation table holds exactly the wanted rules, by their keys; and the learning table the
      wanted ones, or, without proxying, is not there. */
  ghost predicate TranslationThere(c: Settings, inv: Inventory, k: Kernel) {
    var npt, nd := NftName("ip6", c.npt.table), NftName("ip6", c.nd.table);
    && (if npt in k.nft then Translation.KeysIn(k.nft[npt]) == inv.nptRules else inv.nptRules == {})
    && (if c.nd.uplinks == [] then nd !in k.nft
        else inv.learn != [] ==> nd in k.nft && Learning.KeysIn(k.nft[nd]) == Learning.RuleKeys(inv.learn))
  }

  lemma TranslationIsThere(c: Settings, inv: Inventory, k: Kernel)
    requires c.translates && TranslationInPlace(c, inv, k)
    ensures TranslationThere(c, inv, k)
  {
    if inv.learn != [] {
      assert Learning.KeyOf(inv.learn[0]) in Learning.RuleKeys(inv.learn);
    }
  }

  // ----- all of it ---------------------------------------------------------------------------------------------------

  /** What is wanted stands in the kernel. */
  ghost predicate AllThere(c: Settings, inv: Inventory, t: Tools, k: Kernel) {
    && (forall fam :: fam in inv.ecmp && inv.ecmp[fam].Want? ==> CarriesHops(k.own.Of(fam), inv.ecmp[fam].nexthops))
    && (forall fam :: fam !in c.rt.managed ==> DefaultRoutes(OwnListing(k, fam, t.w.Of(fam)), t.addresses.Of(fam)) == [])
    && (forall id :: id in inv.tables ==> TableThere(c, inv, k, id))
    && (forall f :: f in inv.fwmarks4 ==> SomeRuleHas(k.rules.v4, ["fwmark", "0x" + Format(f.mark, 16)], ["lookup", Itoa(f.table)]))
    && (forall f :: f in inv.fwmarks6 ==> SomeRuleHas(k.rules.v6, ["fwmark", "0x" + Format(f.mark, 16)], ["lookup", Itoa(f.table)]))
    && (forall r :: r in k.rules.v4 ==> WantedIfGatewayRule(c, inv, RuleLine(r)))
    && MarksThere(k, NftName("ip", c.fw.table), {"mangle_output", "mangle_prerouting"}, if c.fw.nftables then inv.marks else [])
    && NftName("inet", c.fw.table) !in k.nft
    && MarksThere(k, NftName("ip6", c.fw.table), {"mangle_prerouting"}, inv.marks6)
    && ChainThere(k, if c.fw.nftables then [] else inv.marks)
    && (c.translates ==> TranslationThere(c, inv, k))
  }

  lemma InPlaceIsThere(c: Settings, st: State, inv: Inventory, t: Tools, k: Kernel)
    requires GoodTables(c, inv) && InPlace(c, st, inv, t, k) && Sensible(t) && SoundOwn(k, IPv4) && SoundOwn(k, IPv6)
    ensures AllThere(c, inv, t, k)
  {
    RoutesAreThere(c, inv, t, k);
    forall id | id in inv.tables
      ensures TableThere(c, inv, k, id)
    {
      TableIsThere(c, st, inv, k, id);
    }
    forall f | f in inv.fwmarks4
      ensures SomeRuleHas(k.rules.v4, ["fwmark", "0x" + Format(f.mark, 16)], ["lookup", Itoa(f.table)])
    {
      MarkRuleIsThere(inv.fwmarks4, k.rules.v4, f);
    }
    forall f | f in inv.fwmarks6
      ensures SomeRuleHas(k.rules.v6, ["fwmark", "0x" + Format(f.mark, 16)], ["lookup", Itoa(f.table)])
    {
      MarkRuleIsThere(inv.fwmarks6, k.rules.v6, f);
    }
    forall r | r in k.rules.v4
      ensures WantedIfGatewayRule(c, inv, RuleLine(r))
    {
      LineMembers(k.rules.v4, RuleLine(r));
      NothingLeft4(c, inv, RuleLines(k.rules.v4), RuleLine(r));
    }
    Marks4There(c, k, if c.fw.nftables then inv.marks else []);
    Marks6There(c, k, inv.marks6);
    ChainIsThere(k, inv.marks, if c.fw.nftables then [] else inv.marks);
    if c.translates {
      TranslationIsThere(c, inv, k);
    }
  }

  /** One undisturbed pass over a tame kernel, whatever stood there before, installs what is wanted. */
  lemma PassInstalls(p: Pass, t: Tools, k: Kernel)
    requires TamePass(p, t, k) && LinksMatch(p.st) && !NameClash(p.c, p.inv) && AllEvidenced(p, k)
    requires SoundOwn(k, IPv4) && SoundOwn(k, IPv6)
    ensures AllThere(p.c, p.inv, t, After(p, k))
  {
    PassPutsInPlace(p, t, k);
    RoutesAreSound(p);
    OwnAfterPass(p, k, IPv4);
    OwnAfterPass(p, k, IPv6);
    InPlaceIsThere(p.c, p.st, p.inv, t, After(p, k));
  }
}
