/** The closed loop: from any tame kernel one undisturbed pass leaves nothing for the next. */
module Convergence {
  import opened Common
  import opened Numbers
  import opened Routes
  import opened Gateways
  import opened Command
  import opened Desired
  import opened InventoryFacts
  import opened Kernel
  import opened Plan
  import opened PlanFacts
  import opened Converge
  import opened ConvergeTables
  import opened ConvergeNft
  import Firewall
  import Assign
  import Translation
  import Learning

  /** How the tools word things, and which texts are addresses of a family. */
  datatype Tools = Tools(w: Both<Wording>, addresses: Both<set<string>>)

  ghost predicate Sensible(t: Tools) {
    && PlainWording(t.w.v4) && PlainWording(t.w.v6)
    && (forall a :: a in t.addresses.v4 ==> AddressText(a) && a !in KEYWORDS)
    && (forall a :: a in t.addresses.v6 ==> AddressText(a) && a !in KEYWORDS)
  }

  function ReadBack(p: Pass, t: Tools, k: Kernel): Installed {
    Observe(p.c, p.st, p.inv.marks, t.w, t.addresses, k)
  }

  // ----- what is asked of the kernel and of names ------------------------------------------------

  /** No foreign default route at a managed metric. */
  ghost predicate MetricIsFree(c: Settings, k: Kernel) {
    forall fam :: fam in c.rt.managed ==> !Blocked(k, fam, EcmpMetric(c.rt, fam))
  }

  ghost predicate TameKernel(p: Pass, k: Kernel) {
    && MetricIsFree(p.c, k)
    && Priorities(k.rules.v4) && Priorities(k.rules.v6)
    && Firewall.OwnJumps(k.ipt)
  }

  /** At most 500 gateways, and names that are not keywords. */
  ghost predicate TameSettings(c: Settings) {
    && |c.fw.gateways| <= 500
    && Firewall.ChainName(c.fw.chain)
    && (forall u :: u in c.npt.uplinks ==> u.name != "")
    && c.nd.table != "update" && c.nd.timeout != "comment" && c.nd.timeout != "update" && c.nd.size != "update"
    && forall u :: u in c.nd.uplinks ==> u.name != ""
  }

  /** The IPv6 mark table has the name of another table, and the two owners want opposite
      things of it. Validation rules this out for the nftables backend with proxying only. */
  predicate NameClash(c: Settings, inv: Inventory) {
    && c.translates
    && ((c.fw.table == c.npt.table && inv.ruleset.Some?)
        || (c.fw.table == c.nd.table && (if Proxies(c) then inv.learn != [] else inv.marks6 != [])))
  }

  /** Gateways are what this pass's links say. */
  ghost predicate LinksMatch(st: State) {
    forall k :: k in st.gateways ==> st.gateways[k].ifName in st.ifaces && st.ifaces[st.gateways[k].ifName] == st.gateways[k].ifIndex
  }

  /** The links were read, and texts are addresses and device names. */
  ghost predicate TameState(p: Pass) {
    && !p.st.linksStale
    && (forall k :: k in p.st.gateways ==>
          var gw := p.st.gateways[k];
          && gw.ifName != "" && gw.ifName !in KEYWORDS && gw.ifName != "lo"
          && gw.ip !in KEYWORDS && gw.weight < INT64_LIMIT)
    && SoundTables(p.inv)
  }

  ghost predicate TamePass(p: Pass, t: Tools, k: Kernel) {
    && Sane(p) && Shaped(p) && Sensible(t)
    && TameSettings(p.c) && TameState(p) && TameKernel(p, k)
    && p.inst == ReadBack(p, t, k)
  }

  // ----- the inventory's parts ---------------------------------------------------------------------

  lemma ComputedParts(c: Settings, st: State, inv: Inventory)
    requires Computed(c, st, inv)
    ensures inv.marks == Firewall.MarkRules(c.fw.gateways, Firewall.V4, c.fw.rules)
    ensures inv.marks6 == Firewall.MarkRules(c.fw.gateways, Firewall.V6(MappedSubnets(inv.assignments)), c.fw.rules6)
    ensures inv.assignments == AssignmentsOf(c, st)
    ensures c.translates ==>
              && inv.ruleset == Translation.TableFor(c.npt, inv.assignments)
              && inv.nptRules == Translation.KeysFor(c.npt, inv.assignments)
    ensures inv.learn == if c.translates && Proxies(c) then LearnRules(c.nd.uplinks) else []
  {
  }

  lemma MarksArePrintable(p: Pass)
    requires Validated(p.c) && Computed(p.c, p.st, p.inv)
    ensures Firewall.AllPrintable(p.inv.marks) && Firewall.AllPrintable(p.inv.marks6)
    ensures Firewall.AllPrintable(NftMarks(p))
  {
    ComputedParts(p.c, p.st, p.inv);
    Firewall.WantedIsPrintable(p.c.fw.gateways, Firewall.V4, p.c.fw.rules);
    Firewall.WantedIsPrintable(p.c.fw.gateways, Firewall.V6(MappedSubnets(p.inv.assignments)), p.c.fw.rules6);
  }

  lemma WantedHopsAreSound(p: Pass, fam: Fam)
    requires Computed(p.c, p.st, p.inv) && Consistent(p.st.gateways) && TameState(p)
    requires fam in p.inv.ecmp && p.inv.ecmp[fam].Want?
    ensures SoundHops(p.inv.ecmp[fam].nexthops)
  {
    EcmpIsInstallable(p.c, p.st, p.inv, fam);
    var ns := p.inv.ecmp[fam].nexthops;
    forall i | 0 <= i < |ns|
      ensures Sound(ns[i])
    {
      assert ns[i] in ns;
      var k :| k in p.st.gateways && p.st.gateways[k].weight > 0 &&
               ns[i] == Nexthop(p.st.gateways[k].ip, p.st.gateways[k].ifName, p.st.gateways[k].weight);
    }
  }

  lemma GatewayIsRead(c: Settings, st: State, gw: Gateway)
    requires SpecFor(c, st, gw).Some? && gw.ifName in st.ifaces && st.ifaces[gw.ifName] == gw.ifIndex
    ensures TableId(gw.fam, gw.ifIndex) in ReadIds(c, st)
  {
    if gw.fam.IPv6? {
      var i :| 0 <= i < |c.fw.rules6| && c.fw.rules6[i].gateway == gw.ifName;
      assert c.fw.rules6[i] in c.fw.rules6;
    }
  }

  /** The pass read every table it wants. */
  lemma WantedTablesAreRead(p: Pass, id: TableId)
    requires Computed(p.c, p.st, p.inv) && LinksMatch(p.st) && id in p.inv.tables
    ensures id in ReadIds(p.c, p.st)
  {
    var x := TableHasGateway(p.c, p.st, p.inv, id);
    GatewayIsRead(p.c, p.st, p.st.gateways[x]);
  }

  // ----- from resources to the batch as it runs ----------------------------------------------------

  ghost predicate Part(rs: seq<Resource>, all: seq<Resource>) {
    forall r :: r in rs ==> r in all
  }

  lemma PartIsPlanned(rs: seq<Resource>, all: seq<Resource>, x: Act<Op>)
    requires Part(rs, all) && x in PlanOf(rs)
    ensures x in Sorted(PlanOf(all))
  {
    PlanMembers(rs, x);
    PlanMembers(all, x);
    SortedMembers(PlanOf(all), x);
  }

  lemma ResourceIsPlanned(r: Resource, all: seq<Resource>, x: Act<Op>)
    requires r in all && x in ActsOf(r)
    ensures x in Sorted(PlanOf(all))
  {
    PlanMembers(all, x);
    SortedMembers(PlanOf(all), x);
  }

  lemma Parts(p: Pass)
    requires Shaped(p)
    ensures var all := ResourcesOf(p);
            && Part(Stale4(p.c.rt, p.inv, p.st.linksStale, Listed4(p)), all)
            && Part(Stale6(p.c.rt, p.inv, p.st.linksStale, Listed6(p)), all)
            && Part(Tables(p.inv, p.inst, p.ids), all)
            && Part(Mangle(p.c, p.inv, p.inst), all)
            && Mangle6(p.c, p.inv, p.inst) in all
            && Part(Fwmarks(IPv4, p.inv.fwmarks4, p.inst), all)
            && Part(Fwmarks(IPv6, p.inv.fwmarks6, p.inst), all)
            && Part(Ecmp(p.c, p.inv, p.inst, p.c.rt.managed), all)
            && Part(AbandonedOf(p.c, p.inst, IPv4), all)
            && Part(AbandonedOf(p.c, p.inst, IPv6), all)
            && Part(Nft(p.c, p.inv, p.inst, p.comments), all)
  {
  }

  ghost function Executed(p: Pass): Batch
    requires Shaped(p)
  {
    Sorted(BatchOf(p))
  }

  lemma ExecutedRuns(p: Pass)
    requires Shaped(p)
    ensures Runs(p, Executed(p))
  {
    BatchesAreAllowed(p);
    SortedIsAllowed(p, BatchOf(p));
  }

  /** The kernel after the pass. */
  ghost function After(p: Pass, k: Kernel): Kernel
    requires Shaped(p)
  {
    Run(k, Executed(p))
  }

  ghost predicate Quiet(rs: seq<Resource>) {
    forall r :: r in rs ==> ActsOf(r) == []
  }

  lemma {:induction false} QuietPlan(rs: seq<Resource>)
    requires PlanOf(rs) == []
    ensures Quiet(rs)
  {
    if rs != [] {
      var n := |rs| - 1;
      assert rs == rs[..n] + [rs[n]];
      QuietPlan(rs[..n]);
    }
  }

  // ----- what each part finds after the pass -----------------------------------------------------

  lemma PlannedParts(p: Pass, rs: seq<Resource>)
    requires Shaped(p) && Part(rs, ResourcesOf(p))
    ensures forall x :: x in PlanOf(rs) ==> x in Executed(p)
  {
    forall x | x in PlanOf(rs)
      ensures x in Executed(p)
    {
      PartIsPlanned(rs, ResourcesOf(p), x);
    }
  }

  lemma PlannedResource(p: Pass, r: Resource)
    requires Shaped(p) && r in ResourcesOf(p)
    ensures forall x :: x in ActsOf(r) ==> x in Executed(p)
  {
    forall x | x in ActsOf(r)
      ensures x in Executed(p)
    {
      ResourceIsPlanned(r, ResourcesOf(p), x);
    }
  }

  lemma Stale4After(p: Pass, k: Kernel)
    requires Shaped(p) && FewMarks(p.c, p.inv) && SoundTables(p.inv)
    requires !p.st.linksStale && p.inst.rules.v4 == Some(RuleLines(k.rules.v4)) && Priorities(k.rules.v4)
    ensures PlanOf(Stale4(p.c.rt, p.inv, false, GatewayRuleIfs(p.c.rt, RuleLines(After(p, k).rules.v4)))) == []
  {
    ExecutedRuns(p);
    Parts(p);
    PlannedParts(p, Stale4(p.c.rt, p.inv, p.st.linksStale, Listed4(p)));
    Stale4Settles(p, k, Executed(p));
  }

  lemma IsPass6(p: Pass, k: Kernel)
    requires Shaped(p) && FewMarks(p.c, p.inv)
    requires !p.st.linksStale && p.inst.rules.v6 == Some(RuleLines(k.rules.v6)) && Priorities(k.rules.v6)
    ensures Pass6(p, k, Executed(p))
  {
    ExecutedRuns(p);
    Parts(p);
    PlannedParts(p, Stale6(p.c.rt, p.inv, p.st.linksStale, Listed6(p)));
  }

  lemma Stale6After(p: Pass, k: Kernel)
    requires Shaped(p) && FewMarks(p.c, p.inv)
    requires !p.st.linksStale && p.inst.rules.v6 == Some(RuleLines(k.rules.v6)) && Priorities(k.rules.v6)
    requires OneRulePerStaleTable(p, k.rules.v6)
    ensures PlanOf(Later6(p, k, Executed(p))) == []
  {
    IsPass6(p, k);
    Stale6Settles(p, k, Executed(p));
  }

  /** The wanted table's rule, if it has one, has evidence that the pass leaves or adds. */
  ghost predicate TableEvidenced(p: Pass, k: Kernel, id: TableId)
    requires Shaped(p) && id in p.inv.tables
  {
    id.fam.IPv4? ==> Evidenced(k, Executed(p), IPv4, ["from", p.inv.tables[id].src], p.inv.tables[id].table)
  }

  ghost predicate MarksEvidenced(p: Pass, k: Kernel, fam: Fam)
    requires Shaped(p)
  {
    forall f :: f in FwmarksOf(p, fam) ==> Evidenced(k, Executed(p), fam, ["fwmark", Hex(f.mark, 0)], f.table)
  }

  /** Every rule that is wanted has evidence that the pass leaves or adds. */
  ghost predicate AllEvidenced(p: Pass, k: Kernel)
    requires Shaped(p)
  {
    && (forall id :: id in p.inv.tables ==> TableEvidenced(p, k, id))
    && MarksEvidenced(p, k, IPv4) && MarksEvidenced(p, k, IPv6)
  }

  lemma TableAfter(p: Pass, t: Tools, k: Kernel, id: TableId)
    requires Shaped(p) && id in ReadIds(p.c, p.st) && SoundTables(p.inv) && p.inst == ReadBack(p, t, k) && id in p.inv.tables
    requires id.fam.IPv4? ==> UniquePriorities(k.rules.v4)
    ensures TableInSync(p.inv.tables[id], Some(RuleLines(After(p, k).rules.Of(id.fam))), ReadContents(p.c, After(p, k), id)) <==>
            TableEvidenced(p, k, id)
  {
    ExecutedRuns(p);
    Parts(p);
    PlannedParts(p, Tables(p.inv, p.inst, p.ids));
    TableSettles(p, k, Executed(p), id);
  }

  lemma FwmarksAfter(p: Pass, k: Kernel, fam: Fam)
    requires Shaped(p) && UniquePriorities(k.rules.Of(fam))
    ensures FwmarksInSync(FwmarksOf(p, fam), Some(RuleLines(After(p, k).rules.Of(fam)))) <==> MarksEvidenced(p, k, fam)
  {
    ExecutedRuns(p);
    FwmarksSettle(p, k, Executed(p), fam);
  }

  lemma {:induction false} EcmpHas(c: Settings, inv: Inventory, inst: Installed, managed: seq<Fam>, fam: Fam)
    requires fam in managed
    ensures EcmpResource(c, inv, inst, fam) in Ecmp(c, inv, inst, managed)
  {
    var n := |managed| - 1;
    assert managed == managed[..n] + [managed[n]];
    if fam in managed[..n] {
      EcmpHas(c, inv, inst, managed[..n], fam);
    }
  }

  lemma RouteAfter(p: Pass, k: Kernel, fam: Fam, w: Wording)
    requires Shaped(p) && PlainWording(w) && fam in p.inv.ecmp && p.inv.ecmp[fam].Want? && SoundHops(p.inv.ecmp[fam].nexthops)
    requires EcmpRead(p.inst, fam) == ReadEcmp(k, fam, w) && !Blocked(k, fam, EcmpMetric(p.c.rt, fam))
    ensures EcmpInSync(p.inv.ecmp[fam].nexthops, ReadEcmp(After(p, k), fam, w))
  {
    ExecutedRuns(p);
    Parts(p);
    EcmpHas(p.c, p.inv, p.inst, p.c.rt.managed, fam);
    PlannedResource(p, EcmpResource(p.c, p.inv, p.inst, fam));
    EcmpSettles(p, k, Executed(p), fam, w);
  }

  lemma AbandonedAfter(p: Pass, t: Tools, k: Kernel, fam: Fam)
    requires Shaped(p) && fam !in p.c.rt.managed && p.inst.abandoned == AbandonedIn(p.c, t.w, t.addresses, k)
    ensures fam !in AbandonedIn(p.c, t.w, t.addresses, After(p, k))
  {
    ExecutedRuns(p);
    Parts(p);
    PlannedParts(p, AbandonedOf(p.c, p.inst, fam));
    AbandonedSettles(p, k, Executed(p), fam, t.w, t.addresses);
  }

  lemma MangleParts(p: Pass)
    requires Shaped(p)
    ensures NftMangle4(p.c, NftMarks(p), p.inst) in Mangle(p.c, p.inv, p.inst)
    ensures IptMangle(p.c, IptMarks(p), p.inst) in Mangle(p.c, p.inv, p.inst)
    ensures forall r :: r in Mangle(p.c, p.inv, p.inst) ==>
              r == NftMangle4(p.c, NftMarks(p), p.inst) || r == IptMangle(p.c, IptMarks(p), p.inst)
  {
    if p.c.fw.nftables {
      assert Mangle(p.c, p.inv, p.inst) == [NftMangle4(p.c, NftMarks(p), p.inst), IptMangle(p.c, IptMarks(p), p.inst)];
    } else {
      assert Mangle(p.c, p.inv, p.inst) == [IptMangle(p.c, IptMarks(p), p.inst), NftMangle4(p.c, NftMarks(p), p.inst)];
    }
  }

  lemma Marks4After(p: Pass, k: Kernel)
    requires Shaped(p) && Firewall.AllPrintable(NftMarks(p)) && p.inst.nft == ReadNft4(p.c, k)
    ensures !Firewall.NftNeedsRestore(Firewall.V4, NftMarks(p), ReadNft4(p.c, After(p, k)))
  {
    ExecutedRuns(p);
    Parts(p);
    MangleParts(p);
    PlannedResource(p, NftMangle4(p.c, NftMarks(p), p.inst));
    Marks4Settle(p, k, Executed(p));
  }

  /** What validation leaves possible when there is no clash. */
  ghost predicate NamesAgree(p: Pass) {
    && NdName(p.c) && !NameClash(p.c, p.inv)
    && (p.inv.marks6 != [] ==> NptNameFree(p.c) && (Proxies(p.c) ==> NdNameFree(p.c)))
  }

  lemma Marks6After(p: Pass, k: Kernel)
    requires Shaped(p) && Firewall.AllPrintable(p.inv.marks6) && p.inst.nft6 == ReadNft6(p.c, k) && NamesAgree(p)
    ensures !Firewall.NftNeedsRestore(Firewall.V6([]), p.inv.marks6, ReadNft6(p.c, After(p, k)))
  {
    ExecutedRuns(p);
    Parts(p);
    PlannedResource(p, Mangle6(p.c, p.inv, p.inst));
    Marks6Settle(p, k, Executed(p));
  }

  lemma NptAfter(p: Pass, k: Kernel)
    requires Shaped(p) && Translated(p) && NamesAgree(p) && p.inst.npt == ReadNpt(p.c, k) && p.inst.nft6 == ReadNft6(p.c, k)
    ensures !Translation.NeedsRestore(p.inv.nptRules, ReadNpt(p.c, After(p, k)))
  {
    ExecutedRuns(p);
    Parts(p);
    PlannedResource(p, Nft(p.c, p.inv, p.inst, p.comments)[0]);
    PlannedResource(p, Mangle6(p.c, p.inv, p.inst));
    NptSettles(p, k, Executed(p));
  }

  lemma LearnResource(p: Pass) returns (r: Resource)
    requires Shaped(p) && p.c.translates && Proxies(p.c)
    ensures r in Nft(p.c, p.inv, p.inst, p.comments)
    ensures LearnDrifted(p) ==> ActsOf(r) == LearnActs(p.c, p.inv.learn)
  {
    r := Nft(p.c, p.inv, p.inst, p.comments)[1];
  }

  lemma NoLearnResource(p: Pass) returns (r: Resource)
    requires Shaped(p) && p.c.translates && !Proxies(p.c)
    ensures r in Nft(p.c, p.inv, p.inst, p.comments)
    ensures p.inst.learn.Some? ==> Act(NFT_TABLE, NftDelete(LearnTable(p.c))) in ActsOf(r)
  {
    r := Nft(p.c, p.inv, p.inst, p.comments)[1];
  }

  lemma LearnAfter(p: Pass, k: Kernel)
    requires Shaped(p) && p.c.translates && Proxies(p.c)
    requires NdNameFree(p.c) && NdName(p.c) && SoundLearning(p) && p.inst.learn == ReadLearn(p.c, k)
    ensures !Learning.NeedsRestore(Learning.RuleKeys(p.inv.learn), ReadLearn(p.c, After(p, k)))
  {
    ExecutedRuns(p);
    Parts(p);
    var r := LearnResource(p);
    PlannedResource(p, r);
    LearnSettles(p, k, Executed(p));
  }

  lemma NoLearnAfter(p: Pass, k: Kernel)
    requires Shaped(p) && p.c.translates && !Proxies(p.c)
    requires NdNameFree(p.c) && NdName(p.c) && p.inst.learn == ReadLearn(p.c, k)
    ensures ReadLearn(p.c, After(p, k)) == None
  {
    ExecutedRuns(p);
    Parts(p);
    var r := NoLearnResource(p);
    PlannedResource(p, r);
    LearnIsRemoved(p, k, Executed(p));
  }

  // ----- the iptables chain --------------------------------------------------------------------------

  lemma {:induction false} PlanOfJoin(a: seq<Resource>, b: seq<Resource>)
    ensures PlanOf(a + b) == PlanOf(a) + PlanOf(b)
  {
    if b == [] {
      assert a + b == a;
    } else {
      var n, all := |b| - 1, a + b;
      assert all[..|all| - 1] == a + b[..n] && all[|all| - 1] == b[n];
      PlanOfJoin(a, b[..n]);
      assert PlanOf(all) == PlanOf(a + b[..n]) + ActsOf(b[n]);
      assert PlanOf(b) == PlanOf(b[..n]) + ActsOf(b[n]);
    }
  }

  lemma {:induction false} Stale4NoIpt(rt: RouteOptions, inv: Inventory, linksStale: bool, ifs: seq<nat>)
    ensures NoIpt(Stale4(rt, inv, linksStale, ifs))
  {
    if ifs != [] {
      Stale4NoIpt(rt, inv, linksStale, ifs[..|ifs| - 1]);
    }
  }

  lemma {:induction false} Stale6NoIpt(rt: RouteOptions, inv: Inventory, linksStale: bool, found: seq<InstalledFwmark>)
    ensures NoIpt(Stale6(rt, inv, linksStale, found))
  {
    if found != [] {
      Stale6NoIpt(rt, inv, linksStale, found[..|found| - 1]);
    }
  }

  lemma {:induction false} TablesNoIpt(inv: Inventory, inst: Installed, ids: seq<TableId>)
    requires forall id :: id in ids ==> id in inv.tables
    ensures NoIpt(Tables(inv, inst, ids))
  {
    if ids != [] {
      TablesNoIpt(inv, inst, ids[..|ids| - 1]);
    }
  }

  lemma {:induction false} EcmpNoIpt(c: Settings, inv: Inventory, inst: Installed, managed: seq<Fam>)
    ensures NoIpt(Ecmp(c, inv, inst, managed))
  {
    if managed != [] {
      EcmpNoIpt(c, inv, inst, managed[..|managed| - 1]);
    }
  }

  lemma JoinNoIpt(a: seq<Resource>, b: seq<Resource>)
    requires NoIpt(a) && NoIpt(b)
    ensures NoIpt(a + b)
  {
  }

  lemma LastNoIpt(p: Pass)
    requires Shaped(p)
    ensures NoIpt(LastResources(p.c, p.inv, p.inst, p.comments))
  {
    var f4, f6 := Fwmarks(IPv4, p.inv.fwmarks4, p.inst), Fwmarks(IPv6, p.inv.fwmarks6, p.inst);
    var e := Ecmp(p.c, p.inv, p.inst, p.c.rt.managed);
    var a4, a6 := AbandonedOf(p.c, p.inst, IPv4), AbandonedOf(p.c, p.inst, IPv6);
    var n := Nft(p.c, p.inv, p.inst, p.comments);
    EcmpNoIpt(p.c, p.inv, p.inst, p.c.rt.managed);
    NftNoIpt(p);
    JoinNoIpt(f4, f6);
    JoinNoIpt(f4 + f6, e);
    JoinNoIpt(f4 + f6 + e, a4);
    JoinNoIpt(f4 + f6 + e + a4, a6);
    JoinNoIpt(f4 + f6 + e + a4 + a6, n);
  }

  lemma NftNoIpt(p: Pass)
    requires Shaped(p)
    ensures NoIpt(Nft(p.c, p.inv, p.inst, p.comments))
  {
  }

  lemma Mangle6NoIpt(p: Pass)
    requires Shaped(p)
    ensures NoIpt([Mangle6(p.c, p.inv, p.inst)])
    ensures NoIpt([NftMangle4(p.c, NftMarks(p), p.inst)])
  {
  }

  lemma StaleAndTablesNoIpt(p: Pass)
    requires Shaped(p)
    ensures NoIpt(Stale4(p.c.rt, p.inv, p.st.linksStale, Listed4(p)) + Stale6(p.c.rt, p.inv, p.st.linksStale, Listed6(p))
                  + Tables(p.inv, p.inst, p.ids))
  {
    var s4, s6 := Stale4(p.c.rt, p.inv, p.st.linksStale, Listed4(p)), Stale6(p.c.rt, p.inv, p.st.linksStale, Listed6(p));
    Stale4NoIpt(p.c.rt, p.inv, p.st.linksStale, Listed4(p));
    Stale6NoIpt(p.c.rt, p.inv, p.st.linksStale, Listed6(p));
    TablesNoIpt(p.inv, p.inst, p.ids);
    JoinNoIpt(s4, s6);
    JoinNoIpt(s4 + s6, Tables(p.inv, p.inst, p.ids));
  }

  lemma CmdsOfParts(a: seq<Resource>, b: seq<Resource>, rank: int)
    ensures CmdsAt(PlanOf(a + b), rank) == CmdsAt(PlanOf(a), rank) + CmdsAt(PlanOf(b), rank)
  {
    PlanOfJoin(a, b);
    CmdsAtConcat(PlanOf(a), PlanOf(b), rank);
  }

  lemma CmdsOfBoth(p: Pass, rank: int)
    requires Shaped(p)
    ensures CmdsAt(PlanOf(Mangle(p.c, p.inv, p.inst)), rank) == CmdsAt(ActsOf(IptMangle(p.c, IptMarks(p), p.inst)), rank)
  {
    var n, i := NftMangle4(p.c, NftMarks(p), p.inst), IptMangle(p.c, IptMarks(p), p.inst);
    assert Mangle(p.c, p.inv, p.inst) == (if p.c.fw.nftables then [n] + [i] else [i] + [n]);
    Mangle6NoIpt(p);
    NoIptNoCmds([n], rank);
    assert [i][..0] == [] && PlanOf([i]) == ActsOf(i);
    CmdsOfParts([n], [i], rank);
    CmdsOfParts([i], [n], rank);
  }

  ghost function HeadResources(p: Pass): seq<Resource>
    requires Shaped(p)
  {
    Stale4(p.c.rt, p.inv, p.st.linksStale, Listed4(p)) + Stale6(p.c.rt, p.inv, p.st.linksStale, Listed6(p)) + Tables(p.inv, p.inst, p.ids)
  }

  lemma OthersHaveNoCmds(p: Pass, rank: int)
    requires Shaped(p)
    ensures CmdsAt(PlanOf(HeadResources(p)), rank) == []
    ensures CmdsAt(PlanOf([Mangle6(p.c, p.inv, p.inst)]), rank) == []
    ensures CmdsAt(PlanOf(LastResources(p.c, p.inv, p.inst, p.comments)), rank) == []
  {
    StaleAndTablesNoIpt(p);
    Mangle6NoIpt(p);
    LastNoIpt(p);
    NoIptNoCmds(HeadResources(p), rank);
    NoIptNoCmds([Mangle6(p.c, p.inv, p.inst)], rank);
    NoIptNoCmds(LastResources(p.c, p.inv, p.inst, p.comments), rank);
  }

  /** Only the iptables resource contributes commands. */
  lemma CmdsOfBatch(p: Pass, rank: int)
    requires Shaped(p)
    ensures CmdsAt(BatchOf(p), rank) == CmdsAt(ActsOf(IptMangle(p.c, IptMarks(p), p.inst)), rank)
  {
    var head, mangle, six := HeadResources(p), Mangle(p.c, p.inv, p.inst), [Mangle6(p.c, p.inv, p.inst)];
    var last := LastResources(p.c, p.inv, p.inst, p.comments);
    OthersHaveNoCmds(p, rank);
    CmdsOfParts(head, mangle, rank);
    CmdsOfParts(head + mangle, six, rank);
    CmdsOfParts(head + mangle + six, last, rank);
    CmdsOfBoth(p, rank);
    assert BatchOf(p) == PlanOf(head + mangle + six + last);
  }

  lemma IptInTwoRanks(p: Pass)
    requires Shaped(p)
    ensures TwoRanks(BatchOf(p)) && OneChain(p.c.fw.chain, Executed(p))
  {
    BatchesAreAllowed(p);
    var acts := BatchOf(p);
    forall i | 0 <= i < |acts| && acts[i].op.Ipt?
      ensures acts[i].order == Teardown(MANGLE_CHAIN) || acts[i].order == MANGLE_CHAIN
    {
      assert Allowed(p, acts[i]);
    }
    ExecutedRuns(p);
    forall a | a in Executed(p) && a.op.Ipt?
      ensures a.op.chain == p.c.fw.chain
    {
      assert Allowed(p, a);
    }
  }

  lemma ChainIsRebuilt(p: Pass, k: Kernel)
    requires Shaped(p) && Firewall.IptNeedsRestore(IptMarks(p), p.inst.ipt)
    ensures After(p, k).ipt == Firewall.IptRun(p.c.fw.chain, Firewall.IPT_CLEANUP + Firewall.IptInstall(IptMarks(p)), k.ipt)
  {
    IptInTwoRanks(p);
    CmdsOfSorted(BatchOf(p));
    CmdsOfBatch(p, Teardown(MANGLE_CHAIN));
    CmdsOfBatch(p, MANGLE_CHAIN);
    CmdsOfMangle(p, Teardown(MANGLE_CHAIN));
    CmdsOfMangle(p, MANGLE_CHAIN);
    RunOfCmds(p.c.fw.chain, k, Executed(p));
  }

  lemma ChainIsLeftAlone(p: Pass, k: Kernel)
    requires Shaped(p) && !Firewall.IptNeedsRestore(IptMarks(p), p.inst.ipt)
    ensures After(p, k).ipt == k.ipt
  {
    ExecutedRuns(p);
    NoChainCommands(p, Executed(p));
    ChainKept(k, Executed(p));
  }

  lemma NoChainCommands(p: Pass, acts: Batch)
    requires Runs(p, acts) && !Firewall.IptNeedsRestore(IptMarks(p), p.inst.ipt)
    ensures forall a :: a in acts ==> !a.op.Ipt?
  {
    forall a | a in acts
      ensures !a.op.Ipt?
    {
      assert Allowed(p, a);
    }
  }

  lemma ChainKept(k: Kernel, acts: Batch)
    requires forall a :: a in acts ==> !a.op.Ipt?
    ensures Run(k, acts).ipt == k.ipt
  {
    var was := k.ipt;
    RunKeeps(k, acts, (s: Kernel) => s.ipt == was);
  }

  lemma RebuiltChainIsInSync(c: Settings, marks: seq<Firewall.MarkRule>, t: Firewall.IptState)
    requires marks == Firewall.MarkRules(c.fw.gateways, Firewall.V4, c.fw.rules) && |c.fw.gateways| <= 500
    requires Firewall.OwnJumps(t) && Firewall.ChainName(c.fw.chain)
    ensures var after := Firewall.IptRun(c.fw.chain, Firewall.IPT_CLEANUP + Firewall.IptInstall(marks), t);
            !Firewall.IptNeedsRestore(marks, Firewall.ReadInstalledIpt(marks, after))
    ensures var none := Firewall.IptRun(c.fw.chain, Firewall.IPT_CLEANUP + Firewall.IptInstall([]), t);
            !Firewall.IptNeedsRestore([], Firewall.ReadInstalledIpt(marks, none))
  {
    Firewall.FreshIptIsInSync(c.fw.chain, c.fw.gateways, c.fw.rules, t);
    Firewall.CleanupClears(c.fw.chain, t);
    assert Firewall.IPT_CLEANUP + Firewall.IptInstall([]) == Firewall.IPT_CLEANUP;
  }

  lemma ChainAfter(p: Pass, k: Kernel)
    requires Shaped(p) && p.inv.marks == Firewall.MarkRules(p.c.fw.gateways, Firewall.V4, p.c.fw.rules)
    requires p.inst.ipt == Firewall.ReadInstalledIpt(p.inv.marks, k.ipt)
    requires Firewall.OwnJumps(k.ipt) && Firewall.ChainName(p.c.fw.chain) && |p.c.fw.gateways| <= 500
    ensures !Firewall.IptNeedsRestore(IptMarks(p), Firewall.ReadInstalledIpt(p.inv.marks, After(p, k).ipt))
  {
    if Firewall.IptNeedsRestore(IptMarks(p), p.inst.ipt) {
      ChainIsRebuilt(p, k);
      RebuiltChainIsInSync(p.c, p.inv.marks, k.ipt);
    } else {
      ChainIsLeftAlone(p, k);
    }
  }

  // ----- everything in place means nothing to plan ---------------------------------------------------

  ghost predicate RulesInPlace(c: Settings, inv: Inventory, k: Kernel) {
    && PlanOf(Stale4(c.rt, inv, false, GatewayRuleIfs(c.rt, RuleLines(k.rules.v4)))) == []
    && FwmarksInSync(inv.fwmarks4, Some(RuleLines(k.rules.v4)))
    && FwmarksInSync(inv.fwmarks6, Some(RuleLines(k.rules.v6)))
  }

  ghost predicate TablesInPlace(c: Settings, st: State, inv: Inventory, k: Kernel) {
    forall id :: id in inv.tables ==>
      id in ReadIds(c, st) && TableInSync(inv.tables[id], Some(RuleLines(k.rules.Of(id.fam))), ReadContents(c, k, id))
  }

  ghost predicate RoutesInPlace(c: Settings, inv: Inventory, t: Tools, k: Kernel) {
    && (forall fam :: fam in inv.ecmp && inv.ecmp[fam].Want? ==> EcmpInSync(inv.ecmp[fam].nexthops, ReadEcmp(k, fam, t.w.Of(fam))))
    && (forall fam :: fam !in c.rt.managed ==> fam !in AbandonedIn(c, t.w, t.addresses, k))
  }

  ghost predicate MarksInPlace(c: Settings, inv: Inventory, k: Kernel) {
    && !Firewall.NftNeedsRestore(Firewall.V4, if c.fw.nftables then inv.marks else [], ReadNft4(c, k))
    && !Firewall.IptNeedsRestore(if c.fw.nftables then [] else inv.marks, Firewall.ReadInstalledIpt(inv.marks, k.ipt))
    && !Firewall.NftNeedsRestore(Firewall.V6([]), inv.marks6, ReadNft6(c, k))
  }

  ghost predicate TranslationInPlace(c: Settings, inv: Inventory, k: Kernel) {
    c.translates ==>
      && !Translation.NeedsRestore(inv.nptRules, ReadNpt(c, k))
      && (if Proxies(c) then !Learning.NeedsRestore(Learning.RuleKeys(inv.learn), ReadLearn(c, k)) else ReadLearn(c, k) == None)
  }

  /** No stale IPv6 table is left. */
  ghost predicate Reaped6(c: Settings, inv: Inventory, k: Kernel) {
    PlanOf(Stale6(c.rt, inv, false, FwmarksIn(c.rt, RuleLines(k.rules.v6)))) == []
  }

  /** Everything but the stale IPv6 tables is as it should be. */
  ghost predicate InPlace(c: Settings, st: State, inv: Inventory, t: Tools, k: Kernel) {
    && RulesInPlace(c, inv, k)
    && TablesInPlace(c, st, inv, k)
    && RoutesInPlace(c, inv, t, k)
    && MarksInPlace(c, inv, k)
    && TranslationInPlace(c, inv, k)
  }

  lemma {:induction false} TablesAre(inv: Inventory, inst: Installed, ids: seq<TableId>, r: Resource)
    requires (forall id :: id in ids ==> id in inv.tables) && r in Tables(inv, inst, ids)
    ensures r.verdict.Wanted?
    ensures (forall id :: id in ids ==> TableInSync(inv.tables[id], inst.rules.Of(id.fam), ContentsOf(inst, id))) ==> r.inSync
  {
    var n := |ids| - 1;
    assert ids == ids[..n] + [ids[n]];
    if r in Tables(inv, inst, ids[..n]) {
      TablesAre(inv, inst, ids[..n], r);
    }
  }

  lemma {:induction false} EcmpQuiet(c: Settings, inv: Inventory, inst: Installed, managed: seq<Fam>)
    requires forall fam :: fam in managed && fam in inv.ecmp && inv.ecmp[fam].Want? ==> EcmpInSync(inv.ecmp[fam].nexthops, EcmpRead(inst, fam))
    ensures Quiet(Ecmp(c, inv, inst, managed))
  {
    if managed != [] {
      var n := |managed| - 1;
      assert managed == managed[..n] + [managed[n]];
      EcmpQuiet(c, inv, inst, managed[..n]);
    }
  }

  lemma FirstIsQuiet(q: Pass, t: Tools, k: Kernel)
    requires Shaped(q) && !q.st.linksStale && q.inst == ReadBack(q, t, k)
    requires RulesInPlace(q.c, q.inv, k) && Reaped6(q.c, q.inv, k) && TablesInPlace(q.c, q.st, q.inv, k) && MarksInPlace(q.c, q.inv, k)
    ensures Quiet(FirstResources(q.c, q.st.linksStale, q.inv, q.inst, q.ids))
  {
    QuietPlan(Stale4(q.c.rt, q.inv, q.st.linksStale, Listed4(q)));
    QuietPlan(Stale6(q.c.rt, q.inv, q.st.linksStale, Listed6(q)));
    TablesQuiet(q, t, k);
    MangleQuiet(q, t, k);
  }

  lemma TablesQuiet(q: Pass, t: Tools, k: Kernel)
    requires Shaped(q) && q.inst == ReadBack(q, t, k) && TablesInPlace(q.c, q.st, q.inv, k)
    ensures Quiet(Tables(q.inv, q.inst, q.ids))
  {
    forall r | r in Tables(q.inv, q.inst, q.ids)
      ensures ActsOf(r) == []
    {
      TablesAre(q.inv, q.inst, q.ids, r);
    }
  }

  lemma MangleQuiet(q: Pass, t: Tools, k: Kernel)
    requires Shaped(q) && q.inst == ReadBack(q, t, k) && MarksInPlace(q.c, q.inv, k)
    ensures Quiet(Mangle(q.c, q.inv, q.inst)) && Quiet([Mangle6(q.c, q.inv, q.inst)])
  {
    MangleParts(q);
  }

  lemma LastIsQuiet(q: Pass, t: Tools, k: Kernel)
    requires Shaped(q) && q.inst == ReadBack(q, t, k)
    requires RulesInPlace(q.c, q.inv, k) && RoutesInPlace(q.c, q.inv, t, k) && TranslationInPlace(q.c, q.inv, k)
    ensures Quiet(LastResources(q.c, q.inv, q.inst, q.comments))
  {
    FwmarksQuiet(q, t, k, IPv4);
    FwmarksQuiet(q, t, k, IPv6);
    RoutesQuiet(q, t, k);
    NftQuiet(q, t, k);
    QuietJoins(q);
  }

  lemma FwmarksQuiet(q: Pass, t: Tools, k: Kernel, fam: Fam)
    requires q.inst == ReadBack(q, t, k) && FwmarksInSync(FwmarksOf(q, fam), Some(RuleLines(k.rules.Of(fam))))
    ensures Quiet(Fwmarks(fam, FwmarksOf(q, fam), q.inst))
  {
    assert q.inst.rules.Of(fam) == Some(RuleLines(k.rules.Of(fam)));
  }

  lemma RoutesQuiet(q: Pass, t: Tools, k: Kernel)
    requires q.inst == ReadBack(q, t, k) && RoutesInPlace(q.c, q.inv, t, k)
    ensures Quiet(Ecmp(q.c, q.inv, q.inst, q.c.rt.managed))
    ensures Quiet(AbandonedOf(q.c, q.inst, IPv4)) && Quiet(AbandonedOf(q.c, q.inst, IPv6))
  {
    EcmpQuiet(q.c, q.inv, q.inst, q.c.rt.managed);
  }

  lemma QuietJoins(q: Pass)
    requires Shaped(q)
    requires Quiet(Fwmarks(IPv4, q.inv.fwmarks4, q.inst)) && Quiet(Fwmarks(IPv6, q.inv.fwmarks6, q.inst))
    requires Quiet(Ecmp(q.c, q.inv, q.inst, q.c.rt.managed))
    requires Quiet(AbandonedOf(q.c, q.inst, IPv4)) && Quiet(AbandonedOf(q.c, q.inst, IPv6))
    requires Quiet(Nft(q.c, q.inv, q.inst, q.comments))
    ensures Quiet(LastResources(q.c, q.inv, q.inst, q.comments))
  {
  }

  lemma NftQuiet(q: Pass, t: Tools, k: Kernel)
    requires Shaped(q) && q.inst == ReadBack(q, t, k) && TranslationInPlace(q.c, q.inv, k)
    ensures Quiet(Nft(q.c, q.inv, q.inst, q.comments))
  {
  }

  /** A pass that reads a kernel with everything in place, and nothing to reap, plans nothing. */
  lemma InPlaceIsQuiet(q: Pass, t: Tools, k: Kernel)
    requires Shaped(q) && !q.st.linksStale && q.inst == ReadBack(q, t, k) && InPlace(q.c, q.st, q.inv, t, k)
    requires Reaped6(q.c, q.inv, k)
    ensures BatchOf(q) == []
  {
    FirstIsQuiet(q, t, k);
    LastIsQuiet(q, t, k);
    AllQuiet(ResourcesOf(q));
  }

  // ----- one pass puts everything in place -------------------------------------------------------------

  lemma RulesAfter(p: Pass, t: Tools, k: Kernel)
    requires Shaped(p) && !p.st.linksStale && p.inst == ReadBack(p, t, k) && FewMarks(p.c, p.inv) && SoundTables(p.inv)
    requires Priorities(k.rules.v4) && Priorities(k.rules.v6) && AllEvidenced(p, k)
    ensures RulesInPlace(p.c, p.inv, After(p, k))
  {
    Stale4After(p, k);
    FwmarksAfter(p, k, IPv4);
    FwmarksAfter(p, k, IPv6);
  }

  ghost predicate TablesRead(c: Settings, st: State, inv: Inventory) {
    forall id :: id in inv.tables ==> id in ReadIds(c, st)
  }

  lemma TablesAreRead(p: Pass)
    requires Computed(p.c, p.st, p.inv) && LinksMatch(p.st)
    ensures TablesRead(p.c, p.st, p.inv)
  {
    forall id | id in p.inv.tables
      ensures id in ReadIds(p.c, p.st)
    {
      WantedTablesAreRead(p, id);
    }
  }

  lemma TablesAfter(p: Pass, t: Tools, k: Kernel)
    requires Shaped(p) && p.inst == ReadBack(p, t, k) && SoundTables(p.inv) && TablesRead(p.c, p.st, p.inv)
    requires Priorities(k.rules.v4) && AllEvidenced(p, k)
    ensures TablesInPlace(p.c, p.st, p.inv, After(p, k))
  {
    forall id | id in p.inv.tables
      ensures TableInSync(p.inv.tables[id], Some(RuleLines(After(p, k).rules.Of(id.fam))), ReadContents(p.c, After(p, k), id))
    {
      TableAfter(p, t, k, id);
    }
  }

  ghost predicate SoundRoutes(inv: Inventory) {
    forall fam :: fam in inv.ecmp && inv.ecmp[fam].Want? ==> SoundHops(inv.ecmp[fam].nexthops)
  }

  lemma RoutesAreSound(p: Pass)
    requires Computed(p.c, p.st, p.inv) && Consistent(p.st.gateways) && TameState(p)
    ensures SoundRoutes(p.inv)
  {
    forall fam | fam in p.inv.ecmp && p.inv.ecmp[fam].Want?
      ensures SoundHops(p.inv.ecmp[fam].nexthops)
    {
      WantedHopsAreSound(p, fam);
    }
  }

  lemma RoutesAfter(p: Pass, t: Tools, k: Kernel)
    requires Shaped(p) && p.inst == ReadBack(p, t, k) && Sensible(t) && SoundRoutes(p.inv) && MetricIsFree(p.c, k)
    ensures RoutesInPlace(p.c, p.inv, t, After(p, k))
  {
    forall fam | fam in p.inv.ecmp && p.inv.ecmp[fam].Want?
      ensures EcmpInSync(p.inv.ecmp[fam].nexthops, ReadEcmp(After(p, k), fam, t.w.Of(fam)))
    {
      RouteAfter(p, k, fam, t.w.Of(fam));
    }
    forall fam | fam !in p.c.rt.managed
      ensures fam !in AbandonedIn(p.c, t.w, t.addresses, After(p, k))
    {
      AbandonedAfter(p, t, k, fam);
    }
  }

  ghost predicate SoundMarks(p: Pass) {
    && Firewall.AllPrintable(NftMarks(p)) && Firewall.AllPrintable(p.inv.marks6)
    && p.inv.marks == Firewall.MarkRules(p.c.fw.gateways, Firewall.V4, p.c.fw.rules)
  }

  lemma MarksAreSound(p: Pass)
    requires Validated(p.c) && Computed(p.c, p.st, p.inv)
    ensures SoundMarks(p)
  {
    MarksArePrintable(p);
    ComputedParts(p.c, p.st, p.inv);
  }

  lemma MarksAfter(p: Pass, t: Tools, k: Kernel)
    requires Shaped(p) && p.inst == ReadBack(p, t, k) && SoundMarks(p)
    requires NamesAgree(p) && Firewall.OwnJumps(k.ipt) && Firewall.ChainName(p.c.fw.chain) && |p.c.fw.gateways| <= 500
    ensures MarksInPlace(p.c, p.inv, After(p, k))
  {
    Marks4After(p, k);
    Marks6After(p, k);
    ChainAfter(p, k);
  }

  lemma AssignmentsAreNamed(c: Settings, st: State)
    requires c.translates && forall u :: u in c.npt.uplinks ==> u.name != ""
    requires Assign.DistinctNames(c.npt.uplinks)
    ensures Translation.Named(c.npt, AssignmentsOf(c, st))
  {
    AssignedNames(c.npt, c.npt.uplinks, st.leases, ActiveAmong(c, st, c.npt.uplinks));
  }

  lemma {:induction false} AssignedNames(o: Assign.Options, uplinks: seq<Assign.Uplink>, leases: map<string, Assign.Lease>, active: set<string>)
    ensures forall a :: a in Assign.AssignedAll(o, uplinks, leases, active) ==>
              exists i :: 0 <= i < |uplinks| && uplinks[i].name == a.uplink
  {
    if uplinks != [] {
      var n := |uplinks| - 1;
      AssignedNames(o, uplinks[..n], leases, active);
      forall a | a in Assign.AssignedAll(o, uplinks[..n], leases, active)
        ensures exists i :: 0 <= i < |uplinks| && uplinks[i].name == a.uplink
      {
        var i :| 0 <= i < n && uplinks[..n][i].name == a.uplink;
        assert uplinks[i].name == a.uplink;
      }
    }
  }

  lemma {:induction false} LearnedNames(uplinks: seq<ProxyUplink>)
    requires forall u :: u in uplinks ==> u.name != ""
    ensures forall i :: 0 <= i < |LearnRules(uplinks)| ==> LearnRules(uplinks)[i].uplink != ""
  {
    if uplinks != [] {
      var n := |uplinks| - 1;
      assert uplinks == uplinks[..n] + [uplinks[n]];
      LearnedNames(uplinks[..n]);
    }
  }

  lemma TranslationIsSound(p: Pass)
    requires Validated(p.c) && Computed(p.c, p.st, p.inv) && TameSettings(p.c)
    ensures p.c.translates ==> Translated(p)
    ensures SoundLearning(p)
  {
    ComputedParts(p.c, p.st, p.inv);
    if p.c.translates {
      AssignmentsAreNamed(p.c, p.st);
    }
    LearnedNames(p.c.nd.uplinks);
  }

  lemma TranslationAfter(p: Pass, t: Tools, k: Kernel)
    requires Shaped(p) && p.inst == ReadBack(p, t, k) && (p.c.translates ==> Translated(p)) && SoundLearning(p)
    requires NamesAgree(p) && MarksInPlace(p.c, p.inv, After(p, k))
    ensures TranslationInPlace(p.c, p.inv, After(p, k))
  {
    if p.c.translates {
      NptAfter(p, k);
      if NdNameFree(p.c) {
        if Proxies(p.c) {
          LearnAfter(p, k);
        } else {
          NoLearnAfter(p, k);
        }
      }
    }
  }

  lemma NamesDoAgree(p: Pass)
    requires Validated(p.c) && Computed(p.c, p.st, p.inv) && !NameClash(p.c, p.inv)
    ensures NamesAgree(p)
  {
    ComputedParts(p.c, p.st, p.inv);
    assert p.c.fw.rules6 == [] ==> p.inv.marks6 == [];
  }

  /** One undisturbed pass over a tame kernel puts everything but stale IPv6 tables in place. */
  lemma PassPutsInPlace(p: Pass, t: Tools, k: Kernel)
    requires TamePass(p, t, k) && LinksMatch(p.st)
    requires !NameClash(p.c, p.inv) && AllEvidenced(p, k)
    ensures InPlace(p.c, p.st, p.inv, t, After(p, k))
  {
    NamesDoAgree(p);
    MarksAreBuilt(p.c, p.st, p.inv);
    RulesAfter(p, t, k);
    TablesAreRead(p);
    TablesAfter(p, t, k);
    RoutesAreSound(p);
    RoutesAfter(p, t, k);
    MarksAreSound(p);
    MarksAfter(p, t, k);
    TranslationIsSound(p);
    TranslationAfter(p, t, k);
  }

  // ----- and exactly when it does ------------------------------------------------------------------------

  /** Whatever the kernel holds, a pass over clashing names has something to do. */
  lemma ClashIsNeverQuiet(q: Pass, t: Tools, k: Kernel)
    requires Shaped(q) && q.inst == ReadBack(q, t, k) && NameClash(q.c, q.inv) && NamesValidated(q)
    requires q.c.translates ==> Translated(q)
    ensures BatchOf(q) != []
  {
    if q.c.fw.table == q.c.npt.table && q.inv.ruleset.Some? {
      NptClash(q, t, k);
    } else {
      LearnClash(q, t, k);
    }
  }

  /** Without IPv6 marks to keep, a table of their name is taken away. */
  lemma UnwantedMarksAreNotQuiet(q: Pass, k: Kernel)
    requires Shaped(q) && q.inst.nft6 == ReadNft6(q.c, k) && q.inv.marks6 == [] && ListTable(k, MarkTable6(q.c)).Some?
    ensures BatchOf(q) != []
  {
    Parts(q);
    HasActs(ResourcesOf(q), Mangle6(q.c, q.inv, q.inst), CleanupNft6(q.c)[0]);
  }

  lemma MissingNptIsNotQuiet(q: Pass, k: Kernel)
    requires Shaped(q) && q.inst.npt == ReadNpt(q.c, k) && Translated(q) && q.inv.ruleset.Some? && ListTable(k, NptTable(q.c)).None?
    ensures BatchOf(q) != []
  {
    Parts(q);
    NoTableNoKeys(q.c.npt, q.inv.assignments);
    var r := NptResource(q);
    HasActs(ResourcesOf(q), r, NptActs(q.c, q.inv.ruleset, q.comments)[0]);
  }

  lemma NptClash(q: Pass, t: Tools, k: Kernel)
    requires Shaped(q) && q.inst == ReadBack(q, t, k) && NamesValidated(q) && q.c.translates && Translated(q)
    requires q.c.fw.table == q.c.npt.table && q.inv.ruleset.Some?
    ensures BatchOf(q) != []
  {
    if ListTable(k, NptTable(q.c)).Some? {
      UnwantedMarksAreNotQuiet(q, k);
    } else {
      MissingNptIsNotQuiet(q, k);
    }
  }

  /** What validation does rule out: IPv6 marks need the nftables backend, whose table name
      differs from that of the translation table and of a learning table in use. */
  predicate NamesValidated(q: Pass) {
    q.inv.marks6 != [] ==> q.c.fw.table != q.c.npt.table && (Proxies(q.c) ==> q.c.fw.table != q.c.nd.table)
  }

  lemma HasActs(rs: seq<Resource>, r: Resource, x: Act<Op>)
    requires r in rs && x in ActsOf(r)
    ensures PlanOf(rs) != []
  {
    PlanMembers(rs, x);
  }

  lemma NptResource(p: Pass) returns (r: Resource)
    requires Shaped(p) && p.c.translates
    ensures r in Nft(p.c, p.inv, p.inst, p.comments)
    ensures NptDrifted(p) ==> ActsOf(r) == NptActs(p.c, p.inv.ruleset, p.comments)
  {
    r := Nft(p.c, p.inv, p.inst, p.comments)[0];
  }

  lemma MissingLearnIsNotQuiet(q: Pass, k: Kernel)
    requires Shaped(q) && q.inst.learn == ReadLearn(q.c, k) && q.c.translates && Proxies(q.c) && q.inv.learn != []
    requires ListTable(k, LearnTable(q.c)).None?
    ensures BatchOf(q) != []
  {
    Parts(q);
    assert Learning.KeyOf(q.inv.learn[0]) in Learning.RuleKeys(q.inv.learn);
    var r := LearnResource(q);
    HasActs(ResourcesOf(q), r, LearnActs(q.c, q.inv.learn)[0]);
  }

  lemma UnwantedLearnIsNotQuiet(q: Pass, k: Kernel)
    requires Shaped(q) && q.inst.learn == ReadLearn(q.c, k) && q.c.translates && !Proxies(q.c)
    requires ListTable(k, LearnTable(q.c)).Some?
    ensures BatchOf(q) != []
  {
    Parts(q);
    var r := NoLearnResource(q);
    HasActs(ResourcesOf(q), r, Act(NFT_TABLE, NftDelete(LearnTable(q.c))));
  }

  lemma MissingMarksAreNotQuiet(q: Pass, k: Kernel)
    requires Shaped(q) && q.inst.nft6 == ReadNft6(q.c, k) && q.inv.marks6 != [] && ListTable(k, MarkTable6(q.c)).None?
    ensures BatchOf(q) != []
  {
    Parts(q);
    HasActs(ResourcesOf(q), Mangle6(q.c, q.inv, q.inst), CleanupNft6(q.c)[0]);
  }

  lemma LearnClash(q: Pass, t: Tools, k: Kernel)
    requires Shaped(q) && q.inst == ReadBack(q, t, k) && NamesValidated(q) && q.c.translates && q.c.fw.table == q.c.nd.table
    requires if Proxies(q.c) then q.inv.learn != [] else q.inv.marks6 != []
    ensures BatchOf(q) != []
  {
    if ListTable(k, LearnTable(q.c)).Some? {
      if Proxies(q.c) {
        UnwantedMarksAreNotQuiet(q, k);
      } else {
        UnwantedLearnIsNotQuiet(q, k);
      }
    } else if Proxies(q.c) {
      MissingLearnIsNotQuiet(q, k);
    } else {
      MissingMarksAreNotQuiet(q, k);
    }
  }

  lemma NamesAreValidated(p: Pass)
    requires Validated(p.c) && Computed(p.c, p.st, p.inv)
    ensures NamesValidated(p)
  {
    ComputedParts(p.c, p.st, p.inv);
    assert p.c.fw.rules6 == [] ==> p.inv.marks6 == [];
  }

  lemma SecondRuleIsNotQuiet(p: Pass, q: Pass, t: Tools, k: Kernel)
    requires Shaped(p) && FewMarks(p.c, p.inv) && !p.st.linksStale && p.inst.rules.v6 == Some(RuleLines(k.rules.v6))
    requires Priorities(k.rules.v6) && !OneRulePerStaleTable(p, k.rules.v6)
    requires Shaped(q) && q.c == p.c && q.st == p.st && q.inv == p.inv && q.inst == ReadBack(q, t, After(p, k))
    ensures BatchOf(q) != []
  {
    IsPass6(p, k);
    Stale6SettlesExactly(p, k, Executed(p));
    Parts(q);
    var rs := Stale6(q.c.rt, q.inv, q.st.linksStale, Listed6(q));
    var x := PlanOf(rs)[0];
    PlanMembers(rs, x);
    PlanMembers(ResourcesOf(q), x);
  }

  lemma LostTableIsNotQuiet(p: Pass, q: Pass, t: Tools, k: Kernel, id: TableId)
    requires Shaped(p) && p.inst == ReadBack(p, t, k) && SoundTables(p.inv) && id in ReadIds(p.c, p.st)
    requires UniquePriorities(k.rules.v4) && id in p.inv.tables && !TableEvidenced(p, k, id)
    requires Shaped(q) && q.c == p.c && q.st == p.st && q.inv == p.inv && q.inst == ReadBack(q, t, After(p, k))
    ensures BatchOf(q) != []
  {
    TableAfter(p, t, k, id);
    Parts(q);
    DriftedTableIsNotQuiet(q, id);
  }

  lemma DriftedTableIsNotQuiet(q: Pass, id: TableId)
    requires Shaped(q) && id in q.inv.tables && Part(Tables(q.inv, q.inst, q.ids), ResourcesOf(q))
    requires !TableInSync(q.inv.tables[id], q.inst.rules.Of(id.fam), ContentsOf(q.inst, id))
    ensures BatchOf(q) != []
  {
    assert id in Range(q.ids);
    TablesHas(q.inv, q.inst, q.ids, id);
    var spec := q.inv.tables[id];
    var r := Resource(Wanted, false, TableActs(spec), []);
    HasActs(ResourcesOf(q), r, TableActs(spec)[0]);
  }

  lemma LostMarkIsNotQuiet(p: Pass, q: Pass, t: Tools, k: Kernel, fam: Fam)
    requires Shaped(p) && UniquePriorities(k.rules.Of(fam)) && !MarksEvidenced(p, k, fam)
    requires Shaped(q) && q.c == p.c && q.inv == p.inv && q.inst == ReadBack(q, t, After(p, k))
    ensures BatchOf(q) != []
  {
    FwmarksAfter(p, k, fam);
    Parts(q);
    var specs := FwmarksOf(q, fam);
    var rs := Fwmarks(fam, specs, q.inst);
    HasActs(ResourcesOf(q), rs[0], FwmarkActs(fam, specs)[0]);
  }

  lemma LostEvidenceIsNotQuiet(p: Pass, q: Pass, t: Tools, k: Kernel)
    requires Shaped(p) && p.inst == ReadBack(p, t, k) && SoundTables(p.inv) && TablesRead(p.c, p.st, p.inv)
    requires UniquePriorities(k.rules.v4) && UniquePriorities(k.rules.v6) && !AllEvidenced(p, k)
    requires Shaped(q) && q.c == p.c && q.st == p.st && q.inv == p.inv && q.inst == ReadBack(q, t, After(p, k))
    ensures BatchOf(q) != []
  {
    if id :| id in p.inv.tables && !TableEvidenced(p, k, id) {
      LostTableIsNotQuiet(p, q, t, k, id);
    } else if !MarksEvidenced(p, k, IPv4) {
      LostMarkIsNotQuiet(p, q, t, k, IPv4);
    } else {
      LostMarkIsNotQuiet(p, q, t, k, IPv6);
    }
  }

  /** The loop settles: after one undisturbed pass over a tame kernel the next pass, whatever
      order it visits its tables in and however it words its comments, computes the same
      inventory and plans nothing, if and only if no stale table was selected by two fwmark rules,
      no two owners of one nftables name disagree, and no wanted rule had all its textual
      evidence reaped. */
  lemma SecondPassIsQuiet(p: Pass, q: Pass, t: Tools, k: Kernel)
    requires TamePass(p, t, k) && LinksMatch(p.st)
    requires Sane(q) && q.c == p.c && q.st == p.st && q.inst == ReadBack(q, t, After(p, k))
    ensures q.inv == p.inv
    ensures Shaped(q) && (BatchOf(q) == [] <==> OneRulePerStaleTable(p, k.rules.v6) && !NameClash(p.c, p.inv) && AllEvidenced(p, k))
  {
    InventoryIsUnique(p.c, p.st, q.inv, p.inv);
    SaneIsShaped(q);
    if NameClash(p.c, p.inv) {
      NamesAreValidated(q);
      TranslationIsSound(q);
      ClashIsNeverQuiet(q, t, After(p, k));
    } else if !OneRulePerStaleTable(p, k.rules.v6) {
      MarksAreBuilt(p.c, p.st, p.inv);
      SecondRuleIsNotQuiet(p, q, t, k);
    } else if !AllEvidenced(p, k) {
      TablesAreRead(p);
      LostEvidenceIsNotQuiet(p, q, t, k);
    } else {
      PassPutsInPlace(p, t, k);
      MarksAreBuilt(p.c, p.st, p.inv);
      Stale6After(p, k);
      InPlaceIsQuiet(q, t, After(p, k));
    }
  }
}
