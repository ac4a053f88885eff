/** What every batch of a pass contains, whatever was read, and in which order it runs. */
module PlanFacts {
  import opened Common
  import opened Tokens
  import opened Numbers
  import opened Routes
  import opened Gateways
  import opened Command
  import opened Desired
  import opened InventoryFacts
  import opened Kernel
  import opened Plan
  import Firewall
  import Translation
  import Learning

  /** A pass with everything it was given. */
  datatype Pass = Pass(c: Settings, st: State, inv: Inventory, inst: Installed, ids: seq<TableId>, comments: Translation.Comments)

  /** A pass over an inventory computed from settings and state. */
  ghost predicate Sane(p: Pass) {
    && Validated(p.c) && Computed(p.c, p.st, p.inv) && Consistent(p.st.gateways)
    && Plannable(p.inv, p.ids, p.comments)
  }

  ghost predicate GoodTables(c: Settings, inv: Inventory) {
    forall id :: id in inv.tables ==>
      && inv.tables[id].fam == id.fam && inv.tables[id].ifIndex == id.ifIndex
      && 0 < inv.tables[id].table < RESERVED_TABLE && inv.tables[id].table == c.rt.offset + id.ifIndex
      && (id.fam.IPv4? ==> inv.tables[id].prio == GatewayPriority(inv.tables[id].table))
  }

  /** What planning needs of it. */
  ghost predicate Shaped(p: Pass) {
    && GoodTables(p.c, p.inv)
    && Plannable(p.inv, p.ids, p.comments)
    && forall fam :: fam in p.inv.ecmp <==> fam in p.c.rt.managed
  }

  lemma SaneIsShaped(p: Pass)
    requires Sane(p)
    ensures Shaped(p)
  {
    forall id | id in p.inv.tables
      ensures var spec := p.inv.tables[id];
              && spec.fam == id.fam && spec.ifIndex == id.ifIndex
              && 0 < spec.table < RESERVED_TABLE && spec.table == p.c.rt.offset + id.ifIndex
              && (id.fam.IPv4? ==> spec.prio == GatewayPriority(spec.table))
    {
      WantedTables(p.c, p.st, p.inv, id);
    }
    forall fam
      ensures fam in p.inv.ecmp <==> fam in p.c.rt.managed
    {
      EcmpIsInstallable(p.c, p.st, p.inv, fam);
    }
  }

  ghost function BatchOf(p: Pass): Batch
    requires Shaped(p)
  {
    BatchFor(p.c, p.st.linksStale, p.inv, p.inst, p.ids, p.comments)
  }

  ghost function ResourcesOf(p: Pass): seq<Resource>
    requires Shaped(p)
  {
    Resources(p.c, p.st.linksStale, p.inv, p.inst, p.ids, p.comments)
  }

  lemma {:induction false} PlanMembers(rs: seq<Resource>, x: Act<Op>)
    ensures x in PlanOf(rs) <==> exists r :: r in rs && x in ActsOf(r)
  {
    if rs != [] {
      var n := |rs| - 1;
      assert rs == rs[..n] + [rs[n]];
      PlanMembers(rs[..n], x);
    }
  }

  function Listed4(p: Pass): seq<nat> {
    GatewayRuleIfs(p.c.rt, LinesOf(p.inst.rules.v4))
  }

  function Listed6(p: Pass): seq<InstalledFwmark> {
    FwmarksIn(p.c.rt, LinesOf(p.inst.rules.v6))
  }

  // ----- what an action of a batch can be -------------------------------------------------------

  /** Stale on the IPv4 side: listed, not wanted, and its table is none of the kernel's. */
  ghost predicate StaleIf(p: Pass, i: nat) {
    !p.st.linksStale && i in Listed4(p) && TableId(IPv4, i) !in p.inv.tables
  }

  ghost predicate StaleMark(p: Pass, e: InstalledFwmark) {
    !p.st.linksStale && e in Listed6(p) && TableId(IPv6, e.ifIndex) !in p.inv.tables
  }

  /** A wanted table that is not as it should be. */
  ghost predicate DriftedTable(p: Pass, fam: Fam, spec: TableSpec) {
    exists id :: id in p.inv.tables && id.fam == fam && p.inv.tables[id] == spec &&
                 !TableInSync(spec, p.inst.rules.Of(fam), ContentsOf(p.inst, id))
  }

  function FwmarksOf(p: Pass, fam: Fam): seq<FwmarkSpec> {
    if fam.IPv4? then p.inv.fwmarks4 else p.inv.fwmarks6
  }

  ghost predicate RuleDelAllowed(p: Pass, order: int, fam: Fam, prio: int) {
    if fam.IPv4?
    then order == Teardown(TABLE_RULE) && exists i :: StaleIf(p, i) && TableForIface(p.c.rt, i).Some? && prio == GatewayPriority(p.c.rt.offset + i)
    else order == Teardown(FWMARK_RULE) && exists e :: StaleMark(p, e) && prio == e.prio
  }

  ghost predicate FlushAllowed(p: Pass, order: int, fam: Fam, table: nat) {
    && order == Teardown(TABLE_ROUTES)
    && 0 < table < RESERVED_TABLE && p.c.rt.offset <= table
    && TableId(fam, table - p.c.rt.offset) !in p.inv.tables
  }

  ghost predicate ReplaceAllowed(p: Pass, order: int, fam: Fam, table: nat, line: Fields) {
    && order == TABLE_ROUTES
    && exists spec :: DriftedTable(p, fam, spec) && spec.table == table &&
         (line == DefaultLine(spec) || (spec.subnet != "" && line == [spec.subnet, "dev", spec.ifName, "src", spec.src]))
  }

  ghost predicate RuleAddAllowed(p: Pass, order: int, fam: Fam, rule: Rule) {
    || (order == TABLE_RULE && fam.IPv4? && exists spec :: DriftedTable(p, IPv4, spec) && rule == TableRule(spec))
    || (order == FWMARK_RULE && !FwmarksInSync(FwmarksOf(p, fam), p.inst.rules.Of(fam))
        && exists f :: f in FwmarksOf(p, fam) && rule == FwmarkRule(f))
  }

  /** The marks each IPv4 backend is to hold: the one not chosen none. */
  function NftMarks(p: Pass): seq<Firewall.MarkRule> {
    if p.c.fw.nftables then p.inv.marks else []
  }

  function IptMarks(p: Pass): seq<Firewall.MarkRule> {
    if p.c.fw.nftables then [] else p.inv.marks
  }

  predicate Nft4Drifted(p: Pass) {
    Firewall.NftNeedsRestore(Firewall.V4, NftMarks(p), p.inst.nft)
  }

  predicate Nft6Drifted(p: Pass) {
    Firewall.NftNeedsRestore(Firewall.V6([]), p.inv.marks6, p.inst.nft6)
  }

  predicate NptDrifted(p: Pass) {
    p.c.translates && Translation.NeedsRestore(p.inv.nptRules, p.inst.npt)
  }

  predicate LearnDrifted(p: Pass) {
    p.c.translates && Proxies(p.c) && Learning.NeedsRestore(Learning.RuleKeys(p.inv.learn), p.inst.learn)
  }

  ghost predicate NftDeleteAllowed(p: Pass, order: int, name: NftName) {
    || (order == Teardown(MANGLE_CHAIN) && Nft4Drifted(p) && (name == MarkTable4(p.c) || name == LegacyTable(p.c)))
    || (order == Teardown(MANGLE_CHAIN) && Nft6Drifted(p) && name == MarkTable6(p.c))
    || (order == NFT_TABLE && NptDrifted(p) && name == NptTable(p.c) && p.inv.ruleset.None?)
    || (order == NFT_TABLE && p.c.translates && !Proxies(p.c) && p.inst.learn.Some? && name == LearnTable(p.c))
  }

  ghost predicate NftWriteAllowed(p: Pass, order: int, name: NftName, lines: seq<Line>)
    requires Shaped(p)
  {
    || (order == MANGLE_CHAIN && Nft4Drifted(p) && NftMarks(p) != [] && name == MarkTable4(p.c)
        && lines == Words(Firewall.NftTable(p.c.fw.table, Firewall.V4, NftMarks(p), Firewall.Listed)))
    || (order == MANGLE_CHAIN && Nft6Drifted(p) && p.inv.marks6 != [] && name == MarkTable6(p.c)
        && lines == Words(Firewall.NftTable(p.c.fw.table, Firewall.V6([]), p.inv.marks6, Firewall.Listed)))
    || (order == NFT_TABLE && NptDrifted(p) && name == NptTable(p.c) && p.inv.ruleset.Some?
        && lines == Translation.TableLines(p.c.npt.table, p.inv.ruleset.value, p.comments))
    || (order == NFT_TABLE && LearnDrifted(p) && name == LearnTable(p.c) && p.inv.learn != []
        && lines == Learning.TableLines(p.c.nd.table, p.inv.learn, p.c.nd.timeout, p.c.nd.size, []))
  }

  /** Every action a pass may take, with its rank and its reason. */
  ghost predicate Allowed(p: Pass, x: Act<Op>)
    requires Shaped(p)
  {
    match x.op
    case RuleDel(fam, prio) => RuleDelAllowed(p, x.order, fam, prio)
    case Flush(fam, table) => FlushAllowed(p, x.order, fam, table)
    case RouteReplace(fam, table, line) => ReplaceAllowed(p, x.order, fam, table, line)
    case RuleAdd(fam, rule) => RuleAddAllowed(p, x.order, fam, rule)
    case EcmpPut(fam, metric, ns, replace) =>
      && x.order == ECMP_ROUTE && fam in p.inv.ecmp && p.inv.ecmp[fam] == Want(ns)
      && metric == (if fam.IPv6? then p.c.rt.ipv6Metric else 0) && replace == EcmpRead(p.inst, fam).present
      && !EcmpInSync(ns, EcmpRead(p.inst, fam))
    case EcmpDel(fam) => x.order == Teardown(ECMP_ROUTE) && fam !in p.c.rt.managed && fam in p.inst.abandoned
    case NftDelete(name) => NftDeleteAllowed(p, x.order, name)
    case NftWrite(name, lines) => NftWriteAllowed(p, x.order, name, lines)
    case Ipt(chain, cmd) =>
      && chain == p.c.fw.chain && Firewall.IptNeedsRestore(IptMarks(p), p.inst.ipt)
      && (x.order == MANGLE_CHAIN || x.order == Teardown(MANGLE_CHAIN))
  }

  ghost predicate AllAllowed(p: Pass, rs: seq<Resource>)
    requires Shaped(p)
  {
    forall r, x :: r in rs && x in ActsOf(r) ==> Allowed(p, x)
  }

  lemma FlushIsAllowed(p: Pass, fam: Fam, i: nat, x: Act<Op>)
    requires Shaped(p) && TableForIface(p.c.rt, i).Some? && TableId(fam, i) !in p.inv.tables
    requires x == Act(Teardown(TABLE_ROUTES), Flush(fam, p.c.rt.offset + i))
    ensures Allowed(p, x)
  {
  }

  lemma RuleDelIsAllowed(p: Pass, i: nat, x: Act<Op>)
    requires Shaped(p) && TableForIface(p.c.rt, i).Some? && StaleIf(p, i)
    requires x == Act(Teardown(TABLE_RULE), RuleDel(IPv4, GatewayPriority(p.c.rt.offset + i)))
    ensures Allowed(p, x)
  {
  }

  lemma TeardownAllowed(p: Pass, fam: Fam, i: nat, x: Act<Op>)
    requires Shaped(p) && x in TeardownTable(p.c.rt, fam, i) && TableId(fam, i) !in p.inv.tables
    requires fam.IPv4? ==> StaleIf(p, i)
    ensures Allowed(p, x)
  {
    if x.op.Flush? {
      FlushIsAllowed(p, fam, i, x);
    } else {
      RuleDelIsAllowed(p, i, x);
    }
  }

  lemma {:induction false} Stale4Allowed(p: Pass, ifs: seq<nat>)
    requires Shaped(p) && forall i :: i in ifs ==> i in Listed4(p)
    ensures AllAllowed(p, Stale4(p.c.rt, p.inv, p.st.linksStale, ifs))
  {
    if ifs != [] {
      var n := |ifs| - 1;
      assert ifs == ifs[..n] + [ifs[n]];
      Stale4Allowed(p, ifs[..n]);
      var r := StaleResource(TeardownTable(p.c.rt, IPv4, ifs[n]), p.st.linksStale);
      forall x | x in ActsOf(r) && TableId(IPv4, ifs[n]) !in p.inv.tables
        ensures Allowed(p, x)
      {
        TeardownAllowed(p, IPv4, ifs[n], x);
      }
    }
  }

  lemma StaleFwmarkAllowed(p: Pass, e: InstalledFwmark, x: Act<Op>)
    requires Shaped(p) && StaleMark(p, e) && x in StaleFwmark(p.c.rt, e)
    ensures Allowed(p, x)
  {
    if x in TeardownTable(p.c.rt, IPv6, e.ifIndex) {
      TeardownAllowed(p, IPv6, e.ifIndex, x);
    }
  }

  lemma {:induction false} Stale6Allowed(p: Pass, found: seq<InstalledFwmark>)
    requires Shaped(p) && forall e :: e in found ==> e in Listed6(p)
    ensures AllAllowed(p, Stale6(p.c.rt, p.inv, p.st.linksStale, found))
  {
    if found != [] {
      var n := |found| - 1;
      assert found == found[..n] + [found[n]];
      Stale6Allowed(p, found[..n]);
      var r := StaleResource(StaleFwmark(p.c.rt, found[n]), p.st.linksStale);
      forall x | x in ActsOf(r) && TableId(IPv6, found[n].ifIndex) !in p.inv.tables
        ensures Allowed(p, x)
      {
        StaleFwmarkAllowed(p, found[n], x);
      }
    }
  }

  lemma TableActsAllowed(p: Pass, id: TableId, x: Act<Op>)
    requires Shaped(p) && id in p.inv.tables && x in TableActs(p.inv.tables[id])
    requires !TableInSync(p.inv.tables[id], p.inst.rules.Of(id.fam), ContentsOf(p.inst, id))
    ensures Allowed(p, x)
  {
    var spec := p.inv.tables[id];
    assert DriftedTable(p, id.fam, spec);
    if x.op.RouteReplace? {
      ReplaceIsAllowed(p, id.fam, spec, x);
    }
  }

  lemma ReplaceIsAllowed(p: Pass, fam: Fam, spec: TableSpec, x: Act<Op>)
    requires Shaped(p) && DriftedTable(p, fam, spec) && spec.fam == fam && x in TableActs(spec) && x.op.RouteReplace?
    ensures Allowed(p, x)
  {
  }

  lemma {:induction false} TablesAllowed(p: Pass, ids: seq<TableId>)
    requires Shaped(p) && forall id :: id in ids ==> id in p.inv.tables
    ensures AllAllowed(p, Tables(p.inv, p.inst, ids))
  {
    if ids != [] {
      var n := |ids| - 1;
      assert ids == ids[..n] + [ids[n]];
      TablesAllowed(p, ids[..n]);
      var spec := p.inv.tables[ids[n]];
      forall x | x in TableActs(spec) && !TableInSync(spec, p.inst.rules.Of(ids[n].fam), ContentsOf(p.inst, ids[n]))
        ensures Allowed(p, x)
      {
        TableActsAllowed(p, ids[n], x);
      }
    }
  }

  lemma IptAllowed(p: Pass, x: Act<Op>)
    requires Shaped(p) && x in ActsOf(IptMangle(p.c, IptMarks(p), p.inst))
    ensures Allowed(p, x)
  {
    assert Firewall.IptNeedsRestore(IptMarks(p), p.inst.ipt);
    assert x in CleanupIpt(p.c) || x in InstallIpt(p.c, IptMarks(p));
    assert x.op.Ipt?;
  }

  lemma Nft4Allowed(p: Pass, x: Act<Op>)
    requires Shaped(p) && x in ActsOf(NftMangle4(p.c, NftMarks(p), p.inst))
    ensures Allowed(p, x)
  {
    assert Nft4Drifted(p);
    if x in CleanupNft4(p.c) {
      assert NftDeleteAllowed(p, x.order, x.op.name);
    } else {
      assert NftMarks(p) != [];
      assert NftWriteAllowed(p, x.order, x.op.name, x.op.lines);
    }
  }

  lemma MangleAllowed(p: Pass)
    requires Shaped(p)
    ensures AllAllowed(p, Mangle(p.c, p.inv, p.inst))
  {
    forall r, x | r in Mangle(p.c, p.inv, p.inst) && x in ActsOf(r)
      ensures Allowed(p, x)
    {
      if r == NftMangle4(p.c, NftMarks(p), p.inst) {
        Nft4Allowed(p, x);
      } else {
        IptAllowed(p, x);
      }
    }
  }

  lemma Mangle6Allowed(p: Pass)
    requires Shaped(p)
    ensures AllAllowed(p, [Mangle6(p.c, p.inv, p.inst)])
  {
    forall x | x in ActsOf(Mangle6(p.c, p.inv, p.inst))
      ensures Allowed(p, x)
    {
      assert Nft6Drifted(p);
      if x in CleanupNft6(p.c) {
        assert NftDeleteAllowed(p, x.order, x.op.name);
      } else {
        assert NftWriteAllowed(p, x.order, x.op.name, x.op.lines);
      }
    }
  }

  lemma FwmarksAllowed(p: Pass, fam: Fam)
    requires Shaped(p)
    ensures AllAllowed(p, Fwmarks(fam, FwmarksOf(p, fam), p.inst))
  {
    var specs := FwmarksOf(p, fam);
    forall x | x in FwmarkActs(fam, specs) && !FwmarksInSync(specs, p.inst.rules.Of(fam))
      ensures Allowed(p, x)
    {
      var i :| 0 <= i < |specs| && x == FwmarkActs(fam, specs)[i];
      assert specs[i] in specs;
    }
  }

  lemma EcmpResourceAllowed(p: Pass, fam: Fam, x: Act<Op>)
    requires Shaped(p) && x in ActsOf(EcmpResource(p.c, p.inv, p.inst, fam))
    ensures Allowed(p, x)
  {
  }

  lemma {:induction false} EcmpAllowed(p: Pass, managed: seq<Fam>)
    requires Shaped(p)
    ensures AllAllowed(p, Ecmp(p.c, p.inv, p.inst, managed))
  {
    if managed != [] {
      var n := |managed| - 1;
      EcmpAllowed(p, managed[..n]);
      forall x | x in ActsOf(EcmpResource(p.c, p.inv, p.inst, managed[n]))
        ensures Allowed(p, x)
      {
        EcmpResourceAllowed(p, managed[n], x);
      }
    }
  }

  lemma AbandonedAllowed(p: Pass, fam: Fam)
    requires Shaped(p)
    ensures AllAllowed(p, AbandonedOf(p.c, p.inst, fam))
  {
  }

  lemma NptAllowed(p: Pass, x: Act<Op>)
    requires Shaped(p) && NptDrifted(p) && x in NptActs(p.c, p.inv.ruleset, p.comments)
    ensures Allowed(p, x)
  {
  }

  lemma LearnAllowed(p: Pass, x: Act<Op>)
    requires Shaped(p) && LearnDrifted(p) && x in LearnActs(p.c, p.inv.learn)
    ensures Allowed(p, x)
  {
  }

  lemma NftAllowed(p: Pass)
    requires Shaped(p)
    ensures AllAllowed(p, Nft(p.c, p.inv, p.inst, p.comments))
  {
    forall r, x | r in Nft(p.c, p.inv, p.inst, p.comments) && x in ActsOf(r)
      ensures Allowed(p, x)
    {
      if NptDrifted(p) && x in NptActs(p.c, p.inv.ruleset, p.comments) {
        NptAllowed(p, x);
      } else if Proxies(p.c) {
        LearnAllowed(p, x);
      } else {
        assert x == Act(NFT_TABLE, NftDelete(LearnTable(p.c)));
      }
    }
  }

  lemma JoinAllowed(p: Pass, a: seq<Resource>, b: seq<Resource>)
    requires Shaped(p) && AllAllowed(p, a) && AllAllowed(p, b)
    ensures AllAllowed(p, a + b)
  {
  }

  lemma FirstAllowed(p: Pass)
    requires Shaped(p)
    ensures AllAllowed(p, FirstResources(p.c, p.st.linksStale, p.inv, p.inst, p.ids))
  {
    Stale4Allowed(p, Listed4(p));
    Stale6Allowed(p, Listed6(p));
    TablesAllowed(p, p.ids);
    MangleAllowed(p);
    Mangle6Allowed(p);
    var r1 := Stale4(p.c.rt, p.inv, p.st.linksStale, Listed4(p));
    JoinAllowed(p, r1, Stale6(p.c.rt, p.inv, p.st.linksStale, Listed6(p)));
    var r2 := r1 + Stale6(p.c.rt, p.inv, p.st.linksStale, Listed6(p));
    JoinAllowed(p, r2, Tables(p.inv, p.inst, p.ids));
    var r3 := r2 + Tables(p.inv, p.inst, p.ids);
    JoinAllowed(p, r3, Mangle(p.c, p.inv, p.inst));
    JoinAllowed(p, r3 + Mangle(p.c, p.inv, p.inst), [Mangle6(p.c, p.inv, p.inst)]);
  }

  lemma LastAllowed(p: Pass)
    requires Shaped(p)
    ensures AllAllowed(p, LastResources(p.c, p.inv, p.inst, p.comments))
  {
    FwmarksAllowed(p, IPv4);
    FwmarksAllowed(p, IPv6);
    EcmpAllowed(p, p.c.rt.managed);
    AbandonedAllowed(p, IPv4);
    AbandonedAllowed(p, IPv6);
    NftAllowed(p);
    var r1 := Fwmarks(IPv4, p.inv.fwmarks4, p.inst);
    JoinAllowed(p, r1, Fwmarks(IPv6, p.inv.fwmarks6, p.inst));
    var r2 := r1 + Fwmarks(IPv6, p.inv.fwmarks6, p.inst);
    JoinAllowed(p, r2, Ecmp(p.c, p.inv, p.inst, p.c.rt.managed));
    var r3 := r2 + Ecmp(p.c, p.inv, p.inst, p.c.rt.managed);
    JoinAllowed(p, r3, AbandonedOf(p.c, p.inst, IPv4));
    var r4 := r3 + AbandonedOf(p.c, p.inst, IPv4);
    JoinAllowed(p, r4, AbandonedOf(p.c, p.inst, IPv6));
    JoinAllowed(p, r4 + AbandonedOf(p.c, p.inst, IPv6), Nft(p.c, p.inv, p.inst, p.comments));
  }

  lemma ResourcesAllowed(p: Pass)
    requires Shaped(p)
    ensures AllAllowed(p, ResourcesOf(p))
  {
    FirstAllowed(p);
    LastAllowed(p);
    JoinAllowed(p, FirstResources(p.c, p.st.linksStale, p.inv, p.inst, p.ids), LastResources(p.c, p.inv, p.inst, p.comments));
  }

  /** Every action of every batch, whatever was read, is one of the allowed ones. */
  lemma BatchIsAllowed(p: Pass, x: Act<Op>)
    requires Shaped(p) && x in BatchOf(p)
    ensures Allowed(p, x)
  {
    PlanMembers(ResourcesOf(p), x);
    ResourcesAllowed(p);
  }

  ghost predicate AllowedBatch(p: Pass, acts: Batch)
    requires Shaped(p)
  {
    forall a :: a in acts ==> Allowed(p, a)
  }

  lemma BatchesAreAllowed(p: Pass)
    requires Shaped(p)
    ensures AllowedBatch(p, BatchOf(p))
  {
    forall a | a in BatchOf(p)
      ensures Allowed(p, a)
    {
      BatchIsAllowed(p, a);
    }
  }

  // ----- tables below the kernel's own -------------------------------------------------------------

  lemma AllowedTable(p: Pass, x: Act<Op>)
    requires Shaped(p) && Allowed(p, x)
    ensures x.op.Flush? || x.op.RouteReplace? ==> 0 < x.op.table < RESERVED_TABLE
  {
  }

  /** No action of any pass writes or flushes a table numbered 253 or above. */
  lemma TablesStayOwn(p: Pass, x: Act<Op>)
    requires Sane(p)
    ensures Shaped(p)
    ensures x in BatchOf(p) && (x.op.Flush? || x.op.RouteReplace?) ==> 0 < x.op.table < 253
  {
    SaneIsShaped(p);
    BatchesAreAllowed(p);
    if x in BatchOf(p) {
      AllowedTable(p, x);
    }
  }

  // ----- the managed route stays ---------------------------------------------------------------------

  /** One turn of the daemon: a planned pass, of which some actions took effect, in some order. */
  datatype Turn = Turn(pass: Pass, done: Batch)

  ghost predicate Faithful(t: Turn, c: Settings) {
    && t.pass.c == c && Sane(t.pass) && Shaped(t.pass)
    && forall a :: a in t.done ==> a in BatchOf(t.pass)
  }

  /** All that matters of a turn for one family's route. */
  ghost predicate Lawful(t: Turn, fam: Fam) {
    && Shaped(t.pass) && AllowedBatch(t.pass, t.done)
    && fam in t.pass.c.rt.managed
    && (fam in t.pass.inv.ecmp && t.pass.inv.ecmp[fam].Want? ==> Installable(t.pass.st, fam, t.pass.inv.ecmp[fam].nexthops))
  }

  lemma FaithfulIsLawful(t: Turn, c: Settings, fam: Fam)
    requires Faithful(t, c) && fam in c.rt.managed
    ensures Lawful(t, fam)
  {
    BatchesAreAllowed(t.pass);
    EcmpIsInstallable(t.pass.c, t.pass.st, t.pass.inv, fam);
  }

  function AfterTurns(k: Kernel, turns: seq<Turn>): Kernel {
    if turns == [] then k
    else Run(AfterTurns(k, turns[..|turns| - 1]), turns[|turns| - 1].done)
  }

  /** The route there was, or one that some turn had reason to install. */
  ghost predicate Justified(k: Kernel, turns: seq<Turn>, fam: Fam, own: Option<seq<Nexthop>>) {
    || own == k.own.Of(fam)
    || (own.Some? && exists i :: 0 <= i < |turns| && Installable(turns[i].pass.st, fam, own.value))
  }

  ghost predicate Progress(k: Kernel, turns: seq<Turn>, fam: Fam, now: Kernel) {
    && Justified(k, turns, fam, now.own.Of(fam))
    && (k.own.Of(fam).Some? ==> now.own.Of(fam).Some?)
  }

  lemma OneActionKeepsRoute(k: Kernel, turns: seq<Turn>, fam: Fam, now: Kernel, a: Act<Op>)
    requires turns != [] && Shaped(turns[|turns| - 1].pass) && Lawful(turns[|turns| - 1], fam) && Allowed(turns[|turns| - 1].pass, a)
    requires Progress(k, turns, fam, now)
    ensures Progress(k, turns, fam, Apply(now, a.op))
  {
    if a.op.EcmpPut? && a.op.fam == fam {
      assert Installable(turns[|turns| - 1].pass.st, fam, a.op.nexthops);
    }
  }

  lemma {:induction false} DoneKeepsRoute(k: Kernel, turns: seq<Turn>, fam: Fam, now: Kernel, done: Batch)
    requires turns != [] && Lawful(turns[|turns| - 1], fam) && AllowedBatch(turns[|turns| - 1].pass, done)
    requires Progress(k, turns, fam, now)
    ensures Progress(k, turns, fam, Run(now, done))
  {
    if done != [] {
      var n := |done| - 1;
      assert done == done[..n] + [done[n]];
      DoneKeepsRoute(k, turns, fam, now, done[..n]);
      OneActionKeepsRoute(k, turns, fam, Run(now, done[..n]), done[n]);
    }
  }

  lemma MoreTurns(k: Kernel, turns: seq<Turn>, fam: Fam, now: Kernel)
    requires turns != [] && Progress(k, turns[..|turns| - 1], fam, now)
    ensures Progress(k, turns, fam, now)
  {
    var less, own := turns[..|turns| - 1], now.own.Of(fam);
    if own != k.own.Of(fam) {
      var i :| 0 <= i < |less| && Installable(less[i].pass.st, fam, own.value);
      assert Installable(turns[i].pass.st, fam, own.value);
    }
  }

  lemma {:induction false} LawfulTurnsProgress(k: Kernel, turns: seq<Turn>, fam: Fam)
    requires forall i :: 0 <= i < |turns| ==> Lawful(turns[i], fam)
    ensures Progress(k, turns, fam, AfterTurns(k, turns))
  {
    if turns != [] {
      var n := |turns| - 1;
      LawfulTurnsProgress(k, turns[..n], fam);
      MoreTurns(k, turns, fam, AfterTurns(k, turns[..n]));
      DoneKeepsRoute(k, turns, fam, AfterTurns(k, turns[..n]), turns[n].done);
    }
  }

  /** Until shutdown no run removes a managed family's default route: once there, it stays, and
      it is always the one found at the start or one made of gateways that some pass saw
      healthy, whatever was read, failed or was skipped in between. */
  lemma DefaultRouteStays(c: Settings, k: Kernel, turns: seq<Turn>, fam: Fam)
    requires fam in c.rt.managed && forall i :: 0 <= i < |turns| ==> Faithful(turns[i], c)
    ensures Justified(k, turns, fam, AfterTurns(k, turns).own.Of(fam))
    ensures k.own.Of(fam).Some? ==> AfterTurns(k, turns).own.Of(fam).Some?
  {
    forall i | 0 <= i < |turns|
      ensures Lawful(turns[i], fam)
    {
      FaithfulIsLawful(turns[i], c, fam);
    }
    LawfulTurnsProgress(k, turns, fam);
  }

  // ----- the order of a batch --------------------------------------------------------------------------

  predicate Removes(op: Op) {
    op.RuleDel? || op.Flush? || op.EcmpDel?
  }

  predicate Adds(op: Op) {
    op.RouteReplace? || op.RuleAdd? || op.EcmpPut?
  }

  predicate WritesOther(op: Op, names: set<NftName>) {
    op.NftWrite? && op.name !in names
  }

  lemma RankOf(p: Pass, x: Act<Op>)
    requires Shaped(p) && Allowed(p, x)
    ensures x.op.RuleDel? ==> x.order <= Teardown(TABLE_RULE)
    ensures x.op.Flush? ==> x.order == Teardown(TABLE_ROUTES)
    ensures x.op.RouteReplace? ==> x.order == TABLE_ROUTES
    ensures x.op.RuleAdd? ==> x.order >= TABLE_RULE
    ensures x.op.EcmpDel? ==> x.order < 0
    ensures x.op.EcmpPut? ==> x.order == ECMP_ROUTE
    ensures x.op.NftWrite? && x.op.name != MarkTable4(p.c) && x.op.name != MarkTable6(p.c) ==> x.order == NFT_TABLE
    ensures x.op.NftWrite? && x.op.name != NptTable(p.c) && x.op.name != LearnTable(p.c) ==> x.order == MANGLE_CHAIN
  {
  }

  lemma RanksBefore(p: Pass, acts: Batch, i: nat, j: nat)
    requires Shaped(p) && AllowedBatch(p, acts) && InOrder(acts) && i < |acts| && j < |acts|
    ensures acts[i].op.RuleDel? && acts[j].op.Flush? ==> i < j
    ensures acts[i].op.RouteReplace? && acts[j].op.RuleAdd? ==> i < j
    ensures Removes(acts[i].op) && Adds(acts[j].op) ==> i < j
    ensures WritesOther(acts[i].op, {NptTable(p.c), LearnTable(p.c)}) && Adds(acts[j].op) ==> i < j
    ensures Adds(acts[i].op) && WritesOther(acts[j].op, {MarkTable4(p.c), MarkTable6(p.c)}) ==> i < j
  {
    RankOf(p, acts[i]);
    RankOf(p, acts[j]);
  }

  lemma SortedIsAllowed(p: Pass, acts: Batch)
    requires Shaped(p) && AllowedBatch(p, acts)
    ensures AllowedBatch(p, Sorted(acts)) && InOrder(Sorted(acts))
  {
    SortedInOrder(acts);
    forall a | a in Sorted(acts)
      ensures Allowed(p, a)
    {
      SortedMembers(acts, a);
    }
  }

  /** As a batch runs, the selectors of a table go before it is flushed, its contents are written
      before a rule leads into it, and everything is taken away before anything is put up. Marks are
      stamped before rules and routes are there to follow them, translation comes after both. */
  lemma BatchRunsInsideOut(p: Pass, i: nat, j: nat)
    requires Shaped(p) && i < |Sorted(BatchOf(p))| && j < |Sorted(BatchOf(p))|
    ensures var acts := Sorted(BatchOf(p));
            && (acts[i].op.RuleDel? && acts[j].op.Flush? ==> i < j)
            && (acts[i].op.RouteReplace? && acts[j].op.RuleAdd? ==> i < j)
            && (Removes(acts[i].op) && Adds(acts[j].op) ==> i < j)
            && (WritesOther(acts[i].op, {NptTable(p.c), LearnTable(p.c)}) && Adds(acts[j].op) ==> i < j)
            && (Adds(acts[i].op) && WritesOther(acts[j].op, {MarkTable4(p.c), MarkTable6(p.c)}) ==> i < j)
  {
    BatchesAreAllowed(p);
    SortedIsAllowed(p, BatchOf(p));
    RanksBefore(p, Sorted(BatchOf(p)), i, j);
  }

  // ----- wanted rules are not stale ------------------------------------------------------------------------

  lemma RuleLineParses(r: Rule, table: nat)
    requires r.prio < INT64_LIMIT && table < INT64_LIMIT
    requires |r.rest| >= 2 && r.rest[|r.rest| - 2..] == ["lookup", Itoa(table)] && "lookup" !in r.rest[..|r.rest| - 2]
    ensures ParseLookup(RuleLine(r)) == Some(Lookup(r.prio, table))
  {
    var line := RuleLine(r);
    AtoiReadsBack(r.prio);
    AtoiReadsBack(table);
    assert TrimColon(line[0]) == Itoa(r.prio);
    var n := |line|;
    assert line[n - 2] == r.rest[|r.rest| - 2..][0] && line[n - 1] == r.rest[|r.rest| - 2..][1];
    assert line[0] != "lookup" by {
      assert line[0][|line[0]| - 1] == ':';
    }
    forall i | 1 <= i < n - 2
      ensures line[i] != "lookup"
    {
      assert line[i] == r.rest[..|r.rest| - 2][i - 1];
    }
    FieldAt(line, "lookup", n - 2);
  }

  lemma FwmarkLineParses(rt: RouteOptions, f: FwmarkSpec)
    requires f.prio < INT64_LIMIT && OwnTable(rt, f.table)
    ensures ParseLookup(RuleLine(FwmarkRule(f))) == Some(Lookup(f.prio, f.table))
    ensures FwmarkIn(rt, RuleLine(FwmarkRule(f))) == Some(InstalledFwmark(f.table - rt.offset, f.prio))
  {
    var r := FwmarkRule(f);
    assert r.rest[..4] == ["from", "all", "fwmark", Hex(f.mark, 0)];
    assert r.rest[4..] == ["lookup", Itoa(f.table)];
    HexIsNoWord(f.mark);
    RuleLineParses(r, f.table);
    assert Contains("fwmark", "fwmark");
    assert RuleLine(r)[3] == "fwmark";
  }

  lemma HexIsNoWord(n: nat)
    ensures Hex(n, 0) != "lookup" && Hex(n, 0) != "fwmark"
  {
    assert Hex(n, 0)[0] == '0';
  }

  lemma TableRuleParses(spec: TableSpec)
    requires spec.prio < INT64_LIMIT && spec.table < INT64_LIMIT && spec.src != "lookup"
    ensures ParseLookup(RuleLine(TableRule(spec))) == Some(Lookup(spec.prio, spec.table))
  {
    var r := TableRule(spec);
    assert r.rest[..2] == ["from", spec.src] && r.rest[2..] == ["lookup", Itoa(spec.table)];
    RuleLineParses(r, spec.table);
  }

  lemma ListedWantedRule(rt: RouteOptions, f: FwmarkSpec, ifIndex: nat)
    requires TableForIface(rt, ifIndex) == Some(f.table) && f.prio < INT64_LIMIT
    ensures FwmarkIn(rt, RuleLine(FwmarkRule(f))) == Some(InstalledFwmark(ifIndex, f.prio))
  {
    FwmarkLineParses(rt, f);
  }

  /** A wanted IPv6 fwmark rule, as listed, is recognised and never among the stale ones. */
  lemma WantedRuleIsNotStale(p: Pass, f: FwmarkSpec)
    requires Validated(p.c) && Computed(p.c, p.st, p.inv) && f in p.inv.fwmarks6
    ensures FwmarkIn(p.c.rt, RuleLine(FwmarkRule(f))).Some?
    ensures !StaleMark(p, FwmarkIn(p.c.rt, RuleLine(FwmarkRule(f))).value)
  {
    Fwmark6SelectsBuiltTable(p.c, p.st, p.inv, f);
    ListedWantedRule(p.c.rt, f, p.st.ifaces[p.c.fw.gateways[f.mark - 1]]);
  }
}
