/** Reading the kernel back after a pass: the next pass finds nothing to do. */
module Converge {
  import opened Common
  import opened Tokens
  import opened Numbers
  import opened Routes
  import opened Command
  import opened Desired
  import opened InventoryFacts
  import opened Kernel
  import opened Plan
  import opened PlanFacts
  import Firewall
  import Translation
  import Learning

  /** How the tools word the managed route, listed on its own and among all default routes. */
  datatype Wording = Wording(alone: Fields, full: Fields)

  ghost predicate PlainWording(w: Wording) {
    Plain(w.alone) && Plain(w.full)
  }

  function OwnListing(k: Kernel, fam: Fam, w: Wording): seq<Fields> {
    match k.own.Of(fam)
    case None => []
    case Some(ns) => Listing(ns, w.alone)
  }

  function RuleLines(rules: seq<Rule>): seq<Fields> {
    seq(|rules|, i requires 0 <= i < |rules| => RuleLine(rules[i]))
  }

  function TokenText(t: Token): string {
    match t
    case Word(s) => s
    case Cidr(b) => BlockText(b)
    case Quoted(n) => "\"" + n + "\""
  }

  function Texts(lines: seq<Line>): seq<Fields> {
    seq(|lines|, i requires 0 <= i < |lines| => seq(|lines[i]|, j requires 0 <= j < |lines[i]| => TokenText(lines[i][j])))
  }

  function ListTable(k: Kernel, name: NftName): Option<seq<Line>> {
    if name in k.nft then Some(k.nft[name]) else None
  }

  function MarkListing(k: Kernel, name: NftName): Option<seq<Fields>> {
    if name in k.nft then Some(Texts(k.nft[name])) else None
  }

  function ReadIds(c: Settings, st: State): set<TableId> {
    (set i | i in st.addrs && TableForIface(c.rt, i).Some? :: TableId(IPv4, i)) +
    (set r | r in c.fw.rules6 && r.gateway in st.ifaces && TableForIface(c.rt, st.ifaces[r.gateway]).Some?
       :: TableId(IPv6, st.ifaces[r.gateway]))
  }

  function ReadContents(c: Settings, k: Kernel, id: TableId): Option<seq<Fields>> {
    var key := TableKey(id.fam, c.rt.offset + id.ifIndex);
    if key in k.tables then Some(k.tables[key]) else None
  }

  function ReadEcmp(k: Kernel, fam: Fam, w: Wording): InstalledEcmp {
    InstalledEcmp(k.own.Of(fam).Some?, Nexthops(OwnListing(k, fam, w)))
  }

  function Families(): set<Fam> {
    {IPv4, IPv6}
  }

  function AbandonedIn(c: Settings, w: Both<Wording>, addresses: Both<set<string>>, k: Kernel): set<Fam> {
    set fam | fam in Families() && fam !in c.rt.managed && DefaultRoutes(OwnListing(k, fam, w.Of(fam)), addresses.Of(fam)) != []
  }

  /** What a pass reads when every read succeeds. */
  function Observe(c: Settings, st: State, marks: seq<Firewall.MarkRule>, w: Both<Wording>, addresses: Both<set<string>>, k: Kernel): Installed {
    Installed(
      Both(Some(RuleLines(k.rules.v4)), Some(RuleLines(k.rules.v6))),
      map fam | fam in c.rt.managed :: ReadEcmp(k, fam, w.Of(fam)),
      map id | id in ReadIds(c, st) :: ReadContents(c, k, id),
      AbandonedIn(c, w, addresses, k),
      ReadNft4(c, k),
      ReadNft6(c, k),
      Firewall.ReadInstalledIpt(marks, k.ipt),
      ReadNpt(c, k),
      ReadLearn(c, k))
  }

  function ReadNft4(c: Settings, k: Kernel): Firewall.InstalledNft {
    Firewall.ReadInstalledNft(Firewall.V4, Firewall.NftTables(MarkListing(k, MarkTable4(c)), MarkListing(k, LegacyTable(c))))
  }

  function ReadNft6(c: Settings, k: Kernel): Firewall.InstalledNft {
    Firewall.ReadInstalledNft(Firewall.V6([]), Firewall.NftTables(MarkListing(k, MarkTable6(c)), None))
  }

  function ReadNpt(c: Settings, k: Kernel): Option<set<Translation.Key>> {
    Translation.ReadTable(ListTable(k, NptTable(c)))
  }

  function ReadLearn(c: Settings, k: Kernel): Option<set<Learning.LearnKey>> {
    match ListTable(k, LearnTable(c))
    case None => None
    case Some(lines) => Some(Learning.KeysIn(lines))
  }

  /** The batch of a pass as it runs. */
  ghost predicate Runs(p: Pass, acts: Batch) {
    && Shaped(p) && InOrder(acts) && AllowedBatch(p, acts)
  }

  // ----- the managed route --------------------------------------------------------------------

  lemma OwnStays(p: Pass, k: Kernel, acts: Batch, fam: Fam)
    requires Runs(p, acts) && forall a :: a in acts ==> !((a.op.EcmpPut? || a.op.EcmpDel?) && a.op.fam == fam)
    ensures Run(k, acts).own.Of(fam) == k.own.Of(fam)
  {
    var was := k.own.Of(fam);
    RunKeeps(k, acts, (s: Kernel) => s.own.Of(fam) == was);
  }

  lemma ForeignStays(k: Kernel, acts: Batch)
    ensures Run(k, acts).foreign == k.foreign
  {
    var was := k.foreign;
    RunKeeps(k, acts, (s: Kernel) => s.foreign == was);
  }

  /** What is put in place of the route is what the list asked for. */
  lemma RouteIsPut(p: Pass, k: Kernel, acts: Batch, fam: Fam, x: Act<Op>)
    requires Runs(p, acts) && x in acts && x.op.EcmpPut? && x.op.fam == fam
    requires !Blocked(k, fam, EcmpMetric(p.c.rt, fam)) && x.op.replace == k.own.Of(fam).Some?
    ensures Run(k, acts).own.Of(fam) == Some(x.op.nexthops)
  {
    var foreign, there := k.foreign, k.own.Of(fam).Some?;
    assert Allowed(p, x);
    var before := (s: Kernel) => s.foreign == foreign && s.own.Of(fam).Some? == there;
    var after := (s: Kernel) => s.own.Of(fam) == Some(x.op.nexthops);
    forall a | a in acts && a.order <= x.order && a != x
      ensures Keeps(before, a.op)
    {
      assert Allowed(p, a);
    }
    forall a | a in acts && a.order >= x.order
      ensures Keeps(after, a.op)
    {
      assert Allowed(p, a);
    }
    Establishes(k, acts, x, before, after);
  }

  ghost predicate SoundHops(ns: seq<Nexthop>) {
    forall i :: 0 <= i < |ns| ==> Sound(ns[i])
  }

  /** After the pass the managed route is judged in place. */
  lemma EcmpSettles(p: Pass, k: Kernel, acts: Batch, fam: Fam, w: Wording)
    requires Runs(p, acts) && PlainWording(w) && fam in p.inv.ecmp && p.inv.ecmp[fam].Want?
    requires EcmpRead(p.inst, fam) == ReadEcmp(k, fam, w) && !Blocked(k, fam, EcmpMetric(p.c.rt, fam))
    requires SoundHops(p.inv.ecmp[fam].nexthops)
    requires forall x :: x in ActsOf(EcmpResource(p.c, p.inv, p.inst, fam)) ==> x in acts
    ensures EcmpInSync(p.inv.ecmp[fam].nexthops, ReadEcmp(Run(k, acts), fam, w))
  {
    var ns := p.inv.ecmp[fam].nexthops;
    var r := EcmpResource(p.c, p.inv, p.inst, fam);
    if r.inSync {
      forall a | a in acts
        ensures !((a.op.EcmpPut? || a.op.EcmpDel?) && a.op.fam == fam)
      {
        assert Allowed(p, a);
      }
      OwnStays(p, k, acts, fam);
    } else {
      var x := r.install[0];
      assert x in ActsOf(r);
      RouteIsPut(p, k, acts, fam, x);
      JudgedInPlace(ns, ns, w.alone);
    }
  }

  lemma RouteIsDropped(p: Pass, k: Kernel, acts: Batch, fam: Fam, x: Act<Op>)
    requires Runs(p, acts) && fam !in p.c.rt.managed && x in acts && x.op == EcmpDel(fam)
    ensures Run(k, acts).own.Of(fam).None?
  {
    var after := (s: Kernel) => s.own.Of(fam).None?;
    forall a | a in acts
      ensures Keeps(after, a.op)
    {
      assert Allowed(p, a);
    }
    Establishes(k, acts, x, (s: Kernel) => true, after);
  }

  /** A route left over in a family that is not managed is gone after the pass. */
  lemma AbandonedSettles(p: Pass, k: Kernel, acts: Batch, fam: Fam, w: Both<Wording>, addresses: Both<set<string>>)
    requires Runs(p, acts) && fam !in p.c.rt.managed
    requires p.inst.abandoned == AbandonedIn(p.c, w, addresses, k)
    requires forall x :: x in PlanOf(AbandonedOf(p.c, p.inst, fam)) ==> x in acts
    ensures fam !in AbandonedIn(p.c, w, addresses, Run(k, acts))
  {
    if fam in p.inst.abandoned {
      var x := Act(Teardown(ECMP_ROUTE), EcmpDel(fam));
      var rs := AbandonedOf(p.c, p.inst, fam);
      assert rs[..0] == [] && x in PlanOf(rs);
      RouteIsDropped(p, k, acts, fam, x);
      assert OwnListing(Run(k, acts), fam, w.Of(fam)) == [];
    } else {
      forall a | a in acts
        ensures !((a.op.EcmpPut? || a.op.EcmpDel?) && a.op.fam == fam)
      {
        assert Allowed(p, a);
      }
      OwnStays(p, k, acts, fam);
    }
  }

  // ----- rules ----------------------------------------------------------------------------------

  lemma RuleStays(k: Kernel, acts: Batch, fam: Fam, r: Rule)
    requires r in k.rules.Of(fam) && forall a :: a in acts && a.op.RuleDel? && a.op.fam == fam ==> a.op.prio != r.prio
    ensures r in Run(k, acts).rules.Of(fam)
  {
    var there := (s: Kernel) => r in s.rules.Of(fam);
    forall a | a in acts
      ensures Keeps(there, a.op)
    {
      forall s: Kernel | r in s.rules.Of(fam)
        ensures r in Apply(s, a.op).rules.Of(fam)
      {
        ApplyKeepsRule(s, a.op, fam, r);
      }
    }
    RunKeeps(k, acts, there);
  }

  lemma ApplyKeepsRule(s: Kernel, op: Op, fam: Fam, r: Rule)
    requires r in s.rules.Of(fam) && !(op.RuleDel? && op.fam == fam && op.prio == r.prio)
    ensures r in Apply(s, op).rules.Of(fam)
  {
    if op.RuleAdd? {
      AddRuleMembers(s.rules.Of(op.fam), op.rule, r);
    } else if op.RuleDel? {
      DelRuleMembers(s.rules.Of(op.fam), op.prio, r);
    }
  }

  lemma ApplyMakesRule(s: Kernel, op: Op, fam: Fam, r: Rule)
    requires r in Apply(s, op).rules.Of(fam)
    ensures r in s.rules.Of(fam) || op == RuleAdd(fam, r)
  {
    if op.RuleAdd? {
      AddRuleMembers(s.rules.Of(op.fam), op.rule, r);
    } else if op.RuleDel? {
      DelRuleMembers(s.rules.Of(op.fam), op.prio, r);
    }
  }

  lemma RulesComeFrom(k: Kernel, acts: Batch, fam: Fam, r: Rule)
    requires r !in k.rules.Of(fam) && forall a :: a in acts ==> a.op != RuleAdd(fam, r)
    ensures r !in Run(k, acts).rules.Of(fam)
  {
    var gone := (s: Kernel) => r !in s.rules.Of(fam);
    forall a | a in acts
      ensures Keeps(gone, a.op)
    {
      forall s: Kernel | r !in s.rules.Of(fam)
        ensures r !in Apply(s, a.op).rules.Of(fam)
      {
        if r in Apply(s, a.op).rules.Of(fam) {
          ApplyMakesRule(s, a.op, fam, r);
        }
      }
    }
    RunKeeps(k, acts, gone);
  }

  lemma RuleIsAdded(p: Pass, k: Kernel, acts: Batch, x: Act<Op>)
    requires Runs(p, acts) && x in acts && x.op.RuleAdd?
    ensures x.op.rule in Run(k, acts).rules.Of(x.op.fam)
  {
    var fam, r := x.op.fam, x.op.rule;
    var there := (s: Kernel) => r in s.rules.Of(fam);
    RankOf(p, x);
    forall a | a in acts && a.order >= x.order
      ensures Keeps(there, a.op)
    {
      RankOf(p, a);
      forall s: Kernel | r in s.rules.Of(fam)
        ensures r in Apply(s, a.op).rules.Of(fam)
      {
        ApplyKeepsRule(s, a.op, fam, r);
      }
    }
    forall s: Kernel
      ensures r in Apply(s, x.op).rules.Of(fam)
    {
      AddRuleMembers(s.rules.Of(fam), r, r);
    }
    Establishes(k, acts, x, (s: Kernel) => true, there);
  }

  lemma ApplyKeepsUnique(s: Kernel, op: Op, fam: Fam)
    requires UniquePriorities(s.rules.Of(fam)) && !(op.RuleAdd? && op.fam == fam)
    ensures UniquePriorities(Apply(s, op).rules.Of(fam))
  {
    if op.RuleDel? {
      if op.fam == fam {
        DelRuleRemoves(s.rules.Of(fam), op.prio);
      }
    }
  }

  /** Deleting by priority, before anything is added, takes out the rule that was meant. */
  lemma RuleIsDeleted(p: Pass, k: Kernel, acts: Batch, x: Act<Op>, r: Rule)
    requires Runs(p, acts) && x in acts && x.op.RuleDel? && UniquePriorities(k.rules.Of(x.op.fam))
    requires r.prio == x.op.prio && forall a :: a in acts ==> a.op != RuleAdd(x.op.fam, r)
    ensures r !in Run(k, acts).rules.Of(x.op.fam)
  {
    var fam := x.op.fam;
    var unique := (s: Kernel) => UniquePriorities(s.rules.Of(fam));
    var gone := (s: Kernel) => r !in s.rules.Of(fam);
    RankOf(p, x);
    forall a | a in acts && a.order <= x.order
      ensures Keeps(unique, a.op)
    {
      RankOf(p, a);
      forall s: Kernel | UniquePriorities(s.rules.Of(fam))
        ensures UniquePriorities(Apply(s, a.op).rules.Of(fam))
      {
        ApplyKeepsUnique(s, a.op, fam);
      }
    }
    forall a | a in acts
      ensures Keeps(gone, a.op)
    {
      forall s: Kernel | r !in s.rules.Of(fam)
        ensures r !in Apply(s, a.op).rules.Of(fam)
      {
        if r in Apply(s, a.op).rules.Of(fam) {
          ApplyMakesRule(s, a.op, fam, r);
        }
      }
    }
    forall s: Kernel | unique(s)
      ensures gone(Apply(s, x.op))
    {
      DelRuleRemoves(s.rules.Of(fam), x.op.prio);
    }
    Establishes(k, acts, x, unique, gone);
  }

  // ----- stale per-gateway rules -------------------------------------------------------------------

  lemma {:induction false} PlaceIfMembers(ifs: seq<nat>, x: nat, y: nat)
    ensures y in PlaceIf(ifs, x) <==> y in ifs || y == x
  {
    if ifs != [] {
      var n := |ifs| - 1;
      assert ifs == ifs[..n] + [ifs[n]];
      PlaceIfMembers(ifs[..n], x, y);
    }
  }

  lemma {:induction false} GatewayRuleIfsAre(rt: RouteOptions, lines: seq<Fields>, i: nat)
    ensures i in GatewayRuleIfs(rt, lines) <==> exists l :: l in lines && GatewayRuleIf(rt, l) == Some(i)
  {
    if lines != [] {
      var n := |lines| - 1;
      assert lines == lines[..n] + [lines[n]];
      GatewayRuleIfsAre(rt, lines[..n], i);
      if GatewayRuleIf(rt, lines[n]).Some? {
        PlaceIfMembers(GatewayRuleIfs(rt, lines[..n]), GatewayRuleIf(rt, lines[n]).value, i);
      }
    }
  }

  lemma RuleLinePriority(r: Rule)
    requires r.prio < INT64_LIMIT && ParseLookup(RuleLine(r)).Some?
    ensures ParseLookup(RuleLine(r)).value.prio == r.prio
  {
    AtoiReadsBack(r.prio);
    assert TrimColon(RuleLine(r)[0]) == Itoa(r.prio);
  }

  lemma LineMembers(rules: seq<Rule>, l: Fields)
    ensures l in RuleLines(rules) <==> exists r :: r in rules && l == RuleLine(r)
  {
    if r :| r in rules && l == RuleLine(r) {
      assert RuleLines(rules)[IndexOf(rules, r)] == l;
    }
    if l in RuleLines(rules) {
      assert rules[IndexOf(RuleLines(rules), l)] in rules;
    }
  }

  lemma {:induction false} AllQuiet(rs: seq<Resource>)
    requires forall r :: r in rs ==> ActsOf(r) == []
    ensures PlanOf(rs) == []
  {
    if rs != [] {
      var n := |rs| - 1;
      assert rs == rs[..n] + [rs[n]];
      AllQuiet(rs[..n]);
    }
  }

  lemma {:induction false} Stale4Are(rt: RouteOptions, inv: Inventory, ifs: seq<nat>, r: Resource)
    ensures r in Stale4(rt, inv, false, ifs) <==>
            exists i :: i in ifs && TableId(IPv4, i) !in inv.tables && r == StaleResource(TeardownTable(rt, IPv4, i), false)
  {
    if ifs != [] {
      var n := |ifs| - 1;
      assert ifs == ifs[..n] + [ifs[n]];
      Stale4Are(rt, inv, ifs[..n], r);
    }
  }

  lemma Stale4Plans(rt: RouteOptions, inv: Inventory, ifs: seq<nat>, i: nat, x: Act<Op>)
    requires i in ifs && TableId(IPv4, i) !in inv.tables && x in TeardownTable(rt, IPv4, i)
    ensures x in PlanOf(Stale4(rt, inv, false, ifs))
  {
    var r := StaleResource(TeardownTable(rt, IPv4, i), false);
    Stale4Are(rt, inv, ifs, r);
    PlanMembers(Stale4(rt, inv, false, ifs), x);
  }

  lemma Stale4Quiet(rt: RouteOptions, inv: Inventory, ifs: seq<nat>)
    requires forall i :: i in ifs ==> TableId(IPv4, i) in inv.tables || TableForIface(rt, i).None?
    ensures PlanOf(Stale4(rt, inv, false, ifs)) == []
  {
    forall r | r in Stale4(rt, inv, false, ifs)
      ensures ActsOf(r) == []
    {
      Stale4Are(rt, inv, ifs, r);
    }
    AllQuiet(Stale4(rt, inv, false, ifs));
  }

  /** Texts that are addresses or prefixes, not words of a listing. */
  ghost predicate SoundTables(inv: Inventory) {
    forall id :: id in inv.tables ==> inv.tables[id].src != "lookup" && inv.tables[id].subnet != "default"
  }

  /** No more marks than priorities below those of the per-gateway rules. */
  ghost predicate FewMarks(c: Settings, inv: Inventory) {
    MarksBuilt(c, inv) && |c.fw.gateways| <= 500
  }

  ghost predicate Priorities(rules: seq<Rule>) {
    UniquePriorities(rules) && forall r :: r in rules ==> r.prio < INT64_LIMIT
  }

  /** The interface a rule would be reaped for. */
  predicate StaleLine4(p: Pass, l: Fields) {
    var i := GatewayRuleIf(p.c.rt, l);
    i.Some? && TableId(IPv4, i.value) !in p.inv.tables && TableForIface(p.c.rt, i.value).Some?
  }

  lemma FwmarkIsNotGatewayRule(rt: RouteOptions, f: FwmarkSpec)
    requires f.prio <= 1000 && 0 < f.table && OwnTable(rt, f.table)
    ensures GatewayRuleIf(rt, RuleLine(FwmarkRule(f))).None?
  {
    FwmarkLineParses(rt, f);
  }

  lemma WantedGatewayRule(p: Pass, spec: TableSpec)
    requires Shaped(p) && SoundTables(p.inv) && DriftedTable(p, IPv4, spec)
    ensures !StaleLine4(p, RuleLine(TableRule(spec)))
  {
    TableRuleParses(spec);
  }

  lemma AddedRuleIsNotStale4(p: Pass, acts: Batch, r: Rule)
    requires Runs(p, acts) && SoundTables(p.inv) && FewMarks(p.c, p.inv)
    requires exists a :: a in acts && a.op == RuleAdd(IPv4, r)
    ensures !StaleLine4(p, RuleLine(r))
  {
    var a :| a in acts && a.op == RuleAdd(IPv4, r);
    assert RuleAddAllowed(p, a.order, IPv4, r) by {
      assert Allowed(p, a);
    }
    if f :| f in p.inv.fwmarks4 && r == FwmarkRule(f) {
      assert MarkFits(p.c, f);
      FwmarkIsNotGatewayRule(p.c.rt, f);
    } else {
      var spec :| DriftedTable(p, IPv4, spec) && r == TableRule(spec);
      WantedGatewayRule(p, spec);
    }
  }

  lemma Stale4IsDeleted(p: Pass, k: Kernel, acts: Batch, r: Rule)
    requires Runs(p, acts) && !p.st.linksStale && p.inst.rules.v4 == Some(RuleLines(k.rules.v4))
    requires Priorities(k.rules.v4) && r in k.rules.v4 && StaleLine4(p, RuleLine(r))
    requires forall x :: x in PlanOf(Stale4(p.c.rt, p.inv, false, Listed4(p))) ==> x in acts
    requires forall a :: a in acts ==> a.op != RuleAdd(IPv4, r)
    ensures r !in Run(k, acts).rules.v4
  {
    var i := GatewayRuleIf(p.c.rt, RuleLine(r)).value;
    LineMembers(k.rules.v4, RuleLine(r));
    GatewayRuleIfsAre(p.c.rt, RuleLines(k.rules.v4), i);
    RuleLinePriority(r);
    var x: Act<Op> := Act(Teardown(TABLE_RULE), RuleDel(IPv4, GatewayPriority(p.c.rt.offset + i)));
    assert x in TeardownTable(p.c.rt, IPv4, i);
    Stale4Plans(p.c.rt, p.inv, Listed4(p), i, x);
    RuleIsDeleted(p, k, acts, x, r);
  }

  /** After the pass no per-gateway rule is stale. */
  lemma Stale4Settles(p: Pass, k: Kernel, acts: Batch)
    requires Runs(p, acts) && !p.st.linksStale && p.inst.rules.v4 == Some(RuleLines(k.rules.v4))
    requires Priorities(k.rules.v4) && SoundTables(p.inv) && FewMarks(p.c, p.inv)
    requires forall x :: x in PlanOf(Stale4(p.c.rt, p.inv, false, Listed4(p))) ==> x in acts
    ensures PlanOf(Stale4(p.c.rt, p.inv, false, GatewayRuleIfs(p.c.rt, RuleLines(Run(k, acts).rules.v4)))) == []
  {
    var after := Run(k, acts).rules.v4;
    var ifs := GatewayRuleIfs(p.c.rt, RuleLines(after));
    forall i | i in ifs && TableId(IPv4, i) !in p.inv.tables
      ensures TableForIface(p.c.rt, i).None?
    {
      GatewayRuleIfsAre(p.c.rt, RuleLines(after), i);
      var l :| l in RuleLines(after) && GatewayRuleIf(p.c.rt, l) == Some(i);
      LineMembers(after, l);
      var r :| r in after && l == RuleLine(r);
      if StaleLine4(p, l) {
        StaleRuleIsGone(p, k, acts, r);
      }
    }
    Stale4Quiet(p.c.rt, p.inv, ifs);
  }

  lemma StaleRuleIsGone(p: Pass, k: Kernel, acts: Batch, r: Rule)
    requires Runs(p, acts) && !p.st.linksStale && p.inst.rules.v4 == Some(RuleLines(k.rules.v4))
    requires Priorities(k.rules.v4) && SoundTables(p.inv) && FewMarks(p.c, p.inv)
    requires forall x :: x in PlanOf(Stale4(p.c.rt, p.inv, false, Listed4(p))) ==> x in acts
    requires StaleLine4(p, RuleLine(r))
    ensures r !in Run(k, acts).rules.v4
  {
    if exists a :: a in acts && a.op == RuleAdd(IPv4, r) {
      AddedRuleIsNotStale4(p, acts, r);
    }
    if r in k.rules.v4 {
      Stale4IsDeleted(p, k, acts, r);
    } else {
      RulesComeFrom(k, acts, IPv4, r);
    }
  }

  // ----- stale IPv6 tables ----------------------------------------------------------------------------

  lemma {:induction false} PlaceFwmarkMembers(found: seq<InstalledFwmark>, x: InstalledFwmark, y: InstalledFwmark)
    ensures y in PlaceFwmark(found, x) <==> y in found || y == x
  {
    if found != [] {
      var n := |found| - 1;
      assert found == found[..n] + [found[n]];
      PlaceFwmarkMembers(found[..n], x, y);
    }
  }

  lemma SeenAgain(found: seq<InstalledFwmark>, x: InstalledFwmark, ifIndex: nat)
    ensures Seen(PlaceFwmark(found, x), ifIndex) <==> Seen(found, ifIndex) || x.ifIndex == ifIndex
  {
    var more := PlaceFwmark(found, x);
    PlaceFwmarkMembers(found, x, x);
    if i :| 0 <= i < |more| && more[i].ifIndex == ifIndex {
      PlaceFwmarkMembers(found, x, more[i]);
    }
    if i :| 0 <= i < |found| && found[i].ifIndex == ifIndex {
      PlaceFwmarkMembers(found, x, found[i]);
    }
  }

  ghost predicate Read(rt: RouteOptions, lines: seq<Fields>, e: InstalledFwmark) {
    exists l :: l in lines && FwmarkIn(rt, l) == Some(e)
  }

  /** What is found was read, and whatever was read has its table among those found. */
  lemma {:induction false} FwmarksInAre(rt: RouteOptions, lines: seq<Fields>, e: InstalledFwmark)
    ensures e in FwmarksIn(rt, lines) ==> Read(rt, lines, e)
    ensures Read(rt, lines, e) ==> Seen(FwmarksIn(rt, lines), e.ifIndex)
  {
    if lines != [] {
      var n := |lines| - 1;
      assert lines == lines[..n] + [lines[n]];
      FwmarksInAre(rt, lines[..n], e);
      var x := FwmarkIn(rt, lines[n]);
      var before := FwmarksIn(rt, lines[..n]);
      if x.Some? {
        SeenAgain(before, x.value, e.ifIndex);
        PlaceFwmarkMembers(before, x.value, e);
      }
    }
  }

  lemma {:induction false} Stale6Are(rt: RouteOptions, inv: Inventory, found: seq<InstalledFwmark>, r: Resource)
    ensures r in Stale6(rt, inv, false, found) <==>
            exists e :: e in found && TableId(IPv6, e.ifIndex) !in inv.tables && r == StaleResource(StaleFwmark(rt, e), false)
  {
    if found != [] {
      var n := |found| - 1;
      assert found == found[..n] + [found[n]];
      Stale6Are(rt, inv, found[..n], r);
    }
  }

  lemma Stale6Plans(rt: RouteOptions, inv: Inventory, found: seq<InstalledFwmark>, e: InstalledFwmark)
    requires e in found && TableId(IPv6, e.ifIndex) !in inv.tables
    ensures Act(Teardown(FWMARK_RULE), RuleDel(IPv6, e.prio)) in PlanOf(Stale6(rt, inv, false, found))
  {
    var r := StaleResource(StaleFwmark(rt, e), false);
    Stale6Are(rt, inv, found, r);
    PlanMembers(Stale6(rt, inv, false, found), r.remove[0]);
  }

  lemma Stale6Quiet(rt: RouteOptions, inv: Inventory, found: seq<InstalledFwmark>)
    requires forall e :: e in found ==> TableId(IPv6, e.ifIndex) in inv.tables
    ensures PlanOf(Stale6(rt, inv, false, found)) == []
  {
    forall r | r in Stale6(rt, inv, false, found)
      ensures ActsOf(r) == []
    {
      Stale6Are(rt, inv, found, r);
    }
    AllQuiet(Stale6(rt, inv, false, found));
  }

  /** The rule is a fwmark rule into a table that is not wanted. */
  predicate StaleRule6(p: Pass, r: Rule) {
    var e := FwmarkIn(p.c.rt, RuleLine(r));
    e.Some? && TableId(IPv6, e.value.ifIndex) !in p.inv.tables
  }

  /** The interface whose table the rule leads into. */
  function IfOf(rt: RouteOptions, r: Rule): nat
    requires FwmarkIn(rt, RuleLine(r)).Some?
  {
    FwmarkIn(rt, RuleLine(r)).value.ifIndex
  }

  /** No two fwmark rules lead into one stale table. */
  ghost predicate OneRulePerStaleTable(p: Pass, rules: seq<Rule>) {
    forall r, s :: r in rules && s in rules && StaleRule6(p, r) && StaleRule6(p, s) && IfOf(p.c.rt, r) == IfOf(p.c.rt, s) ==> r == s
  }

  ghost predicate Pass6(p: Pass, k: Kernel, acts: Batch) {
    && Runs(p, acts) && !p.st.linksStale && p.inst.rules.v6 == Some(RuleLines(k.rules.v6))
    && Priorities(k.rules.v6) && FewMarks(p.c, p.inv)
    && forall x :: x in PlanOf(Stale6(p.c.rt, p.inv, false, Listed6(p))) ==> x in acts
  }

  lemma WantedRule6(p: Pass, f: FwmarkSpec)
    requires OwnTable(p.c.rt, f.table) && f.prio < INT64_LIMIT && TableId(IPv6, f.table - p.c.rt.offset) in p.inv.tables
    ensures !StaleRule6(p, FwmarkRule(f))
  {
    FwmarkLineParses(p.c.rt, f);
  }

  lemma AddedByMark(p: Pass, acts: Batch, r: Rule) returns (f: FwmarkSpec)
    requires Runs(p, acts) && exists a :: a in acts && a.op == RuleAdd(IPv6, r)
    ensures f in p.inv.fwmarks6 && r == FwmarkRule(f)
  {
    var a :| a in acts && a.op == RuleAdd(IPv6, r);
    assert RuleAddAllowed(p, a.order, IPv6, r) by {
      assert Allowed(p, a);
    }
    f :| f in p.inv.fwmarks6 && r == FwmarkRule(f);
  }

  lemma AddedRule6IsWanted(p: Pass, k: Kernel, acts: Batch, r: Rule)
    requires Pass6(p, k, acts) && exists a :: a in acts && a.op == RuleAdd(IPv6, r)
    ensures !StaleRule6(p, r)
  {
    var f := AddedByMark(p, acts, r);
    assert MarkIsBuilt(p.c, p.inv, f);
    WantedRule6(p, f);
  }

  lemma ReadRule(p: Pass, k: Kernel, r: Rule)
    requires r in k.rules.v6 && r.prio < INT64_LIMIT && FwmarkIn(p.c.rt, RuleLine(r)).Some?
    ensures Read(p.c.rt, RuleLines(k.rules.v6), FwmarkIn(p.c.rt, RuleLine(r)).value)
    ensures FwmarkIn(p.c.rt, RuleLine(r)).value.prio == r.prio
  {
    LineMembers(k.rules.v6, RuleLine(r));
    RuleLinePriority(r);
  }

  /** The entry by which a stale table was found, and the rule it was read from. */
  lemma FoundBy(p: Pass, k: Kernel, r: Rule) returns (e: InstalledFwmark, s: Rule)
    requires p.inst.rules.v6 == Some(RuleLines(k.rules.v6)) && Priorities(k.rules.v6) && r in k.rules.v6 && StaleRule6(p, r)
    ensures e in Listed6(p) && e.ifIndex == IfOf(p.c.rt, r)
    ensures s in k.rules.v6 && FwmarkIn(p.c.rt, RuleLine(s)) == Some(e) && e.prio == s.prio && StaleRule6(p, s)
  {
    ReadRule(p, k, r);
    FwmarksInAre(p.c.rt, RuleLines(k.rules.v6), FwmarkIn(p.c.rt, RuleLine(r)).value);
    var i :| 0 <= i < |Listed6(p)| && Listed6(p)[i].ifIndex == IfOf(p.c.rt, r);
    e := Listed6(p)[i];
    FwmarksInAre(p.c.rt, RuleLines(k.rules.v6), e);
    var l :| l in RuleLines(k.rules.v6) && FwmarkIn(p.c.rt, l) == Some(e);
    LineMembers(k.rules.v6, l);
    s :| s in k.rules.v6 && l == RuleLine(s);
    RuleLinePriority(s);
  }

  lemma Stale6IsDeleted(p: Pass, k: Kernel, acts: Batch, r: Rule)
    requires Pass6(p, k, acts) && OneRulePerStaleTable(p, k.rules.v6) && r in k.rules.v6 && StaleRule6(p, r)
    ensures r !in Run(k, acts).rules.v6
  {
    var e := OwnEntry(p, k, r);
    if exists a :: a in acts && a.op == RuleAdd(IPv6, r) {
      AddedRule6IsWanted(p, k, acts, r);
    }
    PlannedRuleGoes(p, k, acts, e, r);
  }

  lemma OwnEntry(p: Pass, k: Kernel, r: Rule) returns (e: InstalledFwmark)
    requires p.inst.rules.v6 == Some(RuleLines(k.rules.v6)) && Priorities(k.rules.v6)
    requires OneRulePerStaleTable(p, k.rules.v6) && r in k.rules.v6 && StaleRule6(p, r)
    ensures e in Listed6(p) && e.prio == r.prio && TableId(IPv6, e.ifIndex) !in p.inv.tables
  {
    var s;
    e, s := FoundBy(p, k, r);
    assert r == s;
  }

  lemma PlannedRuleGoes(p: Pass, k: Kernel, acts: Batch, e: InstalledFwmark, r: Rule)
    requires Pass6(p, k, acts) && e in Listed6(p) && TableId(IPv6, e.ifIndex) !in p.inv.tables && e.prio == r.prio
    requires !exists a :: a in acts && a.op == RuleAdd(IPv6, r)
    ensures r !in Run(k, acts).rules.v6
  {
    Stale6Plans(p.c.rt, p.inv, Listed6(p), e);
    RuleIsDeleted(p, k, acts, Act(Teardown(FWMARK_RULE), RuleDel(IPv6, e.prio)), r);
  }

  lemma Stale6Leftover(p: Pass, k: Kernel, acts: Batch, r: Rule)
    requires Pass6(p, k, acts) && OneRulePerStaleTable(p, k.rules.v6) && StaleRule6(p, r)
    ensures r !in Run(k, acts).rules.v6
  {
    if r in k.rules.v6 {
      Stale6IsDeleted(p, k, acts, r);
    } else {
      if exists a :: a in acts && a.op == RuleAdd(IPv6, r) {
        AddedRule6IsWanted(p, k, acts, r);
      }
      RulesComeFrom(k, acts, IPv6, r);
    }
  }

  function Later6(p: Pass, k: Kernel, acts: Batch): seq<Resource> {
    Stale6(p.c.rt, p.inv, false, FwmarksIn(p.c.rt, RuleLines(Run(k, acts).rules.v6)))
  }

  lemma Stale6Settles(p: Pass, k: Kernel, acts: Batch)
    requires Pass6(p, k, acts) && OneRulePerStaleTable(p, k.rules.v6)
    ensures PlanOf(Later6(p, k, acts)) == []
  {
    var after := Run(k, acts).rules.v6;
    var found := FwmarksIn(p.c.rt, RuleLines(after));
    forall e | e in found
      ensures TableId(IPv6, e.ifIndex) in p.inv.tables
    {
      FwmarksInAre(p.c.rt, RuleLines(after), e);
      var l :| l in RuleLines(after) && FwmarkIn(p.c.rt, l) == Some(e);
      LineMembers(after, l);
      var r :| r in after && l == RuleLine(r);
      if StaleRule6(p, r) {
        Stale6Leftover(p, k, acts, r);
      }
    }
    Stale6Quiet(p.c.rt, p.inv, found);
  }

  /** A stale rule that is not the one its table was found by survives the pass. */
  lemma SecondRuleSurvives(p: Pass, k: Kernel, acts: Batch, r: Rule)
    requires Pass6(p, k, acts) && r in k.rules.v6 && StaleRule6(p, r)
    requires FwmarkIn(p.c.rt, RuleLine(r)).value !in Listed6(p)
    ensures r in Run(k, acts).rules.v6
  {
    forall a | a in acts && a.op.RuleDel? && a.op.fam == IPv6
      ensures a.op.prio != r.prio
    {
      assert RuleDelAllowed(p, a.order, IPv6, a.op.prio) by {
        assert Allowed(p, a);
      }
      var e :| StaleMark(p, e) && a.op.prio == e.prio;
      EntryOfPriority(p, k, e, r);
    }
    RuleStays(k, acts, IPv6, r);
  }

  lemma EntryOfPriority(p: Pass, k: Kernel, e: InstalledFwmark, r: Rule)
    requires p.inst.rules.v6 == Some(RuleLines(k.rules.v6)) && Priorities(k.rules.v6) && r in k.rules.v6
    requires e in Listed6(p) && StaleRule6(p, r) && FwmarkIn(p.c.rt, RuleLine(r)).value !in Listed6(p)
    ensures e.prio != r.prio
  {
    FwmarksInAre(p.c.rt, RuleLines(k.rules.v6), e);
    var l :| l in RuleLines(k.rules.v6) && FwmarkIn(p.c.rt, l) == Some(e);
    LineMembers(k.rules.v6, l);
    var s :| s in k.rules.v6 && l == RuleLine(s);
    RuleLinePriority(s);
    assert s != r;
    assert IndexOf(k.rules.v6, r) != IndexOf(k.rules.v6, s);
  }

  lemma {:induction false} OneEntryPerTable(rt: RouteOptions, lines: seq<Fields>, a: InstalledFwmark, b: InstalledFwmark)
    requires a in FwmarksIn(rt, lines) && b in FwmarksIn(rt, lines) && a.ifIndex == b.ifIndex
    ensures a == b
  {
    var n := |lines| - 1;
    var before := FwmarksIn(rt, lines[..n]);
    var x := FwmarkIn(rt, lines[n]);
    if x.Some? {
      PlaceFwmarkMembers(before, x.value, a);
      PlaceFwmarkMembers(before, x.value, b);
    }
    FoundIsSeen(before, a);
    FoundIsSeen(before, b);
    if a in before && b in before {
      OneEntryPerTable(rt, lines[..n], a, b);
    }
  }

  lemma FoundIsSeen(found: seq<InstalledFwmark>, e: InstalledFwmark)
    ensures e in found ==> Seen(found, e.ifIndex)
  {
  }

  /** Exactly when the IPv6 teardown is finished by one pass: it deletes one fwmark rule per
      stale table, so it is finished if and only if no stale table had two. */
  lemma Stale6SettlesExactly(p: Pass, k: Kernel, acts: Batch)
    requires Pass6(p, k, acts)
    ensures PlanOf(Later6(p, k, acts)) == [] <==> OneRulePerStaleTable(p, k.rules.v6)
  {
    if OneRulePerStaleTable(p, k.rules.v6) {
      Stale6Settles(p, k, acts);
    } else {
      var r, s :| r in k.rules.v6 && s in k.rules.v6 && StaleRule6(p, r) && StaleRule6(p, s)
                  && IfOf(p.c.rt, r) == IfOf(p.c.rt, s) && r != s;
      TwoRulesLeaveOne(p, k, acts, r, s);
    }
  }

  lemma TwoRulesLeaveOne(p: Pass, k: Kernel, acts: Batch, r: Rule, s: Rule)
    requires Pass6(p, k, acts) && r in k.rules.v6 && s in k.rules.v6 && r != s
    requires StaleRule6(p, r) && StaleRule6(p, s) && IfOf(p.c.rt, r) == IfOf(p.c.rt, s)
    ensures PlanOf(Later6(p, k, acts)) != []
  {
    ReadRule(p, k, r);
    ReadRule(p, k, s);
    var a, b := FwmarkIn(p.c.rt, RuleLine(r)).value, FwmarkIn(p.c.rt, RuleLine(s)).value;
    assert a.prio != b.prio by {
      assert IndexOf(k.rules.v6, r) != IndexOf(k.rules.v6, s);
    }
    if a in Listed6(p) && b in Listed6(p) {
      OneEntryPerTable(p.c.rt, RuleLines(k.rules.v6), a, b);
    }
    var left := if a in Listed6(p) then s else r;
    SecondRuleSurvives(p, k, acts, left);
    LeftoverIsPlanned(p, k, acts, left);
  }

  lemma LeftoverIsPlanned(p: Pass, k: Kernel, acts: Batch, r: Rule)
    requires r in Run(k, acts).rules.v6 && r.prio < INT64_LIMIT && StaleRule6(p, r)
    ensures PlanOf(Later6(p, k, acts)) != []
  {
    LeftoverIsFound(p, Run(k, acts), r);
  }

  lemma SeenIsPlanned(rt: RouteOptions, inv: Inventory, found: seq<InstalledFwmark>, ifIndex: nat)
    requires Seen(found, ifIndex) && TableId(IPv6, ifIndex) !in inv.tables
    ensures PlanOf(Stale6(rt, inv, false, found)) != []
  {
    var i :| 0 <= i < |found| && found[i].ifIndex == ifIndex;
    Stale6Plans(rt, inv, found, found[i]);
  }

  lemma LeftoverIsFound(p: Pass, k: Kernel, r: Rule)
    requires r in k.rules.v6 && r.prio < INT64_LIMIT && StaleRule6(p, r)
    ensures PlanOf(Stale6(p.c.rt, p.inv, false, FwmarksIn(p.c.rt, RuleLines(k.rules.v6)))) != []
  {
    ReadRule(p, k, r);
    var e := FwmarkIn(p.c.rt, RuleLine(r)).value;
    FwmarksInAre(p.c.rt, RuleLines(k.rules.v6), e);
    SeenIsPlanned(p.c.rt, p.inv, FwmarksIn(p.c.rt, RuleLines(k.rules.v6)), e.ifIndex);
  }
}
