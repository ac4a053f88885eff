/** Inventory against what was read: the resources of a pass and the batch they ask for. */
module Plan {
  import opened Common
  import opened Tokens
  import opened Numbers
  import opened Routes
  import opened Command
  import opened Desired
  import opened Kernel
  import Firewall
  import Translation
  import Learning

  datatype InstalledEcmp = InstalledEcmp(present: bool, hops: map<Hop, int>)

  /** What one pass read; None where a read failed. */
  datatype Installed = Installed(
    rules: Both<Option<seq<Fields>>>,
    ecmp: map<Fam, InstalledEcmp>,
    tables: map<TableId, Option<seq<Fields>>>,
    abandoned: set<Fam>,
    nft: Firewall.InstalledNft,
    nft6: Firewall.InstalledNft,
    ipt: Firewall.InstalledIpt,
    npt: Option<set<Translation.Key>>,
    learn: Option<set<Learning.LearnKey>>)

  datatype Verdict = Wanted | Absent | Unmanaged

  datatype Resource = Resource(verdict: Verdict, inSync: bool, install: Batch, remove: Batch)

  function ActsOf(r: Resource): Batch {
    match r.verdict
    case Unmanaged => []
    case Absent => r.remove
    case Wanted => if r.inSync then [] else r.install
  }

  function PlanOf(rs: seq<Resource>): Batch {
    if rs == [] then [] else PlanOf(rs[..|rs| - 1]) + ActsOf(rs[|rs| - 1])
  }

  method MakePlan(rs: seq<Resource>) returns (out: Batch)
    ensures out == PlanOf(rs)
  {
    out := [];
    for i := 0 to |rs|
      invariant out == PlanOf(rs[..i])
    {
      assert rs[..i + 1][..i] == rs[..i];
      match rs[i].verdict {
        case Unmanaged =>
        case Absent =>
          if |rs[i].remove| == 0 {
            continue;
          }
          out := out + rs[i].remove;
        case Wanted =>
          if rs[i].inSync {
            continue;
          }
          out := out + rs[i].install;
      }
    }
    assert rs[..|rs|] == rs;
  }

  // ----- reading rule listings ------------------------------------------------------------------

  predicate HasPrefix(s: string, p: string) {
    |p| <= |s| && s[..|p|] == p
  }

  predicate HasSuffix(s: string, p: string) {
    |p| <= |s| && s[|s| - |p|..] == p
  }

  predicate Contains(s: string, part: string) {
    HasPrefix(s, part) || (s != [] && Contains(s[1..], part))
  }

  /** The line's text has the words in it, one blank apart: the first may be the end of a field
      and the last the beginning of one. */
  predicate ContainsWords(line: Fields, words: Fields)
    requires |words| >= 2
  {
    exists i :: 0 <= i <= |line| - |words| && WordsAt(line, words, i)
  }

  predicate WordsAt(line: Fields, words: Fields, i: nat)
    requires |words| >= 2 && i + |words| <= |line|
  {
    var n := |words| - 1;
    && HasSuffix(line[i], words[0])
    && line[i + 1..i + n] == words[1..n]
    && HasPrefix(line[i + n], words[n])
  }

  datatype Lookup = Lookup(prio: int, table: int)

  function TrimColon(s: string): string {
    if s != [] && s[|s| - 1] == ':' then s[..|s| - 1] else s
  }

  function ParseLookup(line: Fields): Option<Lookup> {
    if |line| < 2 then None
    else
      var prio := Atoi(TrimColon(line[0]));
      var table := Atoi(TextOf(FieldAfter(line, "lookup")));
      if prio.None? || table.None? then None else Some(Lookup(prio.value, table.value))
  }

  predicate OwnTable(rt: RouteOptions, table: int) {
    rt.offset <= table < RESERVED_TABLE
  }

  /** The interface of a per-gateway rule. */
  function GatewayRuleIf(rt: RouteOptions, line: Fields): Option<nat> {
    var l := ParseLookup(line);
    if l.None? || l.value.prio != 1000 + l.value.table || !OwnTable(rt, l.value.table) then None
    else Some(l.value.table - rt.offset)
  }

  function PlaceIf(ifs: seq<nat>, x: nat): seq<nat> {
    if ifs == [] then [x]
    else
      var n := |ifs| - 1;
      if ifs[n] == x then ifs
      else if ifs[n] < x then ifs + [x]
      else PlaceIf(ifs[..n], x) + [ifs[n]]
  }

  /** Ascending, without repetition. */
  function GatewayRuleIfs(rt: RouteOptions, lines: seq<Fields>): seq<nat> {
    if lines == [] then []
    else
      var n := |lines| - 1;
      var before := GatewayRuleIfs(rt, lines[..n]);
      var x := GatewayRuleIf(rt, lines[n]);
      if x.None? then before else PlaceIf(before, x.value)
  }

  method InstalledTableIfIndexes(rt: RouteOptions, rules: Option<seq<Fields>>) returns (ifs: seq<nat>)
    ensures ifs == if rules.None? then [] else GatewayRuleIfs(rt, rules.value)
  {
    ifs := [];
    if rules.None? {
      return;
    }
    var lines := rules.value;
    for i := 0 to |lines|
      invariant ifs == GatewayRuleIfs(rt, lines[..i])
    {
      assert lines[..i + 1][..i] == lines[..i];
      var x := GatewayRuleIf(rt, lines[i]);
      if x.Some? {
        ifs := PlaceIf(ifs, x.value);
      }
    }
    assert lines[..|lines|] == lines;
  }

  datatype InstalledFwmark = InstalledFwmark(ifIndex: nat, prio: int)

  function FwmarkIn(rt: RouteOptions, line: Fields): Option<InstalledFwmark> {
    var l := ParseLookup(line);
    if (forall i :: 0 <= i < |line| ==> !Contains(line[i], "fwmark")) || l.None? || !OwnTable(rt, l.value.table) then None
    else Some(InstalledFwmark(l.value.table - rt.offset, l.value.prio))
  }

  predicate Seen(found: seq<InstalledFwmark>, ifIndex: nat) {
    exists i :: 0 <= i < |found| && found[i].ifIndex == ifIndex
  }

  function PlaceFwmark(found: seq<InstalledFwmark>, x: InstalledFwmark): seq<InstalledFwmark> {
    if found == [] then [x]
    else
      var n := |found| - 1;
      if found[n].ifIndex < x.ifIndex then found + [x] else PlaceFwmark(found[..n], x) + [found[n]]
  }

  /** Ascending by interface; of several rules into one table the first listed. */
  function FwmarksIn(rt: RouteOptions, lines: seq<Fields>): seq<InstalledFwmark> {
    if lines == [] then []
    else
      var n := |lines| - 1;
      var before := FwmarksIn(rt, lines[..n]);
      var x := FwmarkIn(rt, lines[n]);
      if x.None? || Seen(before, x.value.ifIndex) then before else PlaceFwmark(before, x.value)
  }

  method InstalledFwmarks(rt: RouteOptions, rules: Option<seq<Fields>>) returns (found: seq<InstalledFwmark>)
    ensures found == if rules.None? then [] else FwmarksIn(rt, rules.value)
  {
    found := [];
    if rules.None? {
      return;
    }
    var lines := rules.value;
    for i := 0 to |lines|
      invariant found == FwmarksIn(rt, lines[..i])
    {
      assert lines[..i + 1][..i] == lines[..i];
      var x := FwmarkIn(rt, lines[i]);
      if x.None? || Seen(found, x.value.ifIndex) {
        continue;
      }
      found := PlaceFwmark(found, x.value);
    }
    assert lines[..|lines|] == lines;
  }

  // ----- stale tables -----------------------------------------------------------------------------

  function TeardownTable(rt: RouteOptions, fam: Fam, ifIndex: nat): Batch {
    match TableForIface(rt, ifIndex)
    case None => []
    case Some(table) =>
      (if fam.IPv6? then [] else [Act(Teardown(TABLE_RULE), RuleDel(IPv4, GatewayPriority(table)))]) +
      [Act(Teardown(TABLE_ROUTES), Flush(fam, table))]
  }

  function StaleResource(acts: Batch, linksStale: bool): Resource {
    Resource(if linksStale then Unmanaged else Absent, false, [], acts)
  }

  function Stale4(rt: RouteOptions, inv: Inventory, linksStale: bool, ifs: seq<nat>): seq<Resource> {
    if ifs == [] then []
    else
      var n := |ifs| - 1;
      Stale4(rt, inv, linksStale, ifs[..n]) +
      if TableId(IPv4, ifs[n]) in inv.tables then [] else [StaleResource(TeardownTable(rt, IPv4, ifs[n]), linksStale)]
  }

  function StaleFwmark(rt: RouteOptions, x: InstalledFwmark): Batch {
    [Act(Teardown(FWMARK_RULE), RuleDel(IPv6, x.prio))] + TeardownTable(rt, IPv6, x.ifIndex)
  }

  function Stale6(rt: RouteOptions, inv: Inventory, linksStale: bool, found: seq<InstalledFwmark>): seq<Resource> {
    if found == [] then []
    else
      var n := |found| - 1;
      Stale6(rt, inv, linksStale, found[..n]) +
      if TableId(IPv6, found[n].ifIndex) in inv.tables then [] else [StaleResource(StaleFwmark(rt, found[n]), linksStale)]
  }

  function LinesOf(rules: Option<seq<Fields>>): seq<Fields> {
    match rules
    case None => []
    case Some(lines) => lines
  }

  // ----- per-gateway tables -------------------------------------------------------------------------

  predicate Selects(lines: seq<Fields>, selector: Fields, table: nat)
    requires |selector| == 2
  {
    exists i :: 0 <= i < |lines| && ContainsWords(lines[i], selector) && ContainsWords(lines[i], ["lookup", Itoa(table)])
  }

  function DefaultWords(spec: TableSpec): Fields {
    if spec.via == "" then ["default", "dev", spec.ifName] else ["default", "via", spec.via]
  }

  predicate TableInSync(spec: TableSpec, rules: Option<seq<Fields>>, contents: Option<seq<Fields>>) {
    && (spec.fam.IPv6? || (rules.Some? && Selects(rules.value, ["from", spec.src], spec.table)))
    && contents.Some? && exists i :: 0 <= i < |contents.value| && ContainsWords(contents.value[i], DefaultWords(spec))
  }

  function DefaultLine(spec: TableSpec): Fields {
    ["default"] + (if spec.via == "" then [] else ["via", spec.via]) + ["dev", spec.ifName] +
    if spec.fam.IPv4? then ["src", spec.src] else []
  }

  function TableRule(spec: TableSpec): Rule {
    Rule(spec.prio, ["from", spec.src, "lookup", Itoa(spec.table)])
  }

  function TableActs(spec: TableSpec): Batch {
    if spec.fam.IPv6? then [Act(TABLE_ROUTES, RouteReplace(IPv6, spec.table, DefaultLine(spec)))]
    else
      (if spec.subnet == "" then [] else
         [Act(TABLE_ROUTES, RouteReplace(IPv4, spec.table, [spec.subnet, "dev", spec.ifName, "src", spec.src]))]) +
      [Act(TABLE_ROUTES, RouteReplace(IPv4, spec.table, DefaultLine(spec))),
       Act(TABLE_RULE, RuleAdd(IPv4, TableRule(spec)))]
  }

  function ContentsOf(inst: Installed, id: TableId): Option<seq<Fields>> {
    if id in inst.tables then inst.tables[id] else Some([])
  }

  function Tables(inv: Inventory, inst: Installed, ids: seq<TableId>): seq<Resource>
    requires forall id :: id in ids ==> id in inv.tables
  {
    if ids == [] then []
    else
      var n := |ids| - 1;
      var spec := inv.tables[ids[n]];
      Tables(inv, inst, ids[..n]) +
      [Resource(Wanted, TableInSync(spec, inst.rules.Of(ids[n].fam), ContentsOf(inst, ids[n])), TableActs(spec), [])]
  }

  // ----- marks ----------------------------------------------------------------------------------------

  function Words(lines: seq<Fields>): seq<Line> {
    seq(|lines|, i requires 0 <= i < |lines| => seq(|lines[i]|, j requires 0 <= j < |lines[i]| => Word(lines[i][j])))
  }

  function MarkTable4(c: Settings): NftName {
    NftName("ip", c.fw.table)
  }

  function LegacyTable(c: Settings): NftName {
    NftName("inet", c.fw.table)
  }

  function MarkTable6(c: Settings): NftName {
    NftName("ip6", c.fw.table)
  }

  function CleanupNft4(c: Settings): Batch {
    [Act(Teardown(MANGLE_CHAIN), NftDelete(MarkTable4(c))), Act(Teardown(MANGLE_CHAIN), NftDelete(LegacyTable(c)))]
  }

  function InstallNft4(c: Settings, want: seq<Firewall.MarkRule>): Batch
    requires Firewall.Marked(want)
  {
    CleanupNft4(c) + [Act(MANGLE_CHAIN, NftWrite(MarkTable4(c), Words(Firewall.NftTable(c.fw.table, Firewall.V4, want, Firewall.Listed))))]
  }

  function CleanupNft6(c: Settings): Batch {
    [Act(Teardown(MANGLE_CHAIN), NftDelete(MarkTable6(c)))]
  }

  function InstallNft6(c: Settings, want: seq<Firewall.MarkRule>): Batch
    requires Firewall.Marked(want)
  {
    CleanupNft6(c) + [Act(MANGLE_CHAIN, NftWrite(MarkTable6(c), Words(Firewall.NftTable(c.fw.table, Firewall.V6([]), want, Firewall.Listed))))]
  }

  function IptActs(c: Settings, order: int, cmds: seq<Firewall.IptCommand>): Batch {
    seq(|cmds|, i requires 0 <= i < |cmds| => Act(order, Ipt(c.fw.chain, cmds[i])))
  }

  function CleanupIpt(c: Settings): Batch {
    IptActs(c, Teardown(MANGLE_CHAIN), Firewall.IPT_CLEANUP)
  }

  function InstallIpt(c: Settings, want: seq<Firewall.MarkRule>): Batch {
    CleanupIpt(c) + IptActs(c, MANGLE_CHAIN, Firewall.IptInstall(want))
  }

  /** Nothing wanted means absent; removing does nothing when nothing is there. */
  function MangleResource(want: seq<Firewall.MarkRule>, inSync: bool, install: Batch, cleanup: Batch): Resource {
    Resource(if want == [] then Absent else Wanted, inSync, install, if inSync then [] else cleanup)
  }

  function NftMangle4(c: Settings, want: seq<Firewall.MarkRule>, inst: Installed): Resource
    requires Firewall.Marked(want)
  {
    MangleResource(want, !Firewall.NftNeedsRestore(Firewall.V4, want, inst.nft), InstallNft4(c, want), CleanupNft4(c))
  }

  function IptMangle(c: Settings, want: seq<Firewall.MarkRule>, inst: Installed): Resource {
    MangleResource(want, !Firewall.IptNeedsRestore(want, inst.ipt), InstallIpt(c, want), CleanupIpt(c))
  }

  /** The chosen backend with the wanted marks, the other one with none. */
  function Mangle(c: Settings, inv: Inventory, inst: Installed): seq<Resource>
    requires Firewall.Marked(inv.marks)
  {
    if c.fw.nftables then [NftMangle4(c, inv.marks, inst), IptMangle(c, [], inst)]
    else [IptMangle(c, inv.marks, inst), NftMangle4(c, [], inst)]
  }

  function Mangle6(c: Settings, inv: Inventory, inst: Installed): Resource
    requires Firewall.Marked(inv.marks6)
  {
    MangleResource(inv.marks6, !Firewall.NftNeedsRestore(Firewall.V6([]), inv.marks6, inst.nft6),
                   InstallNft6(c, inv.marks6), CleanupNft6(c))
  }

  // ----- fwmark rules ------------------------------------------------------------------------------------

  function FwmarkRule(spec: FwmarkSpec): Rule {
    Rule(spec.prio, ["from", "all", "fwmark", Hex(spec.mark, 0), "lookup", Itoa(spec.table)])
  }

  function FwmarkActs(fam: Fam, specs: seq<FwmarkSpec>): Batch {
    seq(|specs|, i requires 0 <= i < |specs| => Act(FWMARK_RULE, RuleAdd(fam, FwmarkRule(specs[i]))))
  }

  predicate FwmarksInSync(specs: seq<FwmarkSpec>, rules: Option<seq<Fields>>) {
    rules.Some? && forall i :: 0 <= i < |specs| ==> Selects(rules.value, ["fwmark", Hex(specs[i].mark, 0)], specs[i].table)
  }

  function Fwmarks(fam: Fam, specs: seq<FwmarkSpec>, inst: Installed): seq<Resource> {
    if specs == [] then []
    else [Resource(Wanted, FwmarksInSync(specs, inst.rules.Of(fam)), FwmarkActs(fam, specs), [])]
  }

  // ----- the managed route ---------------------------------------------------------------------------------

  function EcmpRead(inst: Installed, fam: Fam): InstalledEcmp {
    if fam in inst.ecmp then inst.ecmp[fam] else InstalledEcmp(false, map[])
  }

  predicate EcmpInSync(ns: seq<Nexthop>, got: InstalledEcmp) {
    got.present && Match(NexthopMap(ns), got.hops)
  }

  function EcmpResource(c: Settings, inv: Inventory, inst: Installed, fam: Fam): Resource {
    var got := EcmpRead(inst, fam);
    if fam !in inv.ecmp || inv.ecmp[fam].Retain? then Resource(Unmanaged, false, [], [])
    else
      var ns := inv.ecmp[fam].nexthops;
      Resource(Wanted, EcmpInSync(ns, got),
               [Act(ECMP_ROUTE, EcmpPut(fam, EcmpMetric(c.rt, fam), ns, got.present))], [])
  }

  function Ecmp(c: Settings, inv: Inventory, inst: Installed, managed: seq<Fam>): seq<Resource> {
    if managed == [] then []
    else
      var n := |managed| - 1;
      Ecmp(c, inv, inst, managed[..n]) + [EcmpResource(c, inv, inst, managed[n])]
  }

  function AbandonedOf(c: Settings, inst: Installed, fam: Fam): seq<Resource> {
    if fam in c.rt.managed || fam !in inst.abandoned then []
    else [Resource(Absent, false, [], [Act(Teardown(ECMP_ROUTE), EcmpDel(fam))])]
  }

  // ----- translation and learning tables ----------------------------------------------------------------------

  function NptTable(c: Settings): NftName {
    NftName("ip6", c.npt.table)
  }

  function LearnTable(c: Settings): NftName {
    NftName("ip6", c.nd.table)
  }

  function NptActs(c: Settings, ruleset: Option<Translation.Table>, comments: Translation.Comments): Batch
    requires ruleset.Some? ==> comments.For(ruleset.value)
  {
    match ruleset
    case None => [Act(NFT_TABLE, NftDelete(NptTable(c)))]
    case Some(t) => [Act(NFT_TABLE, NftWrite(NptTable(c), Translation.TableLines(c.npt.table, t, comments)))]
  }

  function LearnActs(c: Settings, learn: seq<Learning.LearnRule>): Batch {
    if learn == [] then []
    else [Act(NFT_TABLE, NftWrite(LearnTable(c), Learning.TableLines(c.nd.table, learn, c.nd.timeout, c.nd.size, [])))]
  }

  function Nft(c: Settings, inv: Inventory, inst: Installed, comments: Translation.Comments): seq<Resource>
    requires inv.ruleset.Some? ==> comments.For(inv.ruleset.value)
  {
    if !c.translates then []
    else
      [Resource(Wanted, !Translation.NeedsRestore(inv.nptRules, inst.npt), NptActs(c, inv.ruleset, comments), [])] +
      if Proxies(c) then
        [Resource(Wanted, !Learning.NeedsRestore(Learning.RuleKeys(inv.learn), inst.learn), LearnActs(c, inv.learn), [])]
      else
        [Resource(Absent, false, [], if inst.learn.None? then [] else [Act(NFT_TABLE, NftDelete(LearnTable(c)))])]
  }

  // ----- all of it ---------------------------------------------------------------------------------------------

  /** What a pass is given besides settings and readings: the order in which the wanted tables
      are visited and the wording of the comments. */
  ghost predicate Plannable(inv: Inventory, ids: seq<TableId>, comments: Translation.Comments) {
    && Enumerates(ids, inv.tables.Keys) && (forall id :: id in ids ==> id in inv.tables)
    && Firewall.Marked(inv.marks) && Firewall.Marked(inv.marks6)
    && (inv.ruleset.Some? ==> comments.For(inv.ruleset.value))
  }

  function FirstResources(c: Settings, linksStale: bool, inv: Inventory, inst: Installed, ids: seq<TableId>): seq<Resource>
    requires forall id :: id in ids ==> id in inv.tables
    requires Firewall.Marked(inv.marks) && Firewall.Marked(inv.marks6)
  {
    Stale4(c.rt, inv, linksStale, GatewayRuleIfs(c.rt, LinesOf(inst.rules.v4))) +
    Stale6(c.rt, inv, linksStale, FwmarksIn(c.rt, LinesOf(inst.rules.v6))) +
    Tables(inv, inst, ids) +
    Mangle(c, inv, inst) +
    [Mangle6(c, inv, inst)]
  }

  function LastResources(c: Settings, inv: Inventory, inst: Installed, comments: Translation.Comments): seq<Resource>
    requires inv.ruleset.Some? ==> comments.For(inv.ruleset.value)
  {
    Fwmarks(IPv4, inv.fwmarks4, inst) +
    Fwmarks(IPv6, inv.fwmarks6, inst) +
    Ecmp(c, inv, inst, c.rt.managed) +
    AbandonedOf(c, inst, IPv4) +
    AbandonedOf(c, inst, IPv6) +
    Nft(c, inv, inst, comments)
  }

  function Resources(c: Settings, linksStale: bool, inv: Inventory, inst: Installed, ids: seq<TableId>, comments: Translation.Comments): seq<Resource>
    requires forall id :: id in ids ==> id in inv.tables
    requires Firewall.Marked(inv.marks) && Firewall.Marked(inv.marks6)
    requires inv.ruleset.Some? ==> comments.For(inv.ruleset.value)
  {
    FirstResources(c, linksStale, inv, inst, ids) + LastResources(c, inv, inst, comments)
  }

  function BatchFor(c: Settings, linksStale: bool, inv: Inventory, inst: Installed, ids: seq<TableId>, comments: Translation.Comments): Batch
    requires forall id :: id in ids ==> id in inv.tables
    requires Firewall.Marked(inv.marks) && Firewall.Marked(inv.marks6)
    requires inv.ruleset.Some? ==> comments.For(inv.ruleset.value)
  {
    PlanOf(Resources(c, linksStale, inv, inst, ids, comments))
  }
}
