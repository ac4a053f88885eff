/** What the daemon takes away when it is told to stop, and what it leaves. */
module Shutdown {
  import opened Common
  import opened Gateways
  import opened Command
  import opened Desired
  import opened Kernel
  import opened Plan
  import Firewall
  import Claims

  /** An action of a shutdown: one of a pass's, the removal of one exact rule, or of a proxy entry. */
  datatype Undo =
    | Do(op: Op)
    | DropRule(fam: Fam, rule: Rule)
    | Withdraw(entry: Claims.Entry)

  datatype Machine = Machine(kernel: Kernel, proxy: set<Claims.Entry>)

  type Undoing = seq<Act<Undo>>

  function WithoutRule(rules: seq<Rule>, r: Rule): seq<Rule> {
    if rules == [] then []
    else
      var n := |rules| - 1;
      WithoutRule(rules[..n], r) + if rules[n] == r then [] else [rules[n]]
  }

  function Perform(m: Machine, u: Undo): Machine {
    match u
    case Do(op) => m.(kernel := Apply(m.kernel, op))
    case DropRule(fam, r) => m.(kernel := m.kernel.(rules := m.kernel.rules.With(fam, WithoutRule(m.kernel.rules.Of(fam), r))))
    case Withdraw(e) => m.(proxy := m.proxy - {e})
  }

  function PerformAll(m: Machine, acts: Undoing): Machine {
    if acts == [] then m
    else Perform(PerformAll(m, acts[..|acts| - 1]), acts[|acts| - 1].op)
  }

  // ----- the five phases ------------------------------------------------------------------------

  function Doing(acts: Batch): Undoing {
    seq(|acts|, i requires 0 <= i < |acts| => Act(acts[i].order, Do(acts[i].op)))
  }

  function DropRoutes(managed: seq<Fam>): Undoing {
    seq(|managed|, i requires 0 <= i < |managed| => Act(Teardown(ECMP_ROUTE), Do(EcmpDel(managed[i]))))
  }

  /** IPv4 only: the tables of IPv6 gateways are left as they are. */
  function TeardownGateway(rt: RouteOptions, gw: Gateway): Undoing {
    if gw.fam.IPv6? then [] else Doing(TeardownTable(rt, IPv4, gw.ifIndex))
  }

  function TeardownGateways(rt: RouteOptions, gateways: map<string, Gateway>, keys: seq<string>): Undoing
    requires forall k :: k in keys ==> k in gateways
  {
    if keys == [] then []
    else
      var n := |keys| - 1;
      TeardownGateways(rt, gateways, keys[..n]) + TeardownGateway(rt, gateways[keys[n]])
  }

  method CleanupRouteActions(rt: RouteOptions, gateways: map<string, Gateway>, keys: seq<string>) returns (acts: Undoing)
    requires forall k :: k in keys ==> k in gateways
    ensures acts == DropRoutes(rt.managed) + TeardownGateways(rt, gateways, keys)
  {
    acts := [];
    for i := 0 to |rt.managed|
      invariant acts == DropRoutes(rt.managed)[..i]
    {
      acts := acts + [Act(Teardown(ECMP_ROUTE), Do(EcmpDel(rt.managed[i])))];
    }
    var routes := acts;
    for i := 0 to |keys|
      invariant acts == routes + TeardownGateways(rt, gateways, keys[..i])
    {
      assert keys[..i + 1][..i] == keys[..i];
      acts := acts + TeardownGateway(rt, gateways[keys[i]]);
    }
    assert keys[..|keys|] == keys;
  }

  /** Rules of one family whose gateway has a mark, a link and a usable table. */
  function DropMarks(c: Settings, st: State, fam: Fam, rules: seq<Firewall.PortRule>): Undoing {
    if rules == [] then []
    else
      var n := |rules| - 1;
      var spec := SpecOfRule(c, st, rules[n]);
      DropMarks(c, st, fam, rules[..n]) +
      if spec.None? then [] else [Act(Teardown(FWMARK_RULE), DropRule(fam, FwmarkRule(spec.value)))]
  }

  method CleanupFwmarkActions(c: Settings, st: State) returns (acts: Undoing)
    ensures acts == DropMarks(c, st, IPv4, c.fw.rules) + DropMarks(c, st, IPv6, c.fw.rules6)
  {
    var four := DropMarksOf(c, st, IPv4, c.fw.rules);
    var six := DropMarksOf(c, st, IPv6, c.fw.rules6);
    acts := four + six;
  }

  method DropMarksOf(c: Settings, st: State, fam: Fam, rules: seq<Firewall.PortRule>) returns (acts: Undoing)
    ensures acts == DropMarks(c, st, fam, rules)
  {
    acts := [];
    for i := 0 to |rules|
      invariant acts == DropMarks(c, st, fam, rules[..i])
    {
      assert rules[..i + 1][..i] == rules[..i];
      var mark := Firewall.Mark(c.fw.gateways, rules[i].gateway);
      if mark == 0 || rules[i].gateway !in st.ifaces {
        continue;
      }
      var spec := FwmarkFor(c.rt, mark, st.ifaces[rules[i].gateway]);
      if spec.None? {
        continue;
      }
      acts := acts + [Act(Teardown(FWMARK_RULE), DropRule(fam, FwmarkRule(spec.value)))];
    }
    assert rules[..|rules|] == rules;
  }

  function DropMangle(c: Settings): Undoing {
    Doing(CleanupIpt(c)) + Doing(CleanupNft4(c)) + Doing(CleanupNft6(c))
  }

  function DropNpt(c: Settings): Undoing {
    [Act(NFT_TABLE, Do(NftDelete(NptTable(c))))]
  }

  /** The proxy entries, when they could be read, and the learning table. */
  function DropNdp(c: Settings, proxies: Option<seq<Claims.Entry>>): Undoing {
    (if proxies.None? then [] else
       seq(|proxies.value|, i requires 0 <= i < |proxies.value| => Act(Teardown(PROXY_ENTRY), Withdraw(proxies.value[i])))) +
    [Act(NFT_TABLE, Do(NftDelete(LearnTable(c))))]
  }

  /** What a shutdown is given: the settings, the state, its gateways in text order, and the proxy
      entries found. */
  datatype Ending = Ending(c: Settings, st: State, keys: seq<string>, proxies: Option<seq<Claims.Entry>>)

  ghost predicate Known(e: Ending) {
    Sorts(e.keys, e.st.gateways.Keys) && forall k :: k in e.keys ==> k in e.st.gateways
  }

  function RoutePhase(e: Ending): Undoing
    requires forall k :: k in e.keys ==> k in e.st.gateways
  {
    DropRoutes(e.c.rt.managed) + TeardownGateways(e.c.rt, e.st.gateways, e.keys)
  }

  function MarkPhase(e: Ending): Undoing {
    DropMarks(e.c, e.st, IPv4, e.c.fw.rules) + DropMarks(e.c, e.st, IPv6, e.c.fw.rules6)
  }

  function Phases(e: Ending): seq<Undoing>
    requires forall k :: k in e.keys ==> k in e.st.gateways
  {
    [RoutePhase(e), MarkPhase(e), DropMangle(e.c), DropNpt(e.c), DropNdp(e.c, e.proxies)]
  }

  // ----- what the actions are ---------------------------------------------------------------------

  /** Every action takes something away, in the rank of its kind. */
  ghost predicate TakesAway(e: Ending, a: Act<Undo>) {
    match a.op
    case Do(EcmpDel(fam)) => a.order == Teardown(ECMP_ROUTE) && fam in e.c.rt.managed
    case Do(RuleDel(fam, prio)) =>
      a.order == Teardown(TABLE_RULE) && fam.IPv4? &&
      exists k :: k in e.st.gateways && e.st.gateways[k].fam.IPv4? && GatewayTable(e, k).Some? && prio == GatewayPriority(GatewayTable(e, k).value)
    case Do(Flush(fam, table)) =>
      a.order == Teardown(TABLE_ROUTES) && fam.IPv4? &&
      exists k :: k in e.st.gateways && e.st.gateways[k].fam.IPv4? && GatewayTable(e, k) == Some(table)
    case DropRule(fam, r) =>
      a.order == Teardown(FWMARK_RULE) &&
      exists rule :: rule in RulesFor(e.c, fam) && SpecOfRule(e.c, e.st, rule).Some? && r == FwmarkRule(SpecOfRule(e.c, e.st, rule).value)
    case Do(Ipt(chain, cmd)) => a.order == Teardown(MANGLE_CHAIN) && chain == e.c.fw.chain && cmd in Firewall.IPT_CLEANUP
    case Do(NftDelete(name)) => (a.order == Teardown(MANGLE_CHAIN) || a.order == NFT_TABLE) && name in OwnTables(e.c)
    case Withdraw(entry) => a.order == Teardown(PROXY_ENTRY) && e.proxies.Some? && entry in e.proxies.value
    case _ => false
  }

  function GatewayTable(e: Ending, k: string): Option<nat>
    requires k in e.st.gateways
  {
    TableForIface(e.c.rt, e.st.gateways[k].ifIndex)
  }

  function RulesFor(c: Settings, fam: Fam): seq<Firewall.PortRule> {
    if fam.IPv4? then c.fw.rules else c.fw.rules6
  }

  function OwnTables(c: Settings): set<NftName> {
    {MarkTable4(c), LegacyTable(c), MarkTable6(c), NptTable(c), LearnTable(c)}
  }

  lemma {:induction false} TeardownsAre(e: Ending, keys: seq<string>, a: Act<Undo>)
    requires forall k :: k in keys ==> k in e.st.gateways
    ensures a in TeardownGateways(e.c.rt, e.st.gateways, keys) <==> exists k :: k in keys && a in TeardownGateway(e.c.rt, e.st.gateways[k])
  {
    if keys != [] {
      var n := |keys| - 1;
      assert keys == keys[..n] + [keys[n]];
      TeardownsAre(e, keys[..n], a);
    }
  }

  lemma {:induction false} DropMarksAre(c: Settings, st: State, fam: Fam, rules: seq<Firewall.PortRule>, a: Act<Undo>)
    ensures a in DropMarks(c, st, fam, rules) <==>
            exists rule :: rule in rules && SpecOfRule(c, st, rule).Some? &&
              a == Act(Teardown(FWMARK_RULE), DropRule(fam, FwmarkRule(SpecOfRule(c, st, rule).value)))
  {
    if rules != [] {
      var n := |rules| - 1;
      assert rules == rules[..n] + [rules[n]];
      DropMarksAre(c, st, fam, rules[..n], a);
    }
  }

  lemma TeardownTakes(e: Ending, k: string, a: Act<Undo>)
    requires k in e.st.gateways && a in TeardownGateway(e.c.rt, e.st.gateways[k])
    ensures TakesAway(e, a)
  {
    var table := GatewayTable(e, k);
    assert table.Some? ==> a == Act(Teardown(TABLE_RULE), Do(RuleDel(IPv4, GatewayPriority(table.value)))) ||
                           a == Act(Teardown(TABLE_ROUTES), Do(Flush(IPv4, table.value)));
  }

  lemma RoutePhaseTakes(e: Ending, a: Act<Undo>)
    requires Known(e) && a in RoutePhase(e)
    ensures TakesAway(e, a)
  {
    if a in TeardownGateways(e.c.rt, e.st.gateways, e.keys) {
      TeardownsAre(e, e.keys, a);
      var k :| k in e.keys && a in TeardownGateway(e.c.rt, e.st.gateways[k]);
      TeardownTakes(e, k, a);
    }
  }

  lemma MarkPhaseTakes(e: Ending, a: Act<Undo>)
    requires a in MarkPhase(e)
    ensures TakesAway(e, a)
  {
    DropMarksAre(e.c, e.st, IPv4, e.c.fw.rules, a);
    DropMarksAre(e.c, e.st, IPv6, e.c.fw.rules6, a);
  }

  lemma LaterPhasesTake(e: Ending, a: Act<Undo>)
    requires a in DropMangle(e.c) || a in DropNpt(e.c) || a in DropNdp(e.c, e.proxies)
    ensures TakesAway(e, a)
  {
  }

  ghost predicate AllTake(e: Ending, acts: Undoing) {
    forall a :: a in acts ==> TakesAway(e, a)
  }

  lemma PhasesTake(e: Ending, k: nat)
    requires Known(e) && k < 5
    ensures AllTake(e, Phases(e)[k]) && Ranked(Phases(e)[k])
  {
    var acts := Phases(e)[k];
    forall a | a in acts
      ensures TakesAway(e, a)
    {
      if k == 0 {
        RoutePhaseTakes(e, a);
      } else if k == 1 {
        MarkPhaseTakes(e, a);
      } else {
        LaterPhasesTake(e, a);
      }
    }
    forall i | 0 <= i < |acts|
      ensures -PROXY_ENTRY <= acts[i].order <= PROXY_ENTRY
    {
      assert TakesAway(e, acts[i]);
    }
  }

  /** The shutdown batch, sorted as every batch is, runs phase by phase. */
  lemma ShutdownIsPhased(e: Ending)
    requires Known(e)
    ensures Sorted(Phased(Phases(e))) == PhaseByPhase(Phases(e))
  {
    forall k | 0 <= k < |Phases(e)|
      ensures Ranked(Phases(e)[k])
    {
      PhasesTake(e, k);
    }
    ShutdownRunsInPhases(Phases(e));
  }

  // ----- what a shutdown does --------------------------------------------------------------------------

  /** The shutdown batch as it runs. */
  ghost function Final(e: Ending): Undoing
    requires Known(e)
  {
    Sorted(Phased(Phases(e)))
  }

  ghost predicate Stays(p: Machine -> bool, u: Undo) {
    forall m: Machine :: p(m) ==> p(Perform(m, u))
  }

  lemma {:induction false} PerformKeeps(m: Machine, acts: Undoing, p: Machine -> bool)
    requires p(m) && forall a :: a in acts ==> Stays(p, a.op)
    ensures p(PerformAll(m, acts))
  {
    if acts != [] {
      var n := |acts| - 1;
      assert acts == acts[..n] + [acts[n]];
      PerformKeeps(m, acts[..n], p);
    }
  }

  /** What one action turns, and all keep, holds at the end. */
  lemma {:induction false} PerformTurns(m: Machine, acts: Undoing, x: Act<Undo>, before: Machine -> bool, after: Machine -> bool)
    requires x in acts && before(m) && forall s: Machine :: before(s) ==> after(Perform(s, x.op))
    requires forall a :: a in acts ==> Stays(before, a.op) && Stays(after, a.op)
    ensures after(PerformAll(m, acts))
  {
    var n := |acts| - 1;
    assert acts == acts[..n] + [acts[n]];
    if acts[n] == x {
      PerformKeeps(m, acts[..n], before);
    } else {
      PerformTurns(m, acts[..n], x, before, after);
    }
  }

  lemma {:induction false} PhasedMembers<T>(phases: seq<seq<Act<T>>>, op: T)
    ensures (exists a :: a in Phased(phases) && a.op == op) <==> (exists k, a :: 0 <= k < |phases| && a in phases[k] && a.op == op)
  {
    if phases != [] {
      var n := |phases| - 1;
      var last := Shifted(phases[n], 1000 * (n + 1));
      PhasedMembers(phases[..n], op);
      if a :| a in Phased(phases) && a.op == op {
        if a in last {
          assert phases[n][IndexOf(last, a)].op == op;
        } else {
          var k, b :| 0 <= k < n && b in phases[..n][k] && b.op == op;
          assert b in phases[k];
        }
      }
      if k, a :| 0 <= k < |phases| && a in phases[k] && a.op == op {
        if k == n {
          assert last[IndexOf(phases[n], a)].op == op;
          assert last[IndexOf(phases[n], a)] in Phased(phases);
        } else {
          assert a in phases[..n][k];
          var b :| b in Phased(phases[..n]) && b.op == op;
          assert b in Phased(phases);
        }
      }
    }
  }

  /** The operations of the batch are those of its phases. */
  lemma FinalOps(e: Ending, u: Undo)
    requires Known(e)
    ensures (exists a :: a in Final(e) && a.op == u) <==> (exists k, a :: 0 <= k < 5 && a in Phases(e)[k] && a.op == u)
  {
    PhasedMembers(Phases(e), u);
    forall a
      ensures a in Final(e) <==> a in Phased(Phases(e))
    {
      SortedMembers(Phased(Phases(e)), a);
    }
  }

  /** What the batch may do, whatever the rank. */
  ghost predicate Removal(e: Ending, u: Undo) {
    exists order :: TakesAway(e, Act(order, u))
  }

  lemma FinalRemoves(e: Ending, a: Act<Undo>)
    requires Known(e) && a in Final(e)
    ensures Removal(e, a.op)
  {
    FinalOps(e, a.op);
    var k, b :| 0 <= k < 5 && b in Phases(e)[k] && b.op == a.op;
    PhasesTake(e, k);
    assert b == Act(b.order, a.op);
  }

  lemma InFinal(e: Ending, k: nat, x: Act<Undo>) returns (y: Act<Undo>)
    requires Known(e) && k < 5 && x in Phases(e)[k]
    ensures y in Final(e) && y.op == x.op
  {
    FinalOps(e, x.op);
    y :| y in Final(e) && y.op == x.op;
  }

  // ----- what is gone afterwards -----------------------------------------------------------------------------

  lemma {:induction false} WithoutRuleMembers(rules: seq<Rule>, r: Rule, s: Rule)
    ensures s in WithoutRule(rules, r) <==> s in rules && s != r
  {
    if rules != [] {
      var n := |rules| - 1;
      assert rules == rules[..n] + [rules[n]];
      WithoutRuleMembers(rules[..n], r, s);
    }
  }

  /** No removal brings a rule. */
  lemma NoNewRule(e: Ending, u: Undo, m: Machine, fam: Fam, s: Rule)
    requires Removal(e, u) && s in Perform(m, u).kernel.rules.Of(fam)
    ensures s in m.kernel.rules.Of(fam)
  {
    match u {
      case Do(op) =>
        if op.RuleDel? {
          DelRuleMembers(m.kernel.rules.Of(op.fam), op.prio, s);
        }
      case DropRule(f, r) => WithoutRuleMembers(m.kernel.rules.Of(f), r, s);
      case Withdraw(_) =>
    }
  }

  lemma NoRemovalBrings(e: Ending, u: Undo, fam: Fam, r: Rule)
    requires Removal(e, u)
    ensures Stays((s: Machine) => r !in s.kernel.rules.Of(fam), u)
  {
    forall s: Machine | r !in s.kernel.rules.Of(fam)
      ensures r !in Perform(s, u).kernel.rules.Of(fam)
    {
      if r in Perform(s, u).kernel.rules.Of(fam) {
        NoNewRule(e, u, s, fam, r);
      }
    }
  }

  /** Nor a table, of either kind. */
  lemma NoRemovalFills(e: Ending, u: Undo, s: Machine, key: TableKey)
    requires Removal(e, u) && key !in s.kernel.tables
    ensures key !in Perform(s, u).kernel.tables
  {
  }

  lemma NoRemovalWrites(e: Ending, u: Undo, s: Machine, name: NftName)
    requires Removal(e, u) && name !in s.kernel.nft
    ensures name !in Perform(s, u).kernel.nft
  {
  }

  /** The managed routes are gone. */
  lemma RoutesAreGone(e: Ending, m: Machine, fam: Fam)
    requires Known(e) && fam in e.c.rt.managed
    ensures PerformAll(m, Final(e)).kernel.own.Of(fam) == None
  {
    var gone := (s: Machine) => s.kernel.own.Of(fam) == None;
    forall a | a in Final(e)
      ensures Stays(gone, a.op)
    {
      FinalRemoves(e, a);
    }
    var i := IndexOf(e.c.rt.managed, fam);
    var x := InFinal(e, 0, DropRoutes(e.c.rt.managed)[i]);
    PerformTurns(m, Final(e), x, (s: Machine) => true, gone);
  }

  /** So are all nftables tables the daemon may have written. */
  lemma TablesAreGone(e: Ending, m: Machine, name: NftName)
    requires Known(e) && name in OwnTables(e.c)
    ensures name !in PerformAll(m, Final(e)).kernel.nft
  {
    var gone := (s: Machine) => name !in s.kernel.nft;
    forall a | a in Final(e)
      ensures Stays(gone, a.op)
    {
      FinalRemoves(e, a);
      forall s: Machine | name !in s.kernel.nft
        ensures name !in Perform(s, a.op).kernel.nft
      {
        NoRemovalWrites(e, a.op, s, name);
      }
    }
    var k, y := DeletedIn(e, name);
    var x := InFinal(e, k, y);
    PerformTurns(m, Final(e), x, (s: Machine) => true, gone);
  }

  lemma DeletedIn(e: Ending, name: NftName) returns (k: nat, y: Act<Undo>)
    requires Known(e) && name in OwnTables(e.c)
    ensures k < 5 && y in Phases(e)[k] && y.op == Do(NftDelete(name))
  {
    if name == MarkTable4(e.c) {
      k, y := 2, Doing(CleanupNft4(e.c))[0];
    } else if name == LegacyTable(e.c) {
      k, y := 2, Doing(CleanupNft4(e.c))[1];
    } else if name == MarkTable6(e.c) {
      k, y := 2, Doing(CleanupNft6(e.c))[0];
    } else if name == NptTable(e.c) {
      k, y := 3, DropNpt(e.c)[0];
    } else {
      k, y := 4, Act(NFT_TABLE, Do(NftDelete(LearnTable(e.c))));
    }
  }

  /** And the proxy entries, when they could be read. */
  lemma EntriesAreGone(e: Ending, m: Machine, entry: Claims.Entry)
    requires Known(e) && e.proxies.Some? && entry in e.proxies.value
    ensures entry !in PerformAll(m, Final(e)).proxy
  {
    var gone := (s: Machine) => entry !in s.proxy;
    forall a | a in Final(e)
      ensures Stays(gone, a.op)
    {
    }
    var y := Act(Teardown(PROXY_ENTRY), Withdraw(entry));
    assert DropNdp(e.c, e.proxies)[IndexOf(e.proxies.value, entry)] == y;
    var x := InFinal(e, 4, y);
    PerformTurns(m, Final(e), x, (s: Machine) => true, gone);
  }

  /** A fwmark rule of the settings, for a gateway whose link is known, is gone. */
  lemma MarkRuleIsGone(e: Ending, m: Machine, fam: Fam, rule: Firewall.PortRule)
    requires Known(e) && rule in RulesFor(e.c, fam) && SpecOfRule(e.c, e.st, rule).Some?
    ensures FwmarkRule(SpecOfRule(e.c, e.st, rule).value) !in PerformAll(m, Final(e)).kernel.rules.Of(fam)
  {
    var r := FwmarkRule(SpecOfRule(e.c, e.st, rule).value);
    var gone := (s: Machine) => r !in s.kernel.rules.Of(fam);
    forall a | a in Final(e)
      ensures Stays(gone, a.op)
    {
      FinalRemoves(e, a);
      NoRemovalBrings(e, a.op, fam, r);
    }
    var y := Act(Teardown(FWMARK_RULE), DropRule(fam, r));
    DropMarksAre(e.c, e.st, fam, RulesFor(e.c, fam), y);
    var x := InFinal(e, 1, y);
    forall s: Machine
      ensures r !in Perform(s, x.op).kernel.rules.Of(fam)
    {
      WithoutRuleMembers(s.kernel.rules.Of(fam), r, r);
    }
    PerformTurns(m, Final(e), x, (s: Machine) => true, gone);
  }

  // ----- per-gateway tables ---------------------------------------------------------------------------------------

  lemma TeardownIsPlanned(e: Ending, k: string)
    requires Known(e) && k in e.st.gateways && e.st.gateways[k].fam.IPv4? && GatewayTable(e, k).Some?
    ensures var table := GatewayTable(e, k).value;
            && Act(Teardown(TABLE_RULE), Do(RuleDel(IPv4, GatewayPriority(table)))) in Phases(e)[0]
            && Act(Teardown(TABLE_ROUTES), Do(Flush(IPv4, table))) in Phases(e)[0]
  {
    var table := GatewayTable(e, k).value;
    var acts := TeardownGateway(e.c.rt, e.st.gateways[k]);
    assert k in Range(e.keys);
    assert acts[0] == Act(Teardown(TABLE_RULE), Do(RuleDel(IPv4, GatewayPriority(table))));
    assert acts[1] == Act(Teardown(TABLE_ROUTES), Do(Flush(IPv4, table)));
    TeardownsAre(e, e.keys, acts[0]);
    TeardownsAre(e, e.keys, acts[1]);
  }

  /** The table of a known IPv4 gateway is empty. */
  lemma GatewayTableIsGone(e: Ending, m: Machine, k: string)
    requires Known(e) && k in e.st.gateways && e.st.gateways[k].fam.IPv4? && GatewayTable(e, k).Some?
    ensures TableKey(IPv4, GatewayTable(e, k).value) !in PerformAll(m, Final(e)).kernel.tables
  {
    var key := TableKey(IPv4, GatewayTable(e, k).value);
    TeardownIsPlanned(e, k);
    var x := InFinal(e, 0, Act(Teardown(TABLE_ROUTES), Do(Flush(IPv4, GatewayTable(e, k).value))));
    FlushedIsGone(e, m, key, x);
  }

  lemma FlushedIsGone(e: Ending, m: Machine, key: TableKey, x: Act<Undo>)
    requires Known(e) && x in Final(e) && x.op == Do(Flush(key.fam, key.table))
    ensures key !in PerformAll(m, Final(e)).kernel.tables
  {
    var gone := (s: Machine) => key !in s.kernel.tables;
    forall a | a in Final(e)
      ensures Stays(gone, a.op)
    {
      FinalRemoves(e, a);
      forall s: Machine | key !in s.kernel.tables
        ensures key !in Perform(s, a.op).kernel.tables
      {
        NoRemovalFills(e, a.op, s, key);
      }
    }
    PerformTurns(m, Final(e), x, (s: Machine) => true, gone);
  }

  ghost predicate NoPriority(rules: seq<Rule>, prio: nat) {
    forall r :: r in rules ==> r.prio != prio
  }

  lemma {:induction false} WithoutRuleKeepsUnique(rules: seq<Rule>, r: Rule)
    requires UniquePriorities(rules)
    ensures UniquePriorities(WithoutRule(rules, r))
  {
    if rules != [] {
      var n := |rules| - 1;
      WithoutRuleKeepsUnique(rules[..n], r);
      var rest := WithoutRule(rules[..n], r);
      forall i | 0 <= i < |rest|
        ensures rest[i].prio != rules[n].prio
      {
        WithoutRuleMembers(rules[..n], r, rest[i]);
      }
    }
  }

  lemma RemovalKeepsUnique(e: Ending, u: Undo, m: Machine)
    requires Removal(e, u) && UniquePriorities(m.kernel.rules.v4)
    ensures UniquePriorities(Perform(m, u).kernel.rules.v4)
  {
    if u.DropRule? {
      WithoutRuleKeepsUnique(m.kernel.rules.v4, u.rule);
    } else if u.Do? && u.op.RuleDel? {
      DelRuleRemoves(m.kernel.rules.v4, u.op.prio);
    }
  }

  /** And its rule is gone, when priorities were unique. */
  lemma GatewayRuleIsGone(e: Ending, m: Machine, k: string)
    requires Known(e) && k in e.st.gateways && e.st.gateways[k].fam.IPv4? && GatewayTable(e, k).Some?
    requires UniquePriorities(m.kernel.rules.v4)
    ensures NoPriority(PerformAll(m, Final(e)).kernel.rules.v4, GatewayPriority(GatewayTable(e, k).value))
  {
    var prio := GatewayPriority(GatewayTable(e, k).value);
    var unique := (s: Machine) => UniquePriorities(s.kernel.rules.v4);
    var gone := (s: Machine) => NoPriority(s.kernel.rules.v4, prio);
    forall a | a in Final(e)
      ensures Stays(unique, a.op) && Stays(gone, a.op)
    {
      FinalRemoves(e, a);
      forall s: Machine
        ensures unique(s) ==> unique(Perform(s, a.op))
        ensures gone(s) ==> gone(Perform(s, a.op))
      {
        if unique(s) {
          RemovalKeepsUnique(e, a.op, s);
        }
        forall r | gone(s) && r in Perform(s, a.op).kernel.rules.v4
          ensures r.prio != prio
        {
          NoNewRule(e, a.op, s, IPv4, r);
        }
      }
    }
    TeardownIsPlanned(e, k);
    var x := InFinal(e, 0, Act(Teardown(TABLE_RULE), Do(RuleDel(IPv4, prio))));
    forall s: Machine | unique(s)
      ensures gone(Perform(s, x.op))
    {
      DelRuleRemoves(s.kernel.rules.v4, prio);
    }
    PerformTurns(m, Final(e), x, unique, gone);
  }

  // ----- the iptables chain -----------------------------------------------------------------------------------------

  function CmdsIn(acts: Undoing): seq<Firewall.IptCommand> {
    if acts == [] then []
    else
      var n := |acts| - 1;
      CmdsIn(acts[..n]) + match acts[n].op case Do(Ipt(_, cmd)) => [cmd] case _ => []
  }

  predicate IsIpt(u: Undo) {
    u.Do? && u.op.Ipt?
  }

  lemma {:induction false} CmdsOfJoin(a: Undoing, b: Undoing)
    ensures CmdsIn(a + b) == CmdsIn(a) + CmdsIn(b)
  {
    if b == [] {
      assert a + b == a;
    } else {
      var n := |b| - 1;
      assert (a + b)[..|a + b| - 1] == a + b[..n];
      CmdsOfJoin(a, b[..n]);
    }
  }

  lemma {:induction false} NoCmds(acts: Undoing)
    requires forall a :: a in acts ==> !IsIpt(a.op)
    ensures CmdsIn(acts) == []
  {
    if acts != [] {
      var n := |acts| - 1;
      assert acts == acts[..n] + [acts[n]];
      NoCmds(acts[..n]);
    }
  }

  lemma {:induction false} ShiftedCmds(acts: Undoing, phase: int)
    ensures CmdsIn(Shifted(acts, phase)) == CmdsIn(acts)
  {
    if acts != [] {
      var n := |acts| - 1;
      assert Shifted(acts, phase)[..n] == Shifted(acts[..n], phase);
      ShiftedCmds(acts[..n], phase);
    }
  }

  /** Actions of one rank keep the order they were built in. */
  lemma {:induction false} OneRankStays<T>(acts: seq<Act<T>>, rank: int)
    requires forall i :: 0 <= i < |acts| ==> acts[i].order == rank
    ensures Sorted(acts) == acts
  {
    if acts != [] {
      var n := |acts| - 1;
      OneRankStays(acts[..n], rank);
      assert acts == acts[..n] + [acts[n]];
    }
  }

  lemma QuietPhase(e: Ending, k: nat)
    requires Known(e) && k < 5 && k != 2
    ensures CmdsIn(Sorted(Phases(e)[k])) == []
  {
    var acts := Sorted(Phases(e)[k]);
    forall a | a in acts
      ensures !IsIpt(a.op)
    {
      SortedMembers(Phases(e)[k], a);
      PhaseHasNoIpt(e, k, a);
    }
    NoCmds(acts);
  }

  lemma PhaseHasNoIpt(e: Ending, k: nat, a: Act<Undo>)
    requires Known(e) && k < 5 && k != 2 && a in Phases(e)[k]
    ensures !IsIpt(a.op)
  {
    if k == 0 {
      if a in TeardownGateways(e.c.rt, e.st.gateways, e.keys) {
        TeardownsAre(e, e.keys, a);
      }
    } else if k == 1 {
      DropMarksAre(e.c, e.st, IPv4, e.c.fw.rules, a);
      DropMarksAre(e.c, e.st, IPv6, e.c.fw.rules6, a);
    }
  }

  lemma ManglePhase(c: Settings)
    ensures Sorted(DropMangle(c)) == DropMangle(c) && CmdsIn(DropMangle(c)) == Firewall.IPT_CLEANUP
  {
    OneRankStays(DropMangle(c), Teardown(MANGLE_CHAIN));
    var i, n := Doing(CleanupIpt(c)), Doing(CleanupNft4(c)) + Doing(CleanupNft6(c));
    assert DropMangle(c) == i + n;
    CmdsOfJoin(i, n);
    NoCmds(n);
    CleanupCmds(c, Firewall.IPT_CLEANUP);
  }

  lemma {:induction false} CleanupCmds(c: Settings, cmds: seq<Firewall.IptCommand>)
    ensures CmdsIn(Doing(IptActs(c, Teardown(MANGLE_CHAIN), cmds))) == cmds
  {
    if cmds != [] {
      var n := |cmds| - 1;
      CleanupCmds(c, cmds[..n]);
      assert Doing(IptActs(c, Teardown(MANGLE_CHAIN), cmds))[..n] == Doing(IptActs(c, Teardown(MANGLE_CHAIN), cmds[..n]));
      assert cmds == cmds[..n] + [cmds[n]];
    }
  }

  lemma CmdsOfLast(phases: seq<Undoing>)
    requires phases != []
    ensures var n := |phases| - 1;
            && CmdsIn(PhaseByPhase(phases)) == CmdsIn(PhaseByPhase(phases[..n])) + CmdsIn(Sorted(phases[n]))
  {
    var n := |phases| - 1;
    CmdsOfJoin(PhaseByPhase(phases[..n]), Shifted(Sorted(phases[n]), 1000 * (n + 1)));
    ShiftedCmds(Sorted(phases[n]), 1000 * (n + 1));
  }

  /** Phases that hold no iptables command, but one. */
  lemma {:induction false} CmdsOfPhases(phases: seq<Undoing>, k: nat)
    requires k < |phases| && forall j :: 0 <= j < |phases| && j != k ==> CmdsIn(Sorted(phases[j])) == []
    ensures CmdsIn(PhaseByPhase(phases)) == CmdsIn(Sorted(phases[k]))
  {
    CmdsOfLast(phases);
    if k < |phases| - 1 {
      CmdsOfPhases(phases[..|phases| - 1], k);
    } else {
      NoCmdsInPhases(phases[..|phases| - 1]);
    }
  }

  lemma {:induction false} NoCmdsInPhases(phases: seq<Undoing>)
    requires forall j :: 0 <= j < |phases| ==> CmdsIn(Sorted(phases[j])) == []
    ensures CmdsIn(PhaseByPhase(phases)) == []
  {
    if phases != [] {
      CmdsOfLast(phases);
      NoCmdsInPhases(phases[..|phases| - 1]);
    }
  }

  /** The commands are run in the order they were built in. */
  lemma CmdsOfFinal(e: Ending)
    requires Known(e)
    ensures CmdsIn(Final(e)) == Firewall.IPT_CLEANUP
  {
    ShutdownIsPhased(e);
    forall j | 0 <= j < 5 && j != 2
      ensures CmdsIn(Sorted(Phases(e)[j])) == []
    {
      QuietPhase(e, j);
    }
    CmdsOfPhases(Phases(e), 2);
    ManglePhase(e.c);
  }

  lemma {:induction false} ChainAfter(chain: string, m: Machine, acts: Undoing)
    requires forall a :: a in acts && IsIpt(a.op) ==> a.op.op.chain == chain
    ensures PerformAll(m, acts).kernel.ipt == Firewall.IptRun(chain, CmdsIn(acts), m.kernel.ipt)
  {
    if acts != [] {
      var n := |acts| - 1;
      assert acts == acts[..n] + [acts[n]];
      ChainAfter(chain, m, acts[..n]);
      if IsIpt(acts[n].op) {
        assert CmdsIn(acts)[..|CmdsIn(acts)| - 1] == CmdsIn(acts[..n]);
      } else {
        assert CmdsIn(acts) == CmdsIn(acts[..n]);
      }
    }
  }

  /** The iptables chain and every jump to it are gone. */
  lemma ChainIsGone(e: Ending, m: Machine)
    requires Known(e) && Firewall.OwnJumps(m.kernel.ipt)
    ensures PerformAll(m, Final(e)).kernel.ipt == Firewall.IptState(None, {})
  {
    forall a | a in Final(e) && IsIpt(a.op)
      ensures a.op.op.chain == e.c.fw.chain
    {
      FinalRemoves(e, a);
    }
    ChainAfter(e.c.fw.chain, m, Final(e));
    CmdsOfFinal(e);
    Firewall.CleanupClears(e.c.fw.chain, m.kernel.ipt);
  }

  // ----- what is left --------------------------------------------------------------------------------------------------

  /** Nothing of the daemon's is left, as far as the state still knows it: but IPv6 tables. */
  ghost predicate Cleared(e: Ending, m: Machine) {
    && (forall fam :: fam in e.c.rt.managed ==> m.kernel.own.Of(fam) == None)
    && (forall k :: k in e.st.gateways && e.st.gateways[k].fam.IPv4? && GatewayTable(e, k).Some? ==>
          && TableKey(IPv4, GatewayTable(e, k).value) !in m.kernel.tables
          && NoPriority(m.kernel.rules.v4, GatewayPriority(GatewayTable(e, k).value)))
    && (forall fam, rule :: rule in RulesFor(e.c, fam) && SpecOfRule(e.c, e.st, rule).Some? ==>
          FwmarkRule(SpecOfRule(e.c, e.st, rule).value) !in m.kernel.rules.Of(fam))
    && (forall name :: name in OwnTables(e.c) ==> name !in m.kernel.nft)
    && m.kernel.ipt == Firewall.IptState(None, {})
    && (e.proxies.Some? ==> forall entry :: entry in e.proxies.value ==> entry !in m.proxy)
  }

  lemma ShutdownClears(e: Ending, m: Machine)
    requires Known(e) && UniquePriorities(m.kernel.rules.v4) && Firewall.OwnJumps(m.kernel.ipt)
    ensures Cleared(e, PerformAll(m, Final(e)))
  {
    forall fam | fam in e.c.rt.managed
      ensures PerformAll(m, Final(e)).kernel.own.Of(fam) == None
    {
      RoutesAreGone(e, m, fam);
    }
    forall k | k in e.st.gateways && e.st.gateways[k].fam.IPv4? && GatewayTable(e, k).Some?
      ensures TableKey(IPv4, GatewayTable(e, k).value) !in PerformAll(m, Final(e)).kernel.tables
      ensures NoPriority(PerformAll(m, Final(e)).kernel.rules.v4, GatewayPriority(GatewayTable(e, k).value))
    {
      GatewayTableIsGone(e, m, k);
      GatewayRuleIsGone(e, m, k);
    }
    forall fam, rule | rule in RulesFor(e.c, fam) && SpecOfRule(e.c, e.st, rule).Some?
      ensures FwmarkRule(SpecOfRule(e.c, e.st, rule).value) !in PerformAll(m, Final(e)).kernel.rules.Of(fam)
    {
      MarkRuleIsGone(e, m, fam, rule);
    }
    forall name | name in OwnTables(e.c)
      ensures name !in PerformAll(m, Final(e)).kernel.nft
    {
      TablesAreGone(e, m, name);
    }
    forall entry | e.proxies.Some? && entry in e.proxies.value
      ensures entry !in PerformAll(m, Final(e)).proxy
    {
      EntriesAreGone(e, m, entry);
    }
    ChainIsGone(e, m);
  }

  /** Everybody else's routes, nftables tables and proxy entries, and every IPv6 table, are as they
      were. */
  ghost predicate Untouched(e: Ending, a: Machine, b: Machine) {
    && a.kernel.foreign == b.kernel.foreign
    && (forall key: TableKey :: key.fam.IPv6? ==> (key in a.kernel.tables <==> key in b.kernel.tables) && Contents(a.kernel, key) == Contents(b.kernel, key))
    && (forall name :: name !in OwnTables(e.c) ==> (name in a.kernel.nft <==> name in b.kernel.nft))
    && (forall name :: name in a.kernel.nft && name in b.kernel.nft ==> a.kernel.nft[name] == b.kernel.nft[name])
    && (forall entry :: (e.proxies.None? || entry !in e.proxies.value) ==> (entry in a.proxy <==> entry in b.proxy))
  }

  lemma RemovalIsLocal(e: Ending, u: Undo, a: Machine, b: Machine)
    requires Removal(e, u) && Untouched(e, a, b)
    ensures Untouched(e, a, Perform(b, u))
  {
  }

  /** IPv6 tables in particular: no part of the shutdown flushes them, so their routes outlive the
      daemon. */
  lemma ShutdownLeavesTheRest(e: Ending, m: Machine)
    requires Known(e)
    ensures Untouched(e, m, PerformAll(m, Final(e)))
  {
    var same := (s: Machine) => Untouched(e, m, s);
    forall a | a in Final(e)
      ensures Stays(same, a.op)
    {
      FinalRemoves(e, a);
      forall s: Machine | Untouched(e, m, s)
        ensures Untouched(e, m, Perform(s, a.op))
      {
        RemovalIsLocal(e, a.op, m, s);
      }
    }
    PerformKeeps(m, Final(e), same);
  }

  /** A rule stays unless it is a fwmark rule of the settings, or has the priority of a known
      IPv4 gateway's rule. */
  ghost predicate Foreign(e: Ending, fam: Fam, r: Rule) {
    && (forall rule :: rule in RulesFor(e.c, fam) && SpecOfRule(e.c, e.st, rule).Some? ==> r != FwmarkRule(SpecOfRule(e.c, e.st, rule).value))
    && (fam.IPv4? ==> forall k :: k in e.st.gateways && e.st.gateways[k].fam.IPv4? && GatewayTable(e, k).Some? ==>
                        r.prio != GatewayPriority(GatewayTable(e, k).value))
  }

  lemma RemovalSparesRule(e: Ending, u: Undo, m: Machine, fam: Fam, r: Rule)
    requires Removal(e, u) && Foreign(e, fam, r) && r in m.kernel.rules.Of(fam)
    ensures r in Perform(m, u).kernel.rules.Of(fam)
  {
    if u.DropRule? {
      WithoutRuleMembers(m.kernel.rules.Of(u.fam), u.rule, r);
    } else if u.Do? && u.op.RuleDel? {
      DelRuleMembers(m.kernel.rules.Of(u.op.fam), u.op.prio, r);
    }
  }

  lemma ShutdownSparesRules(e: Ending, m: Machine, fam: Fam, r: Rule)
    requires Known(e) && Foreign(e, fam, r) && r in m.kernel.rules.Of(fam)
    ensures r in PerformAll(m, Final(e)).kernel.rules.Of(fam)
  {
    var there := (s: Machine) => r in s.kernel.rules.Of(fam);
    forall a | a in Final(e)
      ensures Stays(there, a.op)
    {
      FinalRemoves(e, a);
      forall s: Machine | r in s.kernel.rules.Of(fam)
        ensures r in Perform(s, a.op).kernel.rules.Of(fam)
      {
        RemovalSparesRule(e, a.op, s, fam, r);
      }
    }
    PerformKeeps(m, Final(e), there);
  }
}
