/** How many passes it takes: one for everything but stale IPv6 tables, and one for each fwmark
    rule into one of those. */
module Settling {
  import opened Common
  import opened Tokens
  import opened Gateways
  import opened Numbers
  import opened Command
  import opened Desired
  import opened InventoryFacts
  import opened Kernel
  import opened Plan
  import opened PlanFacts
  import opened Converge
  import opened ConvergeTables
  import opened Convergence
  import opened Shadows
  import opened ClosedLoop

  // ----- the fwmark rules into a stale table ----------------------------------------------------

  ghost function StaleInto(p: Pass, k: Kernel, ifIndex: nat): set<Rule> {
    set r | r in k.rules.v6 && StaleRule6(p, r) && IfOf(p.c.rt, r) == ifIndex
  }

  lemma AddedIsNotStale(p: Pass, acts: Batch, r: Rule)
    requires Runs(p, acts) && FewMarks(p.c, p.inv) && Added(acts, IPv6, r)
    ensures !StaleRule6(p, r)
  {
    var f := AddedByMark(p, acts, r);
    assert MarkIsBuilt(p.c, p.inv, f);
    WantedRule6(p, f);
  }

  /** What is reaped of a stale table is the rule it was found by. */
  lemma ReapedIsFound(p: Pass, k: Kernel, acts: Batch, r: Rule, e: InstalledFwmark)
    requires Pass6(p, k, acts) && r in k.rules.v6 && StaleRule6(p, r) && e in Listed6(p) && e.ifIndex == IfOf(p.c.rt, r)
    ensures Reaped(acts, IPv6, r) <==> r.prio == e.prio
  {
    if r.prio == e.prio {
      Stale6Plans(p.c.rt, p.inv, Listed6(p), e);
      assert Act(Teardown(FWMARK_RULE), RuleDel(IPv6, r.prio)) in acts;
    }
    if a :| a in acts && a.op == RuleDel(IPv6, r.prio) {
      assert RuleDelAllowed(p, a.order, IPv6, r.prio) by {
        assert Allowed(p, a);
      }
      var d :| StaleMark(p, d) && r.prio == d.prio;
      EntryOfRule(p, k, r, d);
      OneEntryPerTable(p.c.rt, RuleLines(k.rules.v6), d, e);
    }
  }

  lemma EntryOfRule(p: Pass, k: Kernel, r: Rule, d: InstalledFwmark)
    requires p.inst.rules.v6 == Some(RuleLines(k.rules.v6)) && Priorities(k.rules.v6) && r in k.rules.v6 && StaleRule6(p, r)
    requires d in Listed6(p) && d.prio == r.prio
    ensures d.ifIndex == IfOf(p.c.rt, r)
  {
    FwmarksInAre(p.c.rt, RuleLines(k.rules.v6), d);
    var l :| l in RuleLines(k.rules.v6) && FwmarkIn(p.c.rt, l) == Some(d);
    LineMembers(k.rules.v6, l);
    var s :| s in k.rules.v6 && l == RuleLine(s);
    RuleLinePriority(s);
    SamePriority(k.rules.v6, r, s);
  }

  lemma StaleLeft(p: Pass, k: Kernel, acts: Batch, r: Rule)
    requires Pass6(p, k, acts) && StaleRule6(p, r)
    ensures r in Run(k, acts).rules.v6 <==> r in k.rules.v6 && !Reaped(acts, IPv6, r)
  {
    RulesLeft(p, k, acts, IPv6, r);
    if Added(acts, IPv6, r) {
      AddedIsNotStale(p, acts, r);
    }
  }

  lemma OnlyFoundIsReaped(p: Pass, k: Kernel, acts: Batch, ifIndex: nat) returns (s: Rule)
    requires Pass6(p, k, acts) && StaleInto(p, k, ifIndex) != {}
    ensures s in StaleInto(p, k, ifIndex)
    ensures forall x :: x in StaleInto(p, k, ifIndex) ==> (Reaped(acts, IPv6, x) <==> x == s)
  {
    var r :| r in StaleInto(p, k, ifIndex);
    var e;
    e, s := FoundBy(p, k, r);
    forall x | x in StaleInto(p, k, ifIndex)
      ensures Reaped(acts, IPv6, x) <==> x == s
    {
      ReapedIsFound(p, k, acts, x, e);
      if x.prio == s.prio {
        SamePriority(k.rules.v6, x, s);
      }
    }
  }

  /** A pass takes exactly one rule from every stale table that has some. */
  lemma OneRuleGoes(p: Pass, k: Kernel, acts: Batch, ifIndex: nat)
    requires Pass6(p, k, acts)
    ensures var before, after := StaleInto(p, k, ifIndex), StaleInto(p, Run(k, acts), ifIndex);
            if before == {} then after == {} else exists s :: s in before && after == before - {s}
  {
    var before, after := StaleInto(p, k, ifIndex), StaleInto(p, Run(k, acts), ifIndex);
    forall r
      ensures r in after <==> r in before && !Reaped(acts, IPv6, r)
    {
      if StaleRule6(p, r) {
        StaleLeft(p, k, acts, r);
      }
    }
    if before != {} {
      var s := OnlyFoundIsReaped(p, k, acts, ifIndex);
      assert after == before - {s};
    }
  }

  ghost function Left(n: nat, passes: nat): nat {
    if n <= passes then 0 else n - passes
  }

  lemma OneLess(p: Pass, k: Kernel, acts: Batch, ifIndex: nat)
    requires Pass6(p, k, acts)
    ensures |StaleInto(p, Run(k, acts), ifIndex)| == Left(|StaleInto(p, k, ifIndex)|, 1)
  {
    OneRuleGoes(p, k, acts, ifIndex);
    var before := StaleInto(p, k, ifIndex);
    if before != {} {
      var s :| s in before && StaleInto(p, Run(k, acts), ifIndex) == before - {s};
    }
  }

  /** Nothing is left to reap exactly when no stale table has a rule. */
  lemma ReapedExactly(p: Pass, k: Kernel)
    requires Priorities(k.rules.v6)
    ensures Reaped6(p.c, p.inv, k) <==> forall i :: StaleInto(p, k, i) == {}
  {
    if r :| r in k.rules.v6 && StaleRule6(p, r) {
      assert r in StaleInto(p, k, IfOf(p.c.rt, r));
      LeftoverIsFound(p, k, r);
    } else {
      var lines := RuleLines(k.rules.v6);
      var found := FwmarksIn(p.c.rt, lines);
      forall e | e in found
        ensures TableId(IPv6, e.ifIndex) in p.inv.tables
      {
        FwmarksInAre(p.c.rt, lines, e);
        var l :| l in lines && FwmarkIn(p.c.rt, l) == Some(e);
        LineMembers(k.rules.v6, l);
        var r :| r in k.rules.v6 && l == RuleLine(r);
        assert !StaleRule6(p, r);
      }
      Stale6Quiet(p.c.rt, p.inv, found);
    }
  }

  // ----- priorities stay unique ---------------------------------------------------------------------

  lemma {:induction false} AddRuleDistinct(rules: seq<Rule>, r: Rule)
    requires Distinct(rules) && r !in rules
    ensures Distinct(AddRule(rules, r))
  {
    if rules != [] {
      var n := |rules| - 1;
      if rules[n].prio > r.prio {
        AddRuleDistinct(rules[..n], r);
        var more := AddRule(rules[..n], r);
        forall i | 0 <= i < |more|
          ensures more[i] != rules[n]
        {
          AddRuleMembers(rules[..n], r, more[i]);
        }
      }
    }
  }

  lemma {:induction false} DelRuleDistinct(rules: seq<Rule>, prio: int)
    requires Distinct(rules)
    ensures Distinct(DelRule(rules, prio))
  {
    if rules != [] && rules[0].prio != prio {
      DelRuleDistinct(rules[1..], prio);
      var rest := DelRule(rules[1..], prio);
      forall i | 0 <= i < |rest|
        ensures rest[i] != rules[0]
      {
        DelRuleMembers(rules[1..], prio, rest[i]);
      }
    }
  }

  lemma DistinctAfter(k: Kernel, acts: Batch, fam: Fam)
    requires Distinct(k.rules.Of(fam))
    ensures Distinct(Run(k, acts).rules.Of(fam))
  {
    var once := (s: Kernel) => Distinct(s.rules.Of(fam));
    forall a | a in acts
      ensures Keeps(once, a.op)
    {
      forall s: Kernel | Distinct(s.rules.Of(fam))
        ensures Distinct(Apply(s, a.op).rules.Of(fam))
      {
        if a.op.RuleAdd? && a.op.rule !in s.rules.Of(a.op.fam) {
          if a.op.fam == fam {
            AddRuleDistinct(s.rules.Of(fam), a.op.rule);
          }
        } else if a.op.RuleDel? {
          if a.op.fam == fam {
            DelRuleDistinct(s.rules.Of(fam), a.op.prio);
          }
        }
      }
    }
    RunKeeps(k, acts, once);
  }

  /** What the pass adds has the priority of no other rule that it leaves. */
  ghost predicate PrioritiesAreFree(k: Kernel, acts: Batch) {
    forall r, s :: r in k.rules.v6 && !Reaped(acts, IPv6, r) && Added(acts, IPv6, s) && r.prio == s.prio ==> r == s
  }

  /** Two wanted IPv6 fwmark rules of one priority are one. */
  ghost predicate OnePerPriority(inv: Inventory) {
    forall f, g :: f in inv.fwmarks6 && g in inv.fwmarks6 && f.prio == g.prio ==> f == g
  }

  lemma MarksDoNotCollide(c: Settings, st: State, inv: Inventory)
    requires Computed(c, st, inv)
    ensures OnePerPriority(inv)
  {
    forall f | f in inv.fwmarks6
      ensures SteersToGateway(c, st, f)
    {
      Fwmark6SelectsBuiltTable(c, st, inv, f);
    }
    PriorityTellsTheMark(c, st, inv);
  }

  lemma PriorityTellsTheMark(c: Settings, st: State, inv: Inventory)
    requires forall f :: f in inv.fwmarks6 ==> SteersToGateway(c, st, f)
    ensures OnePerPriority(inv)
  {
  }

  lemma PrioritiesAfter(p: Pass, k: Kernel, acts: Batch)
    requires Runs(p, acts) && FewMarks(p.c, p.inv) && OnePerPriority(p.inv)
    requires Priorities(k.rules.v6) && PrioritiesAreFree(k, acts)
    ensures Priorities(Run(k, acts).rules.v6)
  {
    var after := Run(k, acts).rules.v6;
    DistinctAfter(k, acts, IPv6);
    forall r | r in after
      ensures r.prio < INT64_LIMIT
    {
      RulesLeft(p, k, acts, IPv6, r);
      if Added(acts, IPv6, r) {
        var f := AddedByMark(p, acts, r);
        assert MarkIsBuilt(p.c, p.inv, f);
      }
    }
    forall i, j | 0 <= i < j < |after|
      ensures after[i].prio != after[j].prio
    {
      if after[i].prio == after[j].prio {
        LeftAreOne(p, k, acts, after[i], after[j]);
      }
    }
  }

  lemma LeftAreOne(p: Pass, k: Kernel, acts: Batch, r: Rule, s: Rule)
    requires Runs(p, acts) && OnePerPriority(p.inv) && Priorities(k.rules.v6) && PrioritiesAreFree(k, acts)
    requires r in Run(k, acts).rules.v6 && s in Run(k, acts).rules.v6 && r.prio == s.prio
    ensures r == s
  {
    RulesLeft(p, k, acts, IPv6, r);
    RulesLeft(p, k, acts, IPv6, s);
    if Added(acts, IPv6, r) && Added(acts, IPv6, s) {
      var f := AddedByMark(p, acts, r);
      var g := AddedByMark(p, acts, s);
    } else if !Added(acts, IPv6, r) && !Added(acts, IPv6, s) {
      SamePriority(k.rules.v6, r, s);
    }
  }

  // ----- evidence of wanted marks that is never reaped -------------------------------------------------

  ghost predicate FreshMarks(p: Pass, k: Kernel) {
    forall f :: f in p.inv.fwmarks6 ==> FreshEvidence(p, k, IPv6, ["fwmark", Hex(f.mark, 0)], f.table)
  }

  lemma FreshStays(p: Pass, k: Kernel, acts: Batch, selector: Fields, table: nat)
    requires Runs(p, acts) && ReadsRules(p, k, IPv6) && |selector| == 2 && FreshEvidence(p, k, IPv6, selector, table)
    ensures FreshEvidence(p, Run(k, acts), IPv6, selector, table)
  {
    var r :| r in k.rules.v6 && Evidence(RuleLine(r), selector, table) && !StaleRule(p, IPv6, r);
    if a :| a in acts && a.op == RuleDel(IPv6, r.prio) {
      DeletedIsStale(p, k, acts, IPv6, a, r);
    }
    RulesLeft(p, k, acts, IPv6, r);
  }

  lemma FreshMarksStay(p: Pass, k: Kernel, acts: Batch)
    requires Runs(p, acts) && ReadsRules(p, k, IPv6) && FreshMarks(p, k)
    ensures FreshMarks(p, Run(k, acts))
  {
    forall f | f in p.inv.fwmarks6
      ensures FreshEvidence(p, Run(k, acts), IPv6, ["fwmark", Hex(f.mark, 0)], f.table)
    {
      FreshStays(p, k, acts, ["fwmark", Hex(f.mark, 0)], f.table);
    }
  }

  lemma MarkIsFresh(p: Pass, k: Kernel, f: FwmarkSpec)
    requires Shaped(p) && FewMarks(p.c, p.inv) && ReadsRules(p, k, IPv6) && f in p.inv.fwmarks6
    requires Unshadowed(p, k, IPv6, ["fwmark", Hex(f.mark, 0)], f.table)
    ensures FreshEvidence(p, After(p, k), IPv6, ["fwmark", Hex(f.mark, 0)], f.table)
  {
    ExecutedRuns(p);
    var selector := ["fwmark", Hex(f.mark, 0)];
    if FwmarksInSync(p.inv.fwmarks6, p.inst.rules.v6) {
      assert p.inv.fwmarks6[IndexOf(p.inv.fwmarks6, f)] == f;
      FreshStays(p, k, Executed(p), selector, f.table);
    } else {
      Parts(p);
      PlannedParts(p, Fwmarks(IPv6, p.inv.fwmarks6, p.inst));
      MissingMarkIsAdded(p, Executed(p), IPv6, f);
      AddedIsNotStale(p, Executed(p), FwmarkRule(f));
      RulesLeft(p, k, Executed(p), IPv6, FwmarkRule(f));
      FwmarkRuleIsEvidence(f);
    }
  }

  lemma MarksAreFresh(p: Pass, k: Kernel)
    requires Shaped(p) && FewMarks(p.c, p.inv) && ReadsRules(p, k, IPv6) && NoShadows(p, k)
    ensures FreshMarks(p, After(p, k))
  {
    forall f | f in p.inv.fwmarks6
      ensures FreshEvidence(p, After(p, k), IPv6, ["fwmark", Hex(f.mark, 0)], f.table)
    {
      MarkIsFresh(p, k, f);
    }
  }

  // ----- a pass with only stale IPv6 tables to reap ---------------------------------------------------

  /** Deletes IPv6 rules and flushes tables that are not wanted. */
  predicate Reaps6(p: Pass, op: Op) {
    || (op.RuleDel? && op.fam.IPv6?)
    || (op.Flush? && op.fam.IPv6? && p.c.rt.offset <= op.table && TableId(IPv6, op.table - p.c.rt.offset) !in p.inv.tables)
  }

  lemma StaleFwmarkReaps(p: Pass, e: InstalledFwmark, x: Act<Op>)
    requires x in StaleFwmark(p.c.rt, e) && TableId(IPv6, e.ifIndex) !in p.inv.tables
    ensures Reaps6(p, x.op)
  {
    var table := p.c.rt.offset + e.ifIndex;
    assert TeardownTable(p.c.rt, IPv6, e.ifIndex) == [] || TeardownTable(p.c.rt, IPv6, e.ifIndex) == [Act(Teardown(TABLE_ROUTES), Flush(IPv6, table))];
  }

  lemma StaleReaps(q: Pass, r: Resource, x: Act<Op>)
    requires r in Stale6(q.c.rt, q.inv, false, Listed6(q)) && x in ActsOf(r)
    ensures Reaps6(q, x.op)
  {
    Stale6Are(q.c.rt, q.inv, Listed6(q), r);
    var e :| e in Listed6(q) && TableId(IPv6, e.ifIndex) !in q.inv.tables && r == StaleResource(StaleFwmark(q.c.rt, e), false);
    StaleFwmarkReaps(q, e, x);
  }

  lemma OnlyReaps(q: Pass, x: Act<Op>)
    requires Shaped(q) && OnlyStale6(q) && !q.st.linksStale && x in Executed(q)
    ensures Reaps6(q, x.op)
  {
    SortedMembers(BatchOf(q), x);
    PlanMembers(ResourcesOf(q), x);
    var r :| r in ResourcesOf(q) && x in ActsOf(r);
    StaleReaps(q, r, x);
  }

  ghost predicate OnlyStale6(q: Pass)
    requires Shaped(q)
  {
    forall r :: r in ResourcesOf(q) && ActsOf(r) != [] ==> r in Stale6(q.c.rt, q.inv, q.st.linksStale, Listed6(q))
  }

  lemma RestIsQuiet(q: Pass, t: Tools, k: Kernel)
    requires Shaped(q) && !q.st.linksStale && q.inst == ReadBack(q, t, k) && InPlace(q.c, q.st, q.inv, t, k)
    ensures OnlyStale6(q)
  {
    QuietPlan(Stale4(q.c.rt, q.inv, q.st.linksStale, Listed4(q)));
    TablesQuiet(q, t, k);
    MangleQuiet(q, t, k);
    LastIsQuiet(q, t, k);
  }

  /** All that the parts look at, but the IPv6 rules. */
  ghost predicate SameButRules6(p: Pass, a: Kernel, b: Kernel) {
    && a.foreign == b.foreign && a.own == b.own && a.rules.v4 == b.rules.v4 && a.nft == b.nft && a.ipt == b.ipt
    && forall id :: id in p.inv.tables ==> ReadContents(p.c, a, id) == ReadContents(p.c, b, id)
  }

  lemma ReapingIsLocal(p: Pass, k: Kernel, acts: Batch)
    requires forall a :: a in acts ==> Reaps6(p, a.op)
    ensures SameButRules6(p, k, Run(k, acts))
  {
    var same := (s: Kernel) => SameButRules6(p, k, s);
    forall a | a in acts
      ensures Keeps(same, a.op)
    {
      forall s: Kernel | SameButRules6(p, k, s)
        ensures SameButRules6(p, k, Apply(s, a.op))
      {
        ReapIsLocal(p, k, s, a.op);
      }
    }
    RunKeeps(k, acts, same);
  }

  lemma ReapIsLocal(p: Pass, k: Kernel, s: Kernel, op: Op)
    requires SameButRules6(p, k, s) && Reaps6(p, op)
    ensures SameButRules6(p, k, Apply(s, op))
  {
    if op.Flush? {
      forall id | id in p.inv.tables
        ensures ReadContents(p.c, Apply(s, op), id) == ReadContents(p.c, s, id)
      {
        assert TableKey(id.fam, p.c.rt.offset + id.ifIndex) != TableKey(op.fam, op.table);
      }
    }
  }

  lemma FreshMarksAreInSync(p: Pass, k: Kernel)
    requires FreshMarks(p, k)
    ensures FwmarksInSync(p.inv.fwmarks6, Some(RuleLines(k.rules.v6)))
  {
    var specs := p.inv.fwmarks6;
    forall i | 0 <= i < |specs|
      ensures Selects(RuleLines(k.rules.v6), ["fwmark", Hex(specs[i].mark, 0)], specs[i].table)
    {
      assert specs[i] in specs;
      EvidenceIn(k.rules.v6, ["fwmark", Hex(specs[i].mark, 0)], specs[i].table);
    }
  }

  lemma RulesStill(p: Pass, a: Kernel, b: Kernel)
    requires a.rules.v4 == b.rules.v4 && RulesInPlace(p.c, p.inv, a) && FreshMarks(p, b)
    ensures RulesInPlace(p.c, p.inv, b)
  {
    FreshMarksAreInSync(p, b);
  }

  lemma TablesStill(p: Pass, a: Kernel, b: Kernel)
    requires SameButRules6(p, a, b) && TablesInPlace(p.c, p.st, p.inv, a) && GoodTables(p.c, p.inv)
    ensures TablesInPlace(p.c, p.st, p.inv, b)
  {
    forall id | id in p.inv.tables
      ensures TableInSync(p.inv.tables[id], Some(RuleLines(b.rules.Of(id.fam))), ReadContents(p.c, b, id))
    {
      assert TableInSync(p.inv.tables[id], Some(RuleLines(a.rules.Of(id.fam))), ReadContents(p.c, a, id));
    }
  }

  lemma RoutesStill(p: Pass, t: Tools, a: Kernel, b: Kernel)
    requires a.own == b.own && RoutesInPlace(p.c, p.inv, t, a)
    ensures RoutesInPlace(p.c, p.inv, t, b)
  {
    forall fam
      ensures OwnListing(a, fam, t.w.Of(fam)) == OwnListing(b, fam, t.w.Of(fam))
    {
    }
  }

  lemma NftStill(p: Pass, a: Kernel, b: Kernel)
    requires a.nft == b.nft && a.ipt == b.ipt && MarksInPlace(p.c, p.inv, a) && TranslationInPlace(p.c, p.inv, a)
    ensures MarksInPlace(p.c, p.inv, b) && TranslationInPlace(p.c, p.inv, b)
  {
  }

  lemma StillInPlace(p: Pass, t: Tools, k: Kernel, next: Kernel)
    requires InPlace(p.c, p.st, p.inv, t, k) && SameButRules6(p, k, next) && FreshMarks(p, next) && GoodTables(p.c, p.inv)
    ensures InPlace(p.c, p.st, p.inv, t, next)
  {
    RulesStill(p, k, next);
    TablesStill(p, k, next);
    RoutesStill(p, t, k, next);
    NftStill(p, k, next);
  }

  // ----- any number of passes -----------------------------------------------------------------------------

  /** What holds after the first pass: only stale IPv6 tables are left to deal with. */
  ghost predicate Settled(p: Pass, t: Tools, k: Kernel) {
    && InPlace(p.c, p.st, p.inv, t, k) && Priorities(k.rules.v6) && FreshMarks(p, k)
  }

  ghost predicate Readable(p: Pass) {
    !p.st.linksStale && FewMarks(p.c, p.inv) && OnePerPriority(p.inv)
  }

  lemma OneLessEach(p: Pass, k: Kernel)
    requires Shaped(p) && Pass6(p, k, Executed(p))
    ensures forall i :: |StaleInto(p, After(p, k), i)| == Left(|StaleInto(p, k, i)|, 1)
  {
    forall i
      ensures |StaleInto(p, After(p, k), i)| == Left(|StaleInto(p, k, i)|, 1)
    {
      OneLess(p, k, Executed(p), i);
    }
  }

  /** The IPv6 rules after a pass. */
  lemma Rules6After(p: Pass, k: Kernel)
    requires Shaped(p) && Readable(p) && ReadsRules(p, k, IPv6) && NoShadows(p, k) && PrioritiesAreFree(k, Executed(p))
    ensures Priorities(After(p, k).rules.v6) && FreshMarks(p, After(p, k))
    ensures forall i :: |StaleInto(p, After(p, k), i)| == Left(|StaleInto(p, k, i)|, 1)
  {
    ExecutedRuns(p);
    PrioritiesAfter(p, k, Executed(p));
    MarksAreFresh(p, k);
    IsPass6(p, k);
    OneLessEach(p, k);
  }

  lemma NextPassSettles(q: Pass, t: Tools, k: Kernel)
    requires Shaped(q) && Readable(q)
    requires q.inst == ReadBack(q, t, k) && Settled(q, t, k)
    ensures Settled(q, t, After(q, k))
    ensures forall i :: |StaleInto(q, After(q, k), i)| == Left(|StaleInto(q, k, i)|, 1)
  {
    ExecutedRuns(q);
    RestIsQuiet(q, t, k);
    forall a | a in Executed(q)
      ensures Reaps6(q, a.op)
    {
      OnlyReaps(q, a);
    }
    ReapingIsLocal(q, k, Executed(q));
    FreshMarksStay(q, k, Executed(q));
    StillInPlace(q, t, k, After(q, k));
    PrioritiesAfter(q, k, Executed(q));
    IsPass6(q, k);
    OneLessEach(q, k);
  }

  /** A pass over a settled kernel is empty exactly when no stale table has a rule left. */
  lemma QuietExactly(q: Pass, t: Tools, k: Kernel)
    requires Shaped(q) && !q.st.linksStale && q.inst == ReadBack(q, t, k) && Settled(q, t, k)
    ensures BatchOf(q) == [] <==> forall i :: StaleInto(q, k, i) == {}
  {
    ReapedExactly(q, k);
    if Reaped6(q.c, q.inv, k) {
      InPlaceIsQuiet(q, t, k);
    } else {
      Parts(q);
      var rs := Stale6(q.c.rt, q.inv, q.st.linksStale, Listed6(q));
      var x := PlanOf(rs)[0];
      PlanMembers(rs, x);
      PlanMembers(ResourcesOf(q), x);
    }
  }

  /** The kernel is settled, with fewer rules in every stale table than another by so many passes. */
  ghost predicate SettledSince(p: Pass, t: Tools, first: Kernel, passes: nat, k: Kernel) {
    && Settled(p, t, k)
    && forall j :: |StaleInto(p, k, j)| == Left(|StaleInto(p, first, j)|, passes)
  }

  lemma OneMorePass(p: Pass, q: Pass, t: Tools, first: Kernel, passes: nat, k: Kernel)
    requires Readable(p) && q.c == p.c && q.st == p.st && q.inv == p.inv && Shaped(q) && q.inst == ReadBack(q, t, k)
    requires SettledSince(p, t, first, passes, k)
    ensures SettledSince(p, t, first, passes + 1, After(q, k))
  {
    SettledAlike(p, q, t, k);
    NextPassSettles(q, t, k);
    SettledAlike(p, q, t, After(q, k));
    forall j
      ensures |StaleInto(p, After(q, k), j)| == Left(|StaleInto(p, first, j)|, passes + 1)
    {
      assert |StaleInto(q, After(q, k), j)| == Left(|StaleInto(q, k, j)|, 1);
    }
  }

  lemma ComputedIsReadable(p: Pass)
    requires Computed(p.c, p.st, p.inv) && !p.st.linksStale && |p.c.fw.gateways| <= 500
    ensures Readable(p)
  {
    MarksAreBuilt(p.c, p.st, p.inv);
    MarksDoNotCollide(p.c, p.st, p.inv);
  }

  lemma FirstIsInPlace(p: Pass, t: Tools, k: Kernel)
    requires TamePass(p, t, k) && LinksMatch(p.st) && !NameClash(p.c, p.inv) && NoShadows(p, k)
    ensures InPlace(p.c, p.st, p.inv, t, After(p, k))
  {
    NoShadowsNothingLost(p, t, k);
    PassPutsInPlace(p, t, k);
  }

  /** The first pass deals with everything but stale IPv6 tables. */
  lemma FirstSettles(p: Pass, t: Tools, k: Kernel)
    requires TamePass(p, t, k) && LinksMatch(p.st) && !NameClash(p.c, p.inv) && NoShadows(p, k)
    requires PrioritiesAreFree(k, Executed(p))
    ensures Readable(p) && SettledSince(p, t, k, 1, After(p, k))
  {
    ComputedIsReadable(p);
    FirstIsInPlace(p, t, k);
    Rules6After(p, k);
  }

  lemma SettledAlike(p: Pass, q: Pass, t: Tools, k: Kernel)
    requires q.c == p.c && q.st == p.st && q.inv == p.inv
    ensures Settled(p, t, k) <==> Settled(q, t, k)
    ensures forall i :: StaleInto(p, k, i) == StaleInto(q, k, i)
  {
    forall fam, r
      ensures StaleRule(p, fam, r) == StaleRule(q, fam, r)
    {
    }
  }

  lemma EmptyExactly(p: Pass, t: Tools, first: Kernel, passes: nat, k: Kernel)
    requires SettledSince(p, t, first, passes, k)
    ensures (forall j :: StaleInto(p, k, j) == {}) <==> forall j :: |StaleInto(p, first, j)| <= passes
  {
    forall j
      ensures StaleInto(p, k, j) == {} <==> |StaleInto(p, first, j)| <= passes
    {
      assert |StaleInto(p, k, j)| == Left(|StaleInto(p, first, j)|, passes);
    }
  }

  // ----- the loop --------------------------------------------------------------------------------------------

  /** A pass, the kernel it reads and runs on, and where the managed route stands in its listings. */
  datatype Round = Round(pass: Pass, kernel: Kernel, at: Both<nat>)

  ghost predicate Taken(x: Round, t: Tools) {
    Sane(x.pass) && Shaped(x.pass) && x.pass.inst == ReadBack(x.pass, t, x.kernel)
  }

  /** The next round, with links, probes and leases as they were, and the gateways read again. */
  ghost predicate Next(x: Round, y: Round, t: Tools) {
    && Shaped(x.pass) && y.kernel == After(x.pass, x.kernel) && y.pass.c == x.pass.c
    && y.pass.st == x.pass.st.(gateways := GatewaysRead(x.pass.st.gateways, x.pass.c.rt.observed, Readings(t, y.at, y.kernel),
                                                        x.pass.c.weights, x.pass.st.ifaces))
  }

  ghost predicate Link(x: Round, y: Round, t: Tools) {
    Taken(x, t) && Taken(y, t) && Next(x, y, t)
  }

  ghost predicate Chain<T(!new)>(run: seq<T>, next: (T, T) -> bool) {
    forall i, j {:trigger next(run[i], run[j])} :: 0 <= i < j < |run| && j == i + 1 ==> next(run[i], run[j])
  }

  /** What holds of the second of a chain, and goes from each to the next, holds of all after. */
  lemma {:induction false} Along<T(!new)>(run: seq<T>, next: (T, T) -> bool, good: (T, nat) -> bool, i: nat)
    requires Chain(run, next) && 1 <= i < |run| && good(run[1], 1)
    requires forall x, y, n: nat :: good(x, n) && next(x, y) ==> good(y, n + 1)
    ensures good(run[i], i)
  {
    if i > 1 {
      Along(run, next, good, i - 1);
      assert next(run[i - 1], run[i]);
    }
  }

  /** The undisturbed loop of the daemon, of more than one round. */
  ghost predicate Loop(run: seq<Round>, t: Tools) {
    |run| > 1 && Chain(run, (x, y) => Link(x, y, t))
  }

  /** The round has the settings, the state and the inventory of the pass. */
  ghost predicate Like(p: Pass, x: Round) {
    x.pass.c == p.c && x.pass.st == p.st && x.pass.inv == p.inv
  }

  ghost predicate Steady(p: Pass, x: Round, t: Tools, from: map<string, Gateway>) {
    && Like(p, x) && SoundOwn(x.kernel, IPv4) && SoundOwn(x.kernel, IPv6)
    && ReadFrom(x.pass, t, x.at, x.kernel, from)
  }

  lemma SteadyNext(p: Pass, x: Round, y: Round, t: Tools, from: map<string, Gateway>)
    requires Next(x, y, t) && SoundRoutes(p.inv) && Sensible(t) && Consistent(x.pass.st.gateways) && Steady(p, x, t, from)
    ensures y.pass.c == p.c && y.pass.st == p.st && SoundOwn(y.kernel, IPv4) && SoundOwn(y.kernel, IPv6)
    ensures ReadFrom(y.pass, t, y.at, y.kernel, x.pass.st.gateways)
  {
    var q, k := x.pass, x.kernel;
    NextGatewaysAreSame(q, t, x.at, y.at, k, from);
    ReadGatewaysMatch(from, q.c.rt.observed, Readings(t, x.at, k), q.c.weights, q.st.ifaces);
    OwnAfterPass(q, k, IPv4);
    OwnAfterPass(q, k, IPv6);
  }

  lemma SameInventory(p: Pass, q: Pass)
    requires Sane(p) && Sane(q) && q.c == p.c && q.st == p.st
    ensures q.inv == p.inv
  {
    InventoryIsUnique(p.c, p.st, q.inv, p.inv);
  }

  lemma SteadyRound(p: Pass, x: Round, y: Round, t: Tools, from: map<string, Gateway>)
    requires Taken(x, t) && Taken(y, t) && Next(x, y, t) && SoundRoutes(p.inv) && Sensible(t) && Steady(p, x, t, from)
    ensures Steady(p, y, t, x.pass.st.gateways)
  {
    SteadyNext(p, x, y, t, from);
    SameInventory(x.pass, y.pass);
  }

  /** What the first round is to meet besides a tame kernel: no clash, no shadows, and free
      priorities for what it adds. */
  ghost predicate Unobstructed(x: Round)
    requires Shaped(x.pass)
  {
    && !NameClash(x.pass.c, x.pass.inv) && NoShadows(x.pass, x.kernel)
    && PrioritiesAreFree(x.kernel, Executed(x.pass))
  }

  /** The round is one of an undisturbed loop that began with the pass's settings and state. */
  ghost predicate InLoop(p: Pass, x: Round, t: Tools) {
    Taken(x, t) && exists from :: Steady(p, x, t, from)
  }

  /** The settled kernel after so many rounds, the gateways still as they were read. */
  ghost predicate GoesOn(p: Pass, t: Tools, first: Kernel, x: Round, rounds: nat) {
    InLoop(p, x, t) && SettledSince(p, t, first, rounds, x.kernel)
  }

  ghost predicate Sound(p: Pass, t: Tools) {
    Readable(p) && SoundRoutes(p.inv) && Sensible(t)
  }

  lemma FirstRound(x: Round, y: Round, t: Tools, before: map<string, Gateway>)
    requires TamePass(x.pass, t, x.kernel) && Unobstructed(x) && Steady(x.pass, x, t, before) && Link(x, y, t)
    ensures Sound(x.pass, t) && GoesOn(x.pass, t, x.kernel, y, 1)
  {
    RoutesAreSound(x.pass);
    LinksDoMatch(x.pass, t, x.at, x.kernel, before);
    FirstSettles(x.pass, t, x.kernel);
    SteadyRound(x.pass, x, y, t, before);
  }

  lemma NextRound(p: Pass, x: Round, y: Round, t: Tools, first: Kernel, rounds: nat)
    requires Sound(p, t) && GoesOn(p, t, first, x, rounds) && Link(x, y, t)
    ensures GoesOn(p, t, first, y, rounds + 1)
  {
    var from :| Steady(p, x, t, from);
    SteadyRound(p, x, y, t, from);
    OneMorePass(p, x.pass, t, first, rounds, x.kernel);
  }

  lemma QuietRound(p: Pass, x: Round, t: Tools, first: Kernel, rounds: nat)
    requires Readable(p) && GoesOn(p, t, first, x, rounds)
    ensures Taken(x, t) && Like(p, x)
    ensures BatchOf(x.pass) == [] <==> forall j :: |StaleInto(p, first, j)| <= rounds
  {
    SettledAlike(p, x.pass, t, x.kernel);
    QuietExactly(x.pass, t, x.kernel);
    EmptyExactly(p, t, first, rounds, x.kernel);
  }

  /** Every round after the first meets a settled kernel, with one rule less in every stale table
      for each round before it. */
  lemma LoopGoesOn(p: Pass, run: seq<Round>, t: Tools, first: Kernel, i: nat)
    requires Loop(run, t) && Sound(p, t) && GoesOn(p, t, first, run[1], 1) && 1 <= i < |run|
    ensures GoesOn(p, t, first, run[i], i)
  {
    var good := (x: Round, n: nat) => GoesOn(p, t, first, x, n);
    forall x, y, n: nat | GoesOn(p, t, first, x, n) && Link(x, y, t)
      ensures GoesOn(p, t, first, y, n + 1)
    {
      NextRound(p, x, y, t, first, n);
    }
    Along(run, (x: Round, y: Round) => Link(x, y, t), good, i);
  }

  /** How many passes it takes. Without a name clash and without shadows, round i of the loop,
      counted from 0, arrives at the same gateways and inventory as the first, and plans nothing if
      and only if at the start no stale IPv6 table was selected by more than i fwmark rules. */
  lemma LoopSettlesInPasses(run: seq<Round>, t: Tools, before: map<string, Gateway>, i: nat)
    requires Loop(run, t) && TamePass(run[0].pass, t, run[0].kernel) && Steady(run[0].pass, run[0], t, before)
    requires Unobstructed(run[0]) && 1 <= i < |run|
    ensures Taken(run[i], t) && Like(run[0].pass, run[i])
    ensures BatchOf(run[i].pass) == [] <==> forall j :: |StaleInto(run[0].pass, run[0].kernel, j)| <= i
  {
    var x, y := run[0], run[1];
    var next := (x: Round, y: Round) => Link(x, y, t);
    assert next(run[0], run[1]);
    FirstRound(x, y, t, before);
    LoopGoesOn(x.pass, run, t, x.kernel, i);
    QuietRound(x.pass, run[i], t, x.kernel, i);
  }

  // ----- the loop comes to rest ------------------------------------------------------------------------------

  /** The round after, with nothing changed but what is read. */
  ghost function Following(x: Round, t: Tools): Round {
    if Shaped(x.pass) then Round(x.pass.(inst := ReadBack(x.pass, t, After(x.pass, x.kernel))), After(x.pass, x.kernel), x.at) else x
  }

  /** Every round of a loop has a next one. */
  lemma FollowingIsNext(p: Pass, x: Round, t: Tools)
    requires InLoop(p, x, t) && SoundRoutes(p.inv) && Sensible(t)
    ensures Link(x, Following(x, t), t) && InLoop(p, Following(x, t), t)
  {
    var from :| Steady(p, x, t, from);
    NextGatewaysAreSame(x.pass, t, x.at, x.at, x.kernel, from);
    SaneIsShaped(Following(x, t).pass);
    SteadyRound(p, x, Following(x, t), t, from);
  }

  lemma FewInto(p: Pass, k: Kernel, ifIndex: nat)
    ensures |StaleInto(p, k, ifIndex)| <= |k.rules.v6|
  {
    RangeIsSmall(k.rules.v6);
    SubsetIsSmall(StaleInto(p, k, ifIndex), Range(k.rules.v6));
  }

  lemma {:induction false} RangeIsSmall<T>(s: seq<T>)
    ensures |Range(s)| <= |s|
  {
    if s != [] {
      var n := |s| - 1;
      RangeIsSmall(s[..n]);
      assert Range(s) == Range(s[..n]) + {s[n]};
    }
  }

  lemma {:induction false} SubsetIsSmall<T>(a: set<T>, b: set<T>)
    requires a <= b
    ensures |a| <= |b|
    decreases |a|
  {
    if x :| x in a {
      SubsetIsSmall(a - {x}, b - {x});
    }
  }

  /** Without a name clash and without shadows the loop comes to rest, after at most as many
      passes as there were IPv6 rules, or one. */
  lemma LoopComesToRest(run: seq<Round>, t: Tools, before: map<string, Gateway>, i: nat)
    requires Loop(run, t) && TamePass(run[0].pass, t, run[0].kernel) && Steady(run[0].pass, run[0], t, before)
    requires Unobstructed(run[0]) && 1 <= i < |run| && |run[0].kernel.rules.v6| <= i
    ensures Taken(run[i], t) && BatchOf(run[i].pass) == []
  {
    LoopSettlesInPasses(run, t, before, i);
    forall j
      ensures |StaleInto(run[0].pass, run[0].kernel, j)| <= i
    {
      FewInto(run[0].pass, run[0].kernel, j);
    }
  }
}
