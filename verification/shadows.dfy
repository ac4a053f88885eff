/** When is a rule's textual evidence about to be reaped? Never, with three-digit tables. */
module Shadows {
  import opened Common
  import opened Tokens
  import opened Numbers
  import opened Command
  import opened Desired
  import opened InventoryFacts
  import opened Kernel
  import opened Plan
  import opened PlanFacts
  import opened Converge
  import opened ConvergeTables
  import opened Convergence

  // ----- evidence that is not stale ---------------------------------------------------------------

  predicate StaleRule(p: Pass, fam: Fam, r: Rule) {
    if fam.IPv4? then StaleLine4(p, RuleLine(r)) else StaleRule6(p, r)
  }

  /** If there is evidence for the selector and table, some of it is not about to be reaped. */
  ghost predicate Unshadowed(p: Pass, k: Kernel, fam: Fam, selector: Fields, table: nat)
    requires |selector| == 2
  {
    Selects(RuleLines(k.rules.Of(fam)), selector, table) ==> FreshEvidence(p, k, fam, selector, table)
  }

  ghost predicate FreshEvidence(p: Pass, k: Kernel, fam: Fam, selector: Fields, table: nat)
    requires |selector| == 2
  {
    exists r :: r in k.rules.Of(fam) && Evidence(RuleLine(r), selector, table) && !StaleRule(p, fam, r)
  }

  ghost predicate ReadsRules(p: Pass, k: Kernel, fam: Fam) {
    && p.inst.rules.Of(fam) == Some(RuleLines(k.rules.Of(fam)))
    && Priorities(k.rules.Of(fam))
  }

  lemma DeletedBecauseStale4(p: Pass, k: Kernel, prio: int) returns (r: Rule)
    requires ReadsRules(p, k, IPv4) && RuleDelAllowed(p, Teardown(TABLE_RULE), IPv4, prio)
    ensures r in k.rules.v4 && r.prio == prio && StaleRule(p, IPv4, r)
  {
    var i :| StaleIf(p, i) && TableForIface(p.c.rt, i).Some? && prio == GatewayPriority(p.c.rt.offset + i);
    var lines := RuleLines(k.rules.v4);
    GatewayRuleIfsAre(p.c.rt, lines, i);
    var l :| l in lines && GatewayRuleIf(p.c.rt, l) == Some(i);
    LineMembers(k.rules.v4, l);
    r :| r in k.rules.v4 && l == RuleLine(r);
    RuleLinePriority(r);
  }

  lemma DeletedBecauseStale6(p: Pass, k: Kernel, prio: int) returns (r: Rule)
    requires ReadsRules(p, k, IPv6) && RuleDelAllowed(p, Teardown(FWMARK_RULE), IPv6, prio)
    ensures r in k.rules.v6 && r.prio == prio && StaleRule(p, IPv6, r)
  {
    var e :| StaleMark(p, e) && prio == e.prio;
    var lines := RuleLines(k.rules.v6);
    FwmarksInAre(p.c.rt, lines, e);
    var l :| l in lines && FwmarkIn(p.c.rt, l) == Some(e);
    LineMembers(k.rules.v6, l);
    r :| r in k.rules.v6 && l == RuleLine(r);
    RuleLinePriority(r);
  }

  lemma DeletedIsStale(p: Pass, k: Kernel, acts: Batch, fam: Fam, a: Act<Op>, r: Rule)
    requires Runs(p, acts) && ReadsRules(p, k, fam) && a in acts && a.op.RuleDel? && a.op.fam == fam
    requires r in k.rules.Of(fam) && a.op.prio == r.prio
    ensures StaleRule(p, fam, r)
  {
    assert RuleDelAllowed(p, a.order, fam, a.op.prio) by {
      assert Allowed(p, a);
    }
    var s;
    if fam.IPv4? {
      s := DeletedBecauseStale4(p, k, a.op.prio);
    } else {
      s := DeletedBecauseStale6(p, k, a.op.prio);
    }
    SamePriority(k.rules.Of(fam), r, s);
  }

  lemma SamePriority(rules: seq<Rule>, r: Rule, s: Rule)
    requires UniquePriorities(rules) && r in rules && s in rules && r.prio == s.prio
    ensures r == s
  {
    var i, j := IndexOf(rules, r), IndexOf(rules, s);
  }

  /** Evidence that is not stale is not reaped. */
  lemma FreshEvidenceLasts(p: Pass, k: Kernel, acts: Batch, fam: Fam, selector: Fields, table: nat)
    requires Runs(p, acts) && ReadsRules(p, k, fam) && |selector| == 2 && FreshEvidence(p, k, fam, selector, table)
    ensures LastingEvidence(k, acts, fam, selector, table)
  {
    var r :| r in k.rules.Of(fam) && Evidence(RuleLine(r), selector, table) && !StaleRule(p, fam, r);
    if a :| a in acts && a.op == RuleDel(fam, r.prio) {
      DeletedIsStale(p, k, acts, fam, a, r);
    }
  }

  /** No rule about to be reaped is the textual evidence for a wanted one. */
  ghost predicate NoShadows(p: Pass, k: Kernel) {
    && (forall id :: id in p.inv.tables && id.fam.IPv4? ==>
          Unshadowed(p, k, IPv4, ["from", p.inv.tables[id].src], p.inv.tables[id].table))
    && (forall f :: f in p.inv.fwmarks4 ==> Unshadowed(p, k, IPv4, ["fwmark", Hex(f.mark, 0)], f.table))
    && (forall f :: f in p.inv.fwmarks6 ==> Unshadowed(p, k, IPv6, ["fwmark", Hex(f.mark, 0)], f.table))
  }

  /** Without shadows nothing wanted is lost: what was in place stays so, the rest is added. */
  lemma NoShadowsNothingLost(p: Pass, t: Tools, k: Kernel)
    requires Shaped(p) && p.inst == ReadBack(p, t, k) && Priorities(k.rules.v4) && Priorities(k.rules.v6) && NoShadows(p, k)
    ensures AllEvidenced(p, k)
  {
    forall id | id in p.inv.tables
      ensures TableEvidenced(p, k, id)
    {
      if id.fam.IPv4? {
        TableIsNotLost(p, k, id);
      }
    }
    MarksAreNotLost(p, k, IPv4);
    MarksAreNotLost(p, k, IPv6);
  }

  lemma TableIsNotLost(p: Pass, k: Kernel, id: TableId)
    requires Shaped(p) && ReadsRules(p, k, IPv4) && id in p.inv.tables && id.fam.IPv4?
    requires Unshadowed(p, k, IPv4, ["from", p.inv.tables[id].src], p.inv.tables[id].table)
    ensures TableEvidenced(p, k, id)
  {
    var spec := p.inv.tables[id];
    ExecutedRuns(p);
    if TableInSync(spec, p.inst.rules.Of(IPv4), ContentsOf(p.inst, id)) {
      FreshEvidenceLasts(p, k, Executed(p), IPv4, ["from", spec.src], spec.table);
    } else {
      Parts(p);
      PlannedParts(p, Tables(p.inv, p.inst, p.ids));
      MissingRuleIsAdded(p, Executed(p), id);
    }
  }

  lemma MarksAreNotLost(p: Pass, k: Kernel, fam: Fam)
    requires Shaped(p) && ReadsRules(p, k, fam)
    requires forall f :: f in FwmarksOf(p, fam) ==> Unshadowed(p, k, fam, ["fwmark", Hex(f.mark, 0)], f.table)
    ensures MarksEvidenced(p, k, fam)
  {
    ExecutedRuns(p);
    Parts(p);
    PlannedParts(p, Fwmarks(fam, FwmarksOf(p, fam), p.inst));
    forall f | f in FwmarksOf(p, fam)
      ensures Evidenced(k, Executed(p), fam, ["fwmark", Hex(f.mark, 0)], f.table)
    {
      MarkIsNotLost(p, k, Executed(p), fam, f);
    }
  }

  lemma MarkIsNotLost(p: Pass, k: Kernel, acts: Batch, fam: Fam, f: FwmarkSpec)
    requires Runs(p, acts) && ReadsRules(p, k, fam) && f in FwmarksOf(p, fam)
    requires Unshadowed(p, k, fam, ["fwmark", Hex(f.mark, 0)], f.table)
    requires forall x :: x in PlanOf(Fwmarks(fam, FwmarksOf(p, fam), p.inst)) ==> x in acts
    ensures Evidenced(k, acts, fam, ["fwmark", Hex(f.mark, 0)], f.table)
  {
    var specs := FwmarksOf(p, fam);
    if FwmarksInSync(specs, p.inst.rules.Of(fam)) {
      assert specs[IndexOf(specs, f)] == f;
      FreshEvidenceLasts(p, k, acts, fam, ["fwmark", Hex(f.mark, 0)], f.table);
    } else {
      MissingMarkIsAdded(p, acts, fam, f);
    }
  }

  // ----- two digits --------------------------------------------------------------------------------

  /** Tables of fewer digits are shadowed: a rule into table 52, say, reads as one into table 5
      from the same address. */
  lemma TenfoldShadows(spec: TableSpec, table: nat)
    requires 0 < table && spec.table / 10 == table
    ensures Evidence(RuleLine(TableRule(spec)), ["from", spec.src], table)
  {
    var l := RuleLine(TableRule(spec));
    assert l == [Itoa(spec.prio) + ":", "from", spec.src, "lookup", Itoa(spec.table)];
    assert Itoa(spec.table) == Itoa(table) + [Digit(spec.table % 10)];
    assert WordsAt(l, ["from", spec.src], 1);
    assert WordsAt(l, ["lookup", Itoa(table)], 3);
  }

  // ----- three digits --------------------------------------------------------------------------------

  lemma ThreeDigits(n: nat)
    requires 100 <= n < 1000
    ensures |Itoa(n)| == 3
  {
    assert Itoa(n) == Format(n / 10, 10) + [Digit(n % 10)];
    assert Format(n / 10, 10) == Format(n / 10 / 10, 10) + [Digit(n / 10 % 10)];
    assert n / 10 / 10 < 10;
  }

  lemma PrefixOfThree(a: nat, b: nat)
    requires 100 <= a < 1000 && 100 <= b < 1000 && HasPrefix(Itoa(a), Itoa(b))
    ensures a == b
  {
    ThreeDigits(a);
    ThreeDigits(b);
    FormatReadsBack(a, 10);
    FormatReadsBack(b, 10);
    assert Itoa(a)[..3] == Itoa(a);
  }

  /** A rule as the daemon writes it: a selector without the word, then its table. */
  predicate Written(r: Rule, selector: Fields, table: nat) {
    && r.rest == selector + ["lookup", Itoa(table)]
    && forall i :: 0 <= i < |selector| ==> !HasSuffix(selector[i], "lookup")
  }

  lemma WrittenTable(r: Rule, selector: Fields, table: nat, other: nat)
    requires Written(r, selector, table) && 100 <= table < 1000 && 100 <= other < 1000
    requires ContainsWords(RuleLine(r), ["lookup", Itoa(other)])
    ensures table == other
  {
    var l, n := RuleLine(r), |selector|;
    assert l[0][|l[0]| - 1] == ':' && !HasSuffix(l[0], "lookup");
    forall i | 1 <= i <= n
      ensures !HasSuffix(l[i], "lookup")
    {
      assert l[i] == selector[i - 1];
    }
    var i :| 0 <= i <= |l| - 2 && WordsAt(l, ["lookup", Itoa(other)], i);
    assert HasSuffix(l[i], "lookup") && HasPrefix(l[i + 1], Itoa(other));
    assert i == n + 1 && l[i + 1] == Itoa(table);
    PrefixOfThree(table, other);
  }

  /** Every rule about to be reaped was written by the daemon, an IPv4 one without a mark. */
  ghost predicate ReapsItsOwn(p: Pass, k: Kernel) {
    && (forall r :: r in k.rules.v4 && StaleRule(p, IPv4, r) ==>
          exists src: string, table: nat :: Written(r, ["from", src], table) && table < INT64_LIMIT && !HasSuffix(src, "fwmark"))
    && (forall r :: r in k.rules.v6 && StaleRule(p, IPv6, r) ==>
          exists mark: string, table: nat :: Written(r, ["from", "all", "fwmark", mark], table) && table < INT64_LIMIT)
  }

  lemma WrittenParses(p: Pass, r: Rule, selector: Fields, table: nat)
    requires Written(r, selector, table) && table < INT64_LIMIT && r.prio < INT64_LIMIT
    ensures ParseLookup(RuleLine(r)).Some? && ParseLookup(RuleLine(r)).value.table == table
  {
    assert r.rest[|selector|..] == ["lookup", Itoa(table)] && r.rest[..|selector|] == selector;
    assert HasSuffix("lookup", "lookup");
    RuleLineParses(r, table);
  }

  /** What is not evidence from anything stale, is lasting evidence. */
  lemma NoStaleEvidence(p: Pass, k: Kernel, fam: Fam, selector: Fields, table: nat)
    requires |selector| == 2
    requires forall r :: r in k.rules.Of(fam) && StaleRule(p, fam, r) ==> !Evidence(RuleLine(r), selector, table)
    ensures Unshadowed(p, k, fam, selector, table)
  {
    EvidenceIn(k.rules.Of(fam), selector, table);
  }

  /** The table of a stale rule the daemon wrote, when it is one of three digits. */
  lemma StaleTable(p: Pass, fam: Fam, r: Rule, selector: Fields, table: nat) returns (t: nat)
    requires StaleRule(p, fam, r) && Written(r, selector, table) && 100 <= p.c.rt.offset && r.prio < INT64_LIMIT
    ensures t < RESERVED_TABLE && p.c.rt.offset <= t && TableId(fam, t - p.c.rt.offset) !in p.inv.tables
    ensures ParseLookup(RuleLine(r)).Some? && t == ParseLookup(RuleLine(r)).value.table
  {
    t := ParseLookup(RuleLine(r)).value.table;
  }

  lemma StaleIsNoEvidence(p: Pass, fam: Fam, r: Rule, selector: Fields, table: nat, wanted: nat)
    requires StaleRule(p, fam, r) && Written(r, selector, table) && table < INT64_LIMIT && 100 <= p.c.rt.offset && r.prio < INT64_LIMIT
    requires p.c.rt.offset <= wanted < RESERVED_TABLE && TableId(fam, wanted - p.c.rt.offset) in p.inv.tables
    ensures !ContainsWords(RuleLine(r), ["lookup", Itoa(wanted)])
  {
    WrittenParses(p, r, selector, table);
    var t := StaleTable(p, fam, r, selector, table);
    if ContainsWords(RuleLine(r), ["lookup", Itoa(wanted)]) {
      WrittenTable(r, selector, table, wanted);
    }
  }

  lemma NoMarkInGatewayRule(r: Rule, src: string, table: nat, mark: string)
    requires Written(r, ["from", src], table) && !HasSuffix(src, "fwmark")
    ensures !ContainsWords(RuleLine(r), ["fwmark", mark])
  {
    var l := RuleLine(r);
    assert l == [Itoa(r.prio) + ":", "from", src, "lookup", Itoa(table)];
    assert l[0][|l[0]| - 1] == ':' && !HasSuffix(l[0], "fwmark");
    forall i | 0 <= i < 4
      ensures !HasSuffix(l[i], "fwmark")
    {
    }
  }

  lemma UnshadowedTable(p: Pass, k: Kernel, id: TableId)
    requires ReapsItsOwn(p, k) && GoodTables(p.c, p.inv) && 100 <= p.c.rt.offset && Priorities(k.rules.v4)
    requires id in p.inv.tables && id.fam.IPv4?
    ensures Unshadowed(p, k, IPv4, ["from", p.inv.tables[id].src], p.inv.tables[id].table)
  {
    var spec := p.inv.tables[id];
    forall r | r in k.rules.v4 && StaleRule(p, IPv4, r)
      ensures !Evidence(RuleLine(r), ["from", spec.src], spec.table)
    {
      var src: string, table: nat :| Written(r, ["from", src], table) && table < INT64_LIMIT && !HasSuffix(src, "fwmark");
      StaleIsNoEvidence(p, IPv4, r, ["from", src], table, spec.table);
    }
    NoStaleEvidence(p, k, IPv4, ["from", spec.src], spec.table);
  }

  lemma UnshadowedMark4(p: Pass, k: Kernel, f: FwmarkSpec)
    requires ReapsItsOwn(p, k)
    ensures Unshadowed(p, k, IPv4, ["fwmark", Hex(f.mark, 0)], f.table)
  {
    forall r | r in k.rules.v4 && StaleRule(p, IPv4, r)
      ensures !Evidence(RuleLine(r), ["fwmark", Hex(f.mark, 0)], f.table)
    {
      var src: string, table: nat :| Written(r, ["from", src], table) && table < INT64_LIMIT && !HasSuffix(src, "fwmark");
      NoMarkInGatewayRule(r, src, table, Hex(f.mark, 0));
    }
    NoStaleEvidence(p, k, IPv4, ["fwmark", Hex(f.mark, 0)], f.table);
  }

  lemma UnshadowedMark6(p: Pass, k: Kernel, f: FwmarkSpec)
    requires ReapsItsOwn(p, k) && MarkIsBuilt(p.c, p.inv, f) && 100 <= p.c.rt.offset && Priorities(k.rules.v6)
    ensures Unshadowed(p, k, IPv6, ["fwmark", Hex(f.mark, 0)], f.table)
  {
    forall r | r in k.rules.v6 && StaleRule(p, IPv6, r)
      ensures !Evidence(RuleLine(r), ["fwmark", Hex(f.mark, 0)], f.table)
    {
      var mark: string, table: nat :| Written(r, ["from", "all", "fwmark", mark], table) && table < INT64_LIMIT;
      StaleIsNoEvidence(p, IPv6, r, ["from", "all", "fwmark", mark], table, f.table);
    }
    NoStaleEvidence(p, k, IPv6, ["fwmark", Hex(f.mark, 0)], f.table);
  }

  /** With a table offset of at least 100, as the default has it, no rule the daemon reaps is
      ever the evidence for one it wants. */
  lemma ThreeDigitTablesNeverShadow(p: Pass, k: Kernel)
    requires Shaped(p) && MarksBuilt(p.c, p.inv) && 100 <= p.c.rt.offset
    requires Priorities(k.rules.v4) && Priorities(k.rules.v6) && ReapsItsOwn(p, k)
    ensures NoShadows(p, k)
  {
    forall id | id in p.inv.tables && id.fam.IPv4?
      ensures Unshadowed(p, k, IPv4, ["from", p.inv.tables[id].src], p.inv.tables[id].table)
    {
      UnshadowedTable(p, k, id);
    }
    forall f | f in p.inv.fwmarks4
      ensures Unshadowed(p, k, IPv4, ["fwmark", Hex(f.mark, 0)], f.table)
    {
      UnshadowedMark4(p, k, f);
    }
    forall f | f in p.inv.fwmarks6
      ensures Unshadowed(p, k, IPv6, ["fwmark", Hex(f.mark, 0)], f.table)
    {
      UnshadowedMark6(p, k, f);
    }
  }

  // ----- more than 500 gateways ------------------------------------------------------------------------

  /** A fwmark rule, of any mark whose priority the parser reads, is taken for a per-gateway rule
      exactly when its mark is 500 more than its table; up to 500 gateways none is. */
  lemma MarkTakenForGateway(rt: RouteOptions, mark: nat, table: nat)
    requires OwnTable(rt, table) && FwmarkPriority(mark) < INT64_LIMIT
    ensures GatewayRuleIf(rt, RuleLine(FwmarkRule(FwmarkSpec(mark, table, FwmarkPriority(mark))))).Some? <==> mark == 500 + table
  {
    FwmarkLineParses(rt, FwmarkSpec(mark, table, FwmarkPriority(mark)));
  }
}
