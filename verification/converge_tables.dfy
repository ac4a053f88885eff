/** After a pass the wanted tables and mark rules are found in place. */
module ConvergeTables {
  import opened Common
  import opened Tokens
  import opened Numbers
  import opened Command
  import opened Desired
  import opened Kernel
  import opened Plan
  import opened PlanFacts
  import opened Converge

  // ----- textual evidence that a rule is there ----------------------------------------------------

  /** The line is taken as evidence for a rule with the selector into the table. */
  predicate Evidence(l: Fields, selector: Fields, table: nat)
    requires |selector| == 2
  {
    ContainsWords(l, selector) && ContainsWords(l, ["lookup", Itoa(table)])
  }

  lemma EvidenceIn(rules: seq<Rule>, selector: Fields, table: nat)
    requires |selector| == 2
    ensures Selects(RuleLines(rules), selector, table) <==> exists r :: r in rules && Evidence(RuleLine(r), selector, table)
  {
    var lines := RuleLines(rules);
    if i :| 0 <= i < |lines| && ContainsWords(lines[i], selector) && ContainsWords(lines[i], ["lookup", Itoa(table)]) {
      assert rules[i] in rules && Evidence(RuleLine(rules[i]), selector, table);
    }
    if r :| r in rules && Evidence(RuleLine(r), selector, table) {
      assert lines[IndexOf(rules, r)] == RuleLine(r);
    }
  }

  /** The batch deletes the rule's priority. */
  ghost predicate Reaped(acts: Batch, fam: Fam, r: Rule) {
    exists a :: a in acts && a.op == RuleDel(fam, r.prio)
  }

  ghost predicate Added(acts: Batch, fam: Fam, r: Rule) {
    exists a :: a in acts && a.op == RuleAdd(fam, r)
  }

  /** Exactly the rules a pass leaves: those it does not reap, and those it adds. */
  lemma RulesLeft(p: Pass, k: Kernel, acts: Batch, fam: Fam, r: Rule)
    requires Runs(p, acts) && UniquePriorities(k.rules.Of(fam))
    ensures r in Run(k, acts).rules.Of(fam) <==> (r in k.rules.Of(fam) && !Reaped(acts, fam, r)) || Added(acts, fam, r)
  {
    if a :| a in acts && a.op == RuleAdd(fam, r) {
      RuleIsAdded(p, k, acts, a);
    } else if r !in k.rules.Of(fam) {
      RulesComeFrom(k, acts, fam, r);
    } else if a :| a in acts && a.op == RuleDel(fam, r.prio) {
      RuleIsDeleted(p, k, acts, a, r);
    } else {
      RuleStays(k, acts, fam, r);
    }
  }

  ghost predicate LastingEvidence(k: Kernel, acts: Batch, fam: Fam, selector: Fields, table: nat)
    requires |selector| == 2
  {
    exists r :: r in k.rules.Of(fam) && !Reaped(acts, fam, r) && Evidence(RuleLine(r), selector, table)
  }

  ghost predicate AddedEvidence(acts: Batch, fam: Fam, selector: Fields, table: nat)
    requires |selector| == 2
  {
    exists r :: Added(acts, fam, r) && Evidence(RuleLine(r), selector, table)
  }

  ghost predicate Evidenced(k: Kernel, acts: Batch, fam: Fam, selector: Fields, table: nat)
    requires |selector| == 2
  {
    LastingEvidence(k, acts, fam, selector, table) || AddedEvidence(acts, fam, selector, table)
  }

  /** Exactly what is selected after a pass: what lasting evidence selects, and what was added.
      Evidence that is all reaped, and not added again, is lost. */
  lemma SelectedExactly(p: Pass, k: Kernel, acts: Batch, fam: Fam, selector: Fields, table: nat)
    requires Runs(p, acts) && UniquePriorities(k.rules.Of(fam)) && |selector| == 2
    ensures Selects(RuleLines(Run(k, acts).rules.Of(fam)), selector, table) <==> Evidenced(k, acts, fam, selector, table)
  {
    var after := Run(k, acts).rules.Of(fam);
    EvidenceIn(after, selector, table);
    if r :| r in after && Evidence(RuleLine(r), selector, table) {
      RulesLeft(p, k, acts, fam, r);
    }
    if r :| Evidence(RuleLine(r), selector, table) && ((r in k.rules.Of(fam) && !Reaped(acts, fam, r)) || Added(acts, fam, r)) {
      RulesLeft(p, k, acts, fam, r);
    }
  }

  lemma TableRuleIsEvidence(spec: TableSpec)
    ensures Evidence(RuleLine(TableRule(spec)), ["from", spec.src], spec.table)
  {
    var l := RuleLine(TableRule(spec));
    assert l == [Itoa(spec.prio) + ":", "from", spec.src, "lookup", Itoa(spec.table)];
    assert WordsAt(l, ["from", spec.src], 1);
    assert WordsAt(l, ["lookup", Itoa(spec.table)], 3);
  }

  lemma FwmarkRuleIsEvidence(f: FwmarkSpec)
    ensures Evidence(RuleLine(FwmarkRule(f)), ["fwmark", Hex(f.mark, 0)], f.table)
  {
    var l := RuleLine(FwmarkRule(f));
    assert l == [Itoa(f.prio) + ":", "from", "all", "fwmark", Hex(f.mark, 0), "lookup", Itoa(f.table)];
    assert WordsAt(l, ["fwmark", Hex(f.mark, 0)], 3);
    assert WordsAt(l, ["lookup", Itoa(f.table)], 5);
  }

  // ----- fwmark rules --------------------------------------------------------------------------------

  /** After the pass the wanted fwmark rules are found, exactly when each has evidence left. */
  lemma FwmarksSettle(p: Pass, k: Kernel, acts: Batch, fam: Fam)
    requires Runs(p, acts) && UniquePriorities(k.rules.Of(fam))
    ensures FwmarksInSync(FwmarksOf(p, fam), Some(RuleLines(Run(k, acts).rules.Of(fam)))) <==>
            forall f :: f in FwmarksOf(p, fam) ==> Evidenced(k, acts, fam, ["fwmark", Hex(f.mark, 0)], f.table)
  {
    var specs := FwmarksOf(p, fam);
    forall f | f in specs
      ensures Selects(RuleLines(Run(k, acts).rules.Of(fam)), ["fwmark", Hex(f.mark, 0)], f.table) <==>
              Evidenced(k, acts, fam, ["fwmark", Hex(f.mark, 0)], f.table)
    {
      SelectedExactly(p, k, acts, fam, ["fwmark", Hex(f.mark, 0)], f.table);
    }
    assert forall i :: 0 <= i < |specs| ==> specs[i] in specs;
  }

  /** A pass that finds one wanted fwmark rule missing adds them all. */
  lemma MissingMarkIsAdded(p: Pass, acts: Batch, fam: Fam, f: FwmarkSpec)
    requires f in FwmarksOf(p, fam) && !FwmarksInSync(FwmarksOf(p, fam), p.inst.rules.Of(fam))
    requires forall x :: x in PlanOf(Fwmarks(fam, FwmarksOf(p, fam), p.inst)) ==> x in acts
    ensures Added(acts, fam, FwmarkRule(f)) && AddedEvidence(acts, fam, ["fwmark", Hex(f.mark, 0)], f.table)
  {
    var specs := FwmarksOf(p, fam);
    var rs := Fwmarks(fam, specs, p.inst);
    var x := FwmarkActs(fam, specs)[IndexOf(specs, f)];
    assert rs[..0] == [] && x in PlanOf(rs);
    FwmarkRuleIsEvidence(f);
    assert Added(acts, fam, FwmarkRule(f));
  }

  // ----- table contents --------------------------------------------------------------------------------

  function KeyFor(spec: TableSpec): TableKey {
    TableKey(spec.fam, spec.table)
  }

  predicate HoldsDefault(contents: seq<Fields>, spec: TableSpec) {
    exists i :: 0 <= i < |contents| && ContainsWords(contents[i], DefaultWords(spec))
  }

  lemma SameTableSameSpec(p: Pass, id: TableId, fam: Fam, spec: TableSpec)
    requires Shaped(p) && id in p.inv.tables && DriftedTable(p, fam, spec)
    requires fam == id.fam && spec.table == p.inv.tables[id].table
    ensures spec == p.inv.tables[id] && !TableInSync(spec, p.inst.rules.Of(fam), ContentsOf(p.inst, id))
  {
    var other :| other in p.inv.tables && other.fam == fam && p.inv.tables[other] == spec
                 && !TableInSync(spec, p.inst.rules.Of(fam), ContentsOf(p.inst, other));
    assert p.inv.tables[other].table == p.c.rt.offset + other.ifIndex;
    assert other == id;
  }

  lemma NoFlushOfWanted(p: Pass, id: TableId, a: Act<Op>)
    requires Shaped(p) && Allowed(p, a) && id in p.inv.tables
    ensures a.op != Flush(id.fam, p.inv.tables[id].table)
  {
  }

  lemma InSyncTableIsLeftAlone(p: Pass, k: Kernel, acts: Batch, id: TableId)
    requires Runs(p, acts) && id in p.inv.tables
    requires TableInSync(p.inv.tables[id], p.inst.rules.Of(id.fam), ContentsOf(p.inst, id))
    ensures var key := KeyFor(p.inv.tables[id]);
            (key in Run(k, acts).tables <==> key in k.tables) && Contents(Run(k, acts), key) == Contents(k, key)
  {
    var spec := p.inv.tables[id];
    var key := KeyFor(spec);
    var was, held := Contents(k, key), key in k.tables;
    var same := (s: Kernel) => (key in s.tables <==> held) && Contents(s, key) == was;
    forall a | a in acts
      ensures Keeps(same, a.op)
    {
      NoFlushOfWanted(p, id, a);
      if a.op.RouteReplace? && TableKey(a.op.fam, a.op.table) == key {
        assert ReplaceAllowed(p, a.order, a.op.fam, a.op.table, a.op.line) by {
          assert Allowed(p, a);
        }
        var other :| DriftedTable(p, id.fam, other) && other.table == spec.table;
        SameTableSameSpec(p, id, id.fam, other);
        assert false;
      }
    }
    RunKeeps(k, acts, same);
  }

  lemma ReplaceOfWanted(p: Pass, id: TableId, a: Act<Op>)
    requires Shaped(p) && Allowed(p, a) && id in p.inv.tables
    requires a.op.RouteReplace? && TableKey(a.op.fam, a.op.table) == KeyFor(p.inv.tables[id])
    ensures var spec := p.inv.tables[id];
            a.op.line == DefaultLine(spec) || (spec.subnet != "" && a.op.line == [spec.subnet, "dev", spec.ifName, "src", spec.src])
  {
    assert ReplaceAllowed(p, a.order, a.op.fam, a.op.table, a.op.line);
    var other :| DriftedTable(p, id.fam, other) && other.table == p.inv.tables[id].table &&
                 (a.op.line == DefaultLine(other) || (other.subnet != "" && a.op.line == [other.subnet, "dev", other.ifName, "src", other.src]));
    SameTableSameSpec(p, id, id.fam, other);
  }

  lemma DefaultIsWritten(p: Pass, k: Kernel, acts: Batch, id: TableId, x: Act<Op>)
    requires Runs(p, acts) && id in p.inv.tables && p.inv.tables[id].subnet != "default"
    requires var spec := p.inv.tables[id];
             x in acts && x == Act(TABLE_ROUTES, RouteReplace(spec.fam, spec.table, DefaultLine(spec)))
    ensures KeyFor(p.inv.tables[id]) in Run(k, acts).tables
    ensures DefaultLine(p.inv.tables[id]) in Contents(Run(k, acts), KeyFor(p.inv.tables[id]))
  {
    var spec := p.inv.tables[id];
    var key, line := KeyFor(spec), DefaultLine(spec);
    var after := (s: Kernel) => key in s.tables && line in s.tables[key];
    forall a | a in acts && a.order >= x.order
      ensures Keeps(after, a.op)
    {
      RankOf(p, a);
      if a.op.RouteReplace? && TableKey(a.op.fam, a.op.table) == key {
        ReplaceOfWanted(p, id, a);
        forall s: Kernel | key in s.tables && line in s.tables[key]
          ensures line in Apply(s, a.op).tables[key]
        {
          if a.op.line != line {
            assert !SameRoute(line, a.op.line);
            ReplaceKeeps(s.tables[key], a.op.line, line);
          }
        }
      }
    }
    Establishes(k, acts, x, (s: Kernel) => true, after);
  }

  lemma DefaultLineHasWords(spec: TableSpec)
    ensures ContainsWords(DefaultLine(spec), DefaultWords(spec))
  {
    var line, words := DefaultLine(spec), DefaultWords(spec);
    var n := |words| - 1;
    StartsWithWords(line, words, n);
  }

  lemma StartsWithWords(line: Fields, words: Fields, n: nat)
    requires 1 <= n == |words| - 1 && |words| <= |line| && words == line[..n + 1]
    ensures ContainsWords(line, words)
  {
    assert line[1..n] == words[1..n];
    assert WordsAt(line, words, 0);
  }

  lemma {:induction false} TablesHas(inv: Inventory, inst: Installed, ids: seq<TableId>, id: TableId)
    requires id in ids && forall i :: i in ids ==> i in inv.tables
    ensures Resource(Wanted, TableInSync(inv.tables[id], inst.rules.Of(id.fam), ContentsOf(inst, id)), TableActs(inv.tables[id]), [])
            in Tables(inv, inst, ids)
  {
    var n := |ids| - 1;
    assert ids == ids[..n] + [ids[n]];
    if id in ids[..n] {
      TablesHas(inv, inst, ids[..n], id);
    }
  }

  lemma DriftedTableIsPlanned(p: Pass, acts: Batch, id: TableId, x: Act<Op>)
    requires Shaped(p) && id in p.inv.tables && x in TableActs(p.inv.tables[id])
    requires !TableInSync(p.inv.tables[id], p.inst.rules.Of(id.fam), ContentsOf(p.inst, id))
    requires forall y :: y in PlanOf(Tables(p.inv, p.inst, p.ids)) ==> y in acts
    ensures x in acts
  {
    assert id in Range(p.ids);
    TablesHas(p.inv, p.inst, p.ids, id);
    PlanMembers(Tables(p.inv, p.inst, p.ids), x);
  }

  /** The pass read the table's contents as they were. */
  ghost predicate ReadsTable(p: Pass, k: Kernel, id: TableId) {
    id in p.inst.tables && p.inst.tables[id] == ReadContents(p.c, k, id)
  }

  /** After the pass a wanted table has its default route. */
  lemma ContentsSettle(p: Pass, k: Kernel, acts: Batch, id: TableId)
    requires Runs(p, acts) && id in p.inv.tables && p.inv.tables[id].subnet != "default" && ReadsTable(p, k, id)
    requires forall y :: y in PlanOf(Tables(p.inv, p.inst, p.ids)) ==> y in acts
    ensures var contents := ReadContents(p.c, Run(k, acts), id);
            contents.Some? && HoldsDefault(contents.value, p.inv.tables[id])
  {
    var spec := p.inv.tables[id];
    if TableInSync(spec, p.inst.rules.Of(id.fam), ContentsOf(p.inst, id)) {
      InSyncTableIsLeftAlone(p, k, acts, id);
    } else {
      var x: Act<Op> := Act(TABLE_ROUTES, RouteReplace(spec.fam, spec.table, DefaultLine(spec)));
      assert x in TableActs(spec);
      DriftedTableIsPlanned(p, acts, id, x);
      DefaultIsWritten(p, k, acts, id, x);
      DefaultLineHasWords(spec);
      var contents := Contents(Run(k, acts), KeyFor(spec));
      assert contents[IndexOf(contents, DefaultLine(spec))] == DefaultLine(spec);
    }
  }

  /** After the pass a wanted table is as it should be, exactly when its rule, if it has one,
      has evidence left. */
  lemma TableSettles(p: Pass, k: Kernel, acts: Batch, id: TableId)
    requires Runs(p, acts) && id in p.inv.tables && p.inv.tables[id].subnet != "default" && ReadsTable(p, k, id)
    requires id.fam.IPv4? ==> UniquePriorities(k.rules.v4)
    requires forall y :: y in PlanOf(Tables(p.inv, p.inst, p.ids)) ==> y in acts
    ensures TableInSync(p.inv.tables[id], Some(RuleLines(Run(k, acts).rules.Of(id.fam))), ReadContents(p.c, Run(k, acts), id)) <==>
            (id.fam.IPv4? ==> Evidenced(k, acts, IPv4, ["from", p.inv.tables[id].src], p.inv.tables[id].table))
  {
    ContentsSettle(p, k, acts, id);
    if id.fam.IPv4? {
      SelectedExactly(p, k, acts, IPv4, ["from", p.inv.tables[id].src], p.inv.tables[id].table);
    }
  }

  /** A pass that finds a wanted IPv4 table drifted adds its rule. */
  lemma MissingRuleIsAdded(p: Pass, acts: Batch, id: TableId)
    requires Shaped(p) && id in p.inv.tables && id.fam.IPv4?
    requires !TableInSync(p.inv.tables[id], p.inst.rules.Of(IPv4), ContentsOf(p.inst, id))
    requires forall y :: y in PlanOf(Tables(p.inv, p.inst, p.ids)) ==> y in acts
    ensures AddedEvidence(acts, IPv4, ["from", p.inv.tables[id].src], p.inv.tables[id].table)
  {
    var spec := p.inv.tables[id];
    var x: Act<Op> := Act(TABLE_RULE, RuleAdd(IPv4, TableRule(spec)));
    assert x in TableActs(spec);
    DriftedTableIsPlanned(p, acts, id, x);
    TableRuleIsEvidence(spec);
    assert Added(acts, IPv4, TableRule(spec));
  }
}
