/** After a pass the nftables tables and the iptables chain are found in place. */
module ConvergeNft {
  import opened Common
  import opened Tokens
  import opened Command
  import opened Desired
  import opened Kernel
  import opened Plan
  import opened PlanFacts
  import opened Converge
  import Firewall
  import Assign
  import Translation
  import Learning

  // ----- one nft table ------------------------------------------------------------------------

  predicate Touches(op: Op, name: NftName) {
    (op.NftDelete? || op.NftWrite?) && op.name == name
  }

  lemma TableKept(k: Kernel, acts: Batch, name: NftName)
    requires forall a :: a in acts ==> !Touches(a.op, name)
    ensures ListTable(Run(k, acts), name) == ListTable(k, name)
  {
    var was := ListTable(k, name);
    RunKeeps(k, acts, (s: Kernel) => ListTable(s, name) == was);
  }

  lemma TableGone(k: Kernel, acts: Batch, x: Act<Op>, name: NftName)
    requires InOrder(acts) && x in acts && x.op == NftDelete(name)
    requires forall a :: a in acts && a.order >= x.order ==> !(a.op.NftWrite? && a.op.name == name)
    ensures ListTable(Run(k, acts), name) == None
  {
    Establishes(k, acts, x, (s: Kernel) => true, (s: Kernel) => ListTable(s, name) == None);
  }

  lemma TableWritten(k: Kernel, acts: Batch, x: Act<Op>, name: NftName)
    requires InOrder(acts) && x in acts && x.op.NftWrite? && x.op.name == name
    requires forall a :: a in acts && a.order >= x.order && Touches(a.op, name) ==> a.op == x.op
    ensures ListTable(Run(k, acts), name) == Some(x.op.lines)
  {
    var lines := x.op.lines;
    Establishes(k, acts, x, (s: Kernel) => true, (s: Kernel) => ListTable(s, name) == Some(lines));
  }

  lemma TextsOfWords(lines: seq<Fields>)
    ensures Texts(Words(lines)) == lines
  {
    forall i | 0 <= i < |lines|
      ensures Texts(Words(lines))[i] == lines[i]
    {
    }
  }

  // ----- what may touch a table ------------------------------------------------------------------

  /** The firewall's table name is not that of the translation table, or of the learning table. */
  predicate NptNameFree(c: Settings) {
    c.translates ==> c.fw.table != c.npt.table
  }

  predicate NdNameFree(c: Settings) {
    c.translates ==> c.fw.table != c.nd.table
  }

  lemma TouchingMarks4(p: Pass, a: Act<Op>, name: NftName)
    requires Shaped(p) && Allowed(p, a) && (name == MarkTable4(p.c) || name == LegacyTable(p.c)) && Touches(a.op, name)
    ensures Nft4Drifted(p)
    ensures a.op.NftDelete? ==> a.order == Teardown(MANGLE_CHAIN)
    ensures a.op.NftWrite? ==>
              && name == MarkTable4(p.c) && NftMarks(p) != []
              && a.op.lines == Words(Firewall.NftTable(p.c.fw.table, Firewall.V4, NftMarks(p), Firewall.Listed))
  {
  }

  lemma TouchingMarks6(p: Pass, a: Act<Op>)
    requires Shaped(p) && Allowed(p, a) && NptNameFree(p.c) && NdNameFree(p.c) && Touches(a.op, MarkTable6(p.c))
    ensures Nft6Drifted(p)
    ensures a.op.NftDelete? ==> a.order == Teardown(MANGLE_CHAIN)
    ensures a.op.NftWrite? ==>
              && p.inv.marks6 != []
              && a.op.lines == Words(Firewall.NftTable(p.c.fw.table, Firewall.V6([]), p.inv.marks6, Firewall.Listed))
  {
  }

  ghost predicate NdName(c: Settings) {
    c.nd.table == c.npt.table + "-ndp"
  }

  lemma NamesDiffer(c: Settings)
    requires NdName(c)
    ensures NptTable(c) != LearnTable(c)
  {
    assert |c.nd.table| == |c.npt.table| + 4;
  }

  /** When the translation table shares its name with the IPv6 mark table, no IPv6 marks are
      wanted, and only their removal, which comes earlier, touches it besides translation. */
  lemma TouchingNpt(p: Pass, a: Act<Op>)
    requires Shaped(p) && Allowed(p, a) && NdName(p.c) && p.c.translates && Touches(a.op, NptTable(p.c))
    requires p.inv.marks6 != [] ==> NptNameFree(p.c)
    ensures (NptDrifted(p) && a.order == NFT_TABLE) || (!NptNameFree(p.c) && a.op.NftDelete? && a.order == Teardown(MANGLE_CHAIN))
    ensures a.order == NFT_TABLE ==> (a.op.NftDelete? <==> p.inv.ruleset.None?)
    ensures a.op.NftWrite? ==> p.inv.ruleset.Some? && a.op.lines == Translation.TableLines(p.c.npt.table, p.inv.ruleset.value, p.comments)
  {
    NamesDiffer(p.c);
  }

  lemma TouchingLearn(p: Pass, a: Act<Op>)
    requires Shaped(p) && Allowed(p, a) && NdNameFree(p.c) && NdName(p.c) && p.c.translates && Touches(a.op, LearnTable(p.c))
    ensures a.order == NFT_TABLE
    ensures a.op.NftDelete? ==> !Proxies(p.c) && p.inst.learn.Some?
    ensures a.op.NftWrite? ==>
              && LearnDrifted(p) && p.inv.learn != []
              && a.op.lines == Learning.TableLines(p.c.nd.table, p.inv.learn, p.c.nd.timeout, p.c.nd.size, [])
  {
    NamesDiffer(p.c);
  }

  // ----- mark tables -----------------------------------------------------------------------------

  lemma WrittenMarksAreRead(table: string, family: Firewall.Family, want: seq<Firewall.MarkRule>)
    requires Firewall.AllPrintable(want) && want != []
    ensures var tables := Firewall.NftTables(Some(Texts(Words(Firewall.NftTable(table, family, want, Firewall.Listed)))), None);
            !Firewall.NftNeedsRestore(family, want, Firewall.ReadInstalledNft(family, tables))
  {
    TextsOfWords(Firewall.NftTable(table, family, want, Firewall.Listed));
    Firewall.NftTableReadsBack(table, family, want, Firewall.Listed);
  }

  lemma Mangle4Acts(c: Settings, want: seq<Firewall.MarkRule>, inst: Installed)
    requires Firewall.Marked(want) && Firewall.NftNeedsRestore(Firewall.V4, want, inst.nft)
    ensures var acts := ActsOf(NftMangle4(c, want, inst));
            && Act(Teardown(MANGLE_CHAIN), NftDelete(MarkTable4(c))) in acts
            && Act(Teardown(MANGLE_CHAIN), NftDelete(LegacyTable(c))) in acts
            && (want != [] ==>
                  Act(MANGLE_CHAIN, NftWrite(MarkTable4(c), Words(Firewall.NftTable(c.fw.table, Firewall.V4, want, Firewall.Listed)))) in acts)
  {
    var cleanup := CleanupNft4(c);
    assert cleanup[0] in cleanup && cleanup[1] in cleanup;
    if want != [] {
      var install := InstallNft4(c, want);
      assert install[2] in install;
    }
  }

  lemma LegacyIsGone(p: Pass, k: Kernel, acts: Batch)
    requires Runs(p, acts) && Act(Teardown(MANGLE_CHAIN), NftDelete(LegacyTable(p.c))) in acts
    ensures ListTable(Run(k, acts), LegacyTable(p.c)) == None
  {
    forall a | a in acts && Touches(a.op, LegacyTable(p.c))
      ensures !a.op.NftWrite?
    {
      TouchingMarks4(p, a, LegacyTable(p.c));
      assert LegacyTable(p.c) != MarkTable4(p.c);
    }
    TableGone(k, acts, Act(Teardown(MANGLE_CHAIN), NftDelete(LegacyTable(p.c))), LegacyTable(p.c));
  }

  lemma Marks4Stand(p: Pass, k: Kernel, acts: Batch)
    requires Runs(p, acts)
    requires Act(Teardown(MANGLE_CHAIN), NftDelete(MarkTable4(p.c))) in acts
    requires NftMarks(p) != [] ==>
               Act(MANGLE_CHAIN, NftWrite(MarkTable4(p.c), Words(Firewall.NftTable(p.c.fw.table, Firewall.V4, NftMarks(p), Firewall.Listed)))) in acts
    ensures ListTable(Run(k, acts), MarkTable4(p.c)) ==
            if NftMarks(p) == [] then None
            else Some(Words(Firewall.NftTable(p.c.fw.table, Firewall.V4, NftMarks(p), Firewall.Listed)))
  {
    var name := MarkTable4(p.c);
    forall a | a in acts && Touches(a.op, name)
      ensures a.op.NftDelete? ==> a.order == Teardown(MANGLE_CHAIN)
      ensures a.op.NftWrite? ==>
                NftMarks(p) != [] && a.op.lines == Words(Firewall.NftTable(p.c.fw.table, Firewall.V4, NftMarks(p), Firewall.Listed))
    {
      TouchingMarks4(p, a, name);
    }
    if NftMarks(p) == [] {
      TableGone(k, acts, Act(Teardown(MANGLE_CHAIN), NftDelete(name)), name);
    } else {
      var lines := Words(Firewall.NftTable(p.c.fw.table, Firewall.V4, NftMarks(p), Firewall.Listed));
      TableWritten(k, acts, Act(MANGLE_CHAIN, NftWrite(name, lines)), name);
    }
  }

  /** After the pass the IPv4 mark tables are not drifted: the wanted ones are there, or none. */
  lemma Marks4Settle(p: Pass, k: Kernel, acts: Batch)
    requires Runs(p, acts) && p.inst.nft == ReadNft4(p.c, k) && Firewall.AllPrintable(NftMarks(p))
    requires forall x :: x in ActsOf(NftMangle4(p.c, NftMarks(p), p.inst)) ==> x in acts
    ensures !Firewall.NftNeedsRestore(Firewall.V4, NftMarks(p), ReadNft4(p.c, Run(k, acts)))
  {
    if Nft4Drifted(p) {
      Mangle4Acts(p.c, NftMarks(p), p.inst);
      LegacyIsGone(p, k, acts);
      Marks4Stand(p, k, acts);
      if NftMarks(p) != [] {
        WrittenMarksAreRead(p.c.fw.table, Firewall.V4, NftMarks(p));
      }
    } else {
      forall a, name | a in acts && (name == MarkTable4(p.c) || name == LegacyTable(p.c))
        ensures !Touches(a.op, name)
      {
        if Touches(a.op, name) {
          TouchingMarks4(p, a, name);
        }
      }
      TableKept(k, acts, MarkTable4(p.c));
      TableKept(k, acts, LegacyTable(p.c));
      assert ReadNft4(p.c, Run(k, acts)) == ReadNft4(p.c, k);
    }
  }

  lemma Marks6AreInstalled(p: Pass, k: Kernel, acts: Batch)
    requires Runs(p, acts) && Nft6Drifted(p) && NptNameFree(p.c) && NdNameFree(p.c) && p.inv.marks6 != []
    requires forall x :: x in ActsOf(Mangle6(p.c, p.inv, p.inst)) ==> x in acts
    ensures ListTable(Run(k, acts), MarkTable6(p.c)) ==
            Some(Words(Firewall.NftTable(p.c.fw.table, Firewall.V6([]), p.inv.marks6, Firewall.Listed)))
  {
    var r := Mangle6(p.c, p.inv, p.inst);
    forall a | a in acts && Touches(a.op, MarkTable6(p.c))
      ensures a.op.NftDelete? ==> a.order == Teardown(MANGLE_CHAIN)
      ensures a.op.NftWrite? ==>
                && p.inv.marks6 != []
                && a.op.lines == Words(Firewall.NftTable(p.c.fw.table, Firewall.V6([]), p.inv.marks6, Firewall.Listed))
    {
      TouchingMarks6(p, a);
    }
    var x := InstallNft6(p.c, p.inv.marks6)[1];
    assert x in ActsOf(r);
    TableWritten(k, acts, x, MarkTable6(p.c));
  }

  /** Whoever else uses the name has nothing to keep there. */
  ghost predicate NothingToKeep(p: Pass) {
    && p.inv.marks6 == []
    && (p.c.translates && p.c.fw.table == p.c.npt.table ==> p.inv.ruleset.None?)
    && (p.c.translates && p.c.fw.table == p.c.nd.table ==> !Proxies(p.c) || p.inv.learn == [])
  }

  lemma NobodyWrites(p: Pass, a: Act<Op>)
    requires Shaped(p) && Allowed(p, a) && NothingToKeep(p)
    ensures !(a.op.NftWrite? && a.op.name == MarkTable6(p.c))
  {
  }

  lemma TableStaysAway(k: Kernel, acts: Batch, name: NftName)
    requires ListTable(k, name) == None && forall a :: a in acts ==> !(a.op.NftWrite? && a.op.name == name)
    ensures ListTable(Run(k, acts), name) == None
  {
    RunKeeps(k, acts, (s: Kernel) => ListTable(s, name) == None);
  }

  lemma Marks6AreGone(p: Pass, k: Kernel, acts: Batch)
    requires Runs(p, acts) && NothingToKeep(p) && p.inst.nft6 == ReadNft6(p.c, k)
    requires forall x :: x in ActsOf(Mangle6(p.c, p.inv, p.inst)) ==> x in acts
    ensures ListTable(Run(k, acts), MarkTable6(p.c)) == None
  {
    forall a | a in acts
      ensures !(a.op.NftWrite? && a.op.name == MarkTable6(p.c))
    {
      NobodyWrites(p, a);
    }
    if ListTable(k, MarkTable6(p.c)).Some? {
      var own := CleanupNft6(p.c)[0];
      assert own in ActsOf(Mangle6(p.c, p.inv, p.inst));
      TableGone(k, acts, own, MarkTable6(p.c));
    } else {
      TableStaysAway(k, acts, MarkTable6(p.c));
    }
  }

  lemma Marks6Settle(p: Pass, k: Kernel, acts: Batch)
    requires Runs(p, acts) && p.inst.nft6 == ReadNft6(p.c, k) && Firewall.AllPrintable(p.inv.marks6)
    requires NothingToKeep(p) || (p.inv.marks6 != [] && NptNameFree(p.c) && NdNameFree(p.c))
    requires forall x :: x in ActsOf(Mangle6(p.c, p.inv, p.inst)) ==> x in acts
    ensures !Firewall.NftNeedsRestore(Firewall.V6([]), p.inv.marks6, ReadNft6(p.c, Run(k, acts)))
  {
    if p.inv.marks6 == [] {
      Marks6AreGone(p, k, acts);
    } else if Nft6Drifted(p) {
      Marks6AreInstalled(p, k, acts);
      WrittenMarksAreRead(p.c.fw.table, Firewall.V6([]), p.inv.marks6);
    } else {
      forall a | a in acts
        ensures !Touches(a.op, MarkTable6(p.c))
      {
        if Touches(a.op, MarkTable6(p.c)) {
          TouchingMarks6(p, a);
        }
      }
      TableKept(k, acts, MarkTable6(p.c));
      assert ReadNft6(p.c, Run(k, acts)) == ReadNft6(p.c, k);
    }
  }

  // ----- translation ------------------------------------------------------------------------------

  ghost predicate Translated(p: Pass) {
    && p.c.translates
    && Translation.Named(p.c.npt, p.inv.assignments)
    && p.inv.ruleset == Translation.TableFor(p.c.npt, p.inv.assignments)
    && p.inv.nptRules == Translation.KeysFor(p.c.npt, p.inv.assignments)
  }

  lemma NptIsInstalled(p: Pass, k: Kernel, acts: Batch)
    requires Runs(p, acts) && NptDrifted(p) && NdName(p.c) && (p.inv.marks6 != [] ==> NptNameFree(p.c))
    requires forall x :: x in NptActs(p.c, p.inv.ruleset, p.comments) ==> x in acts
    ensures ListTable(Run(k, acts), NptTable(p.c)) == Translation.Applied(p.c.npt.table, p.inv.ruleset, p.comments)
  {
    var x := NptActs(p.c, p.inv.ruleset, p.comments)[0];
    assert x in NptActs(p.c, p.inv.ruleset, p.comments);
    forall a | a in acts && a.order >= x.order && Touches(a.op, NptTable(p.c))
      ensures a.op == x.op
    {
      TouchingNpt(p, a);
    }
    if p.inv.ruleset.None? {
      TableGone(k, acts, x, NptTable(p.c));
    } else {
      TableWritten(k, acts, x, NptTable(p.c));
    }
  }

  /** With the name shared, a table that is not written is removed with the IPv6 marks. */
  lemma SharedTableIsRemoved(p: Pass, k: Kernel, acts: Batch)
    requires Runs(p, acts) && p.c.translates && NdName(p.c) && !NptNameFree(p.c) && p.inv.marks6 == [] && !NptDrifted(p)
    requires p.inst.nft6 == ReadNft6(p.c, k)
    requires forall x :: x in ActsOf(Mangle6(p.c, p.inv, p.inst)) ==> x in acts
    ensures ListTable(Run(k, acts), NptTable(p.c)) == None
  {
    forall a | a in acts
      ensures !(a.op.NftWrite? && a.op.name == NptTable(p.c))
    {
      if Touches(a.op, NptTable(p.c)) {
        TouchingNpt(p, a);
      }
    }
    if ListTable(k, NptTable(p.c)).Some? {
      var own := CleanupNft6(p.c)[0];
      assert own in ActsOf(Mangle6(p.c, p.inv, p.inst));
      TableGone(k, acts, own, NptTable(p.c));
    } else {
      TableStaysAway(k, acts, NptTable(p.c));
    }
  }

  lemma NptStays(p: Pass, k: Kernel, acts: Batch)
    requires Runs(p, acts) && p.c.translates && NdName(p.c) && NptNameFree(p.c) && !NptDrifted(p)
    ensures ReadNpt(p.c, Run(k, acts)) == ReadNpt(p.c, k)
  {
    forall a | a in acts
      ensures !Touches(a.op, NptTable(p.c))
    {
      if Touches(a.op, NptTable(p.c)) {
        TouchingNpt(p, a);
      }
    }
    TableKept(k, acts, NptTable(p.c));
  }

  lemma NoTableNoKeys(o: Assign.Options, list: seq<Assign.Assignment>)
    ensures Translation.TableFor(o, list).None? <==> Translation.KeysFor(o, list) == {}
  {
    if list != [] {
      assert Translation.KeyOf(Translation.SourceRule(list[0])) in Translation.SourceKeys(list);
    }
    var guards := Translation.Guards(o, list);
    if guards != [] {
      assert Translation.KeyOf(Translation.DropOut(o.internal.value, guards[0])) in Translation.GuardKeys(o.internal.value, guards);
    }
  }

  /** Exactly when the translation table is in place after a pass: unless it stood in place
      already and shares its name with the IPv6 mark table, whose removal then takes it away. */
  lemma NptSettles(p: Pass, k: Kernel, acts: Batch)
    requires Runs(p, acts) && Translated(p) && NdName(p.c) && p.inst.npt == ReadNpt(p.c, k) && p.inst.nft6 == ReadNft6(p.c, k)
    requires p.inv.marks6 != [] ==> NptNameFree(p.c)
    requires NptDrifted(p) ==> forall x :: x in NptActs(p.c, p.inv.ruleset, p.comments) ==> x in acts
    requires forall x :: x in ActsOf(Mangle6(p.c, p.inv, p.inst)) ==> x in acts
    ensures !Translation.NeedsRestore(p.inv.nptRules, ReadNpt(p.c, Run(k, acts))) <==>
            NptNameFree(p.c) || p.inv.ruleset.None? || NptDrifted(p)
  {
    if NptDrifted(p) {
      NptIsInstalled(p, k, acts);
      Translation.FreshTableIsInSync(p.c.npt, p.inv.assignments, p.comments);
    } else if NptNameFree(p.c) {
      NptStays(p, k, acts);
    } else {
      NoTableNoKeys(p.c.npt, p.inv.assignments);
      SharedTableIsRemoved(p, k, acts);
    }
  }

  // ----- learning ----------------------------------------------------------------------------------

  /** Texts of the learning table that its parser cannot mistake for a rule. */
  predicate SoundLearning(p: Pass) {
    && p.c.nd.table != "update" && p.c.nd.timeout != "comment" && p.c.nd.timeout != "update" && p.c.nd.size != "update"
    && forall i :: 0 <= i < |p.inv.learn| ==> p.inv.learn[i].uplink != ""
  }

  lemma LearnSettles(p: Pass, k: Kernel, acts: Batch)
    requires Runs(p, acts) && p.c.translates && Proxies(p.c) && NdNameFree(p.c) && NdName(p.c) && SoundLearning(p)
    requires p.inst.learn == ReadLearn(p.c, k)
    requires LearnDrifted(p) ==> forall x :: x in LearnActs(p.c, p.inv.learn) ==> x in acts
    ensures !Learning.NeedsRestore(Learning.RuleKeys(p.inv.learn), ReadLearn(p.c, Run(k, acts)))
  {
    if p.inv.learn == [] {
      assert Learning.RuleKeys(p.inv.learn) == {};
    } else if LearnDrifted(p) {
      var x := LearnActs(p.c, p.inv.learn)[0];
      assert x in LearnActs(p.c, p.inv.learn);
      forall a | a in acts && Touches(a.op, LearnTable(p.c))
        ensures a.op == x.op
      {
        TouchingLearn(p, a);
      }
      TableWritten(k, acts, x, LearnTable(p.c));
      Learning.TableReadsBack(p.c.nd.table, p.inv.learn, p.c.nd.timeout, p.c.nd.size, []);
    } else {
      LearnTableIsKept(p, k, acts);
    }
  }

  lemma LearnTableIsKept(p: Pass, k: Kernel, acts: Batch)
    requires Runs(p, acts) && p.c.translates && NdNameFree(p.c) && NdName(p.c) && !LearnDrifted(p)
    requires Proxies(p.c) || p.inst.learn.None?
    ensures ListTable(Run(k, acts), LearnTable(p.c)) == ListTable(k, LearnTable(p.c))
  {
    forall a | a in acts
      ensures !Touches(a.op, LearnTable(p.c))
    {
      if Touches(a.op, LearnTable(p.c)) {
        TouchingLearn(p, a);
      }
    }
    TableKept(k, acts, LearnTable(p.c));
  }

  /** Without proxying, a learning table left over is gone after the pass. */
  lemma LearnIsRemoved(p: Pass, k: Kernel, acts: Batch)
    requires Runs(p, acts) && p.c.translates && !Proxies(p.c) && NdNameFree(p.c) && NdName(p.c)
    requires p.inst.learn == ReadLearn(p.c, k)
    requires p.inst.learn.Some? ==> Act(NFT_TABLE, NftDelete(LearnTable(p.c))) in acts
    ensures ReadLearn(p.c, Run(k, acts)) == None
  {
    if p.inst.learn.Some? {
      forall a | a in acts && Touches(a.op, LearnTable(p.c))
        ensures !a.op.NftWrite?
      {
        TouchingLearn(p, a);
      }
      TableGone(k, acts, Act(NFT_TABLE, NftDelete(LearnTable(p.c))), LearnTable(p.c));
    } else {
      LearnTableIsKept(p, k, acts);
    }
  }

  // ----- iptables: a sequence of commands, kept in order by the stable sort --------------------------

  function Cmds(acts: Batch): seq<Firewall.IptCommand> {
    if acts == [] then []
    else
      var n := |acts| - 1;
      Cmds(acts[..n]) + if acts[n].op.Ipt? then [acts[n].op.cmd] else []
  }

  lemma {:induction false} CmdsOfConcat(a: Batch, b: Batch)
    ensures Cmds(a + b) == Cmds(a) + Cmds(b)
  {
    if b == [] {
      assert a + b == a;
    } else {
      var n := |b| - 1;
      assert (a + b)[..|a + b| - 1] == a + b[..n];
      CmdsOfConcat(a, b[..n]);
    }
  }

  ghost predicate OneChain(chain: string, acts: Batch) {
    forall a :: a in acts && a.op.Ipt? ==> a.op.chain == chain
  }

  lemma ApplyToChain(k: Kernel, op: Op)
    ensures Apply(k, op).ipt == if op.Ipt? then Firewall.IptStep(op.chain, op.cmd, k.ipt) else k.ipt
  {
  }

  lemma IptRunNext(chain: string, cmds: seq<Firewall.IptCommand>, cmd: Firewall.IptCommand, t: Firewall.IptState)
    ensures Firewall.IptRun(chain, cmds + [cmd], t) == Firewall.IptStep(chain, cmd, Firewall.IptRun(chain, cmds, t))
  {
    assert (cmds + [cmd])[..|cmds|] == cmds;
  }

  /** What a batch does to the chain is what its iptables commands do, in order. */
  lemma {:induction false} RunOfCmds(chain: string, k: Kernel, acts: Batch)
    requires OneChain(chain, acts)
    ensures Run(k, acts).ipt == Firewall.IptRun(chain, Cmds(acts), k.ipt)
  {
    if acts != [] {
      var n := |acts| - 1;
      assert acts == acts[..n] + [acts[n]];
      RunOfCmds(chain, k, acts[..n]);
      ApplyToChain(Run(k, acts[..n]), acts[n].op);
      var before := Cmds(acts[..n]);
      if acts[n].op.Ipt? {
        IptRunNext(chain, before, acts[n].op.cmd, k.ipt);
      } else {
        assert before + [] == before;
      }
    }
  }

  ghost predicate TwoRanks(acts: Batch) {
    forall i :: 0 <= i < |acts| && acts[i].op.Ipt? ==> acts[i].order == Teardown(MANGLE_CHAIN) || acts[i].order == MANGLE_CHAIN
  }

  function CmdsAt(acts: Batch, rank: int): seq<Firewall.IptCommand> {
    Cmds(OfRank(acts, rank))
  }

  lemma CmdsOfOne(a: Act<Op>)
    ensures Cmds([a]) == if a.op.Ipt? then [a.op.cmd] else []
  {
    assert [a][..0] == [];
  }

  lemma CmdsNext(acts: Batch, rank: int)
    requires acts != []
    ensures var n := |acts| - 1;
            CmdsAt(acts, rank) == CmdsAt(acts[..n], rank) + if acts[n].op.Ipt? && acts[n].order == rank then [acts[n].op.cmd] else []
  {
    var n := |acts| - 1;
    CmdsOfConcat(OfRank(acts[..n], rank), OneOfRank(acts[n], rank));
    CmdsOfOne(acts[n]);
  }

  lemma {:induction false} NoCmds(acts: Batch, rank: int)
    requires forall i :: 0 <= i < |acts| && acts[i].op.Ipt? ==> acts[i].order != rank
    ensures CmdsAt(acts, rank) == []
  {
    if acts != [] {
      NoCmds(acts[..|acts| - 1], rank);
      CmdsNext(acts, rank);
    }
  }

  /** In order, the commands of the cleaning rank come first, then those of the installing one. */
  lemma {:induction false} CmdsByRank(acts: Batch)
    requires InOrder(acts) && TwoRanks(acts)
    ensures Cmds(acts) == CmdsAt(acts, Teardown(MANGLE_CHAIN)) + CmdsAt(acts, MANGLE_CHAIN)
  {
    if acts != [] {
      var n := |acts| - 1;
      CmdsByRank(acts[..n]);
      CmdsNext(acts, Teardown(MANGLE_CHAIN));
      CmdsNext(acts, MANGLE_CHAIN);
      CmdsOfLast(acts);
      var mine := acts[n].op.Ipt?;
      if mine && acts[n].order == Teardown(MANGLE_CHAIN) {
        NoCmds(acts[..n], MANGLE_CHAIN);
      }
      AppendToEither(CmdsAt(acts[..n], Teardown(MANGLE_CHAIN)), CmdsAt(acts[..n], MANGLE_CHAIN),
                     if mine && acts[n].order == Teardown(MANGLE_CHAIN) then [acts[n].op.cmd] else [],
                     if mine && acts[n].order == MANGLE_CHAIN then [acts[n].op.cmd] else []);
    }
  }

  lemma CmdsOfLast(acts: Batch)
    requires acts != [] && TwoRanks(acts)
    ensures var n := |acts| - 1;
            Cmds(acts) == Cmds(acts[..n]) +
                          ((if acts[n].op.Ipt? && acts[n].order == Teardown(MANGLE_CHAIN) then [acts[n].op.cmd] else []) +
                           (if acts[n].op.Ipt? && acts[n].order == MANGLE_CHAIN then [acts[n].op.cmd] else []))
  {
  }

  lemma AppendToEither<T>(a: seq<T>, b: seq<T>, x: seq<T>, y: seq<T>)
    requires x == [] || (b == [] && y == [])
    ensures a + b + (x + y) == (a + x) + (b + y)
  {
  }

  /** Sorting keeps the commands of each rank in the order they were planned. */
  lemma CmdsOfSorted(acts: Batch)
    requires TwoRanks(acts)
    ensures Cmds(Sorted(acts)) == CmdsAt(acts, Teardown(MANGLE_CHAIN)) + CmdsAt(acts, MANGLE_CHAIN)
  {
    SortedInOrder(acts);
    var t := Sorted(acts);
    forall i | 0 <= i < |t| && t[i].op.Ipt?
      ensures t[i].order == Teardown(MANGLE_CHAIN) || t[i].order == MANGLE_CHAIN
    {
      SortedMembers(acts, t[i]);
      assert acts[IndexOf(acts, t[i])] == t[i];
    }
    CmdsByRank(t);
    SortedIsStable(acts, Teardown(MANGLE_CHAIN));
    SortedIsStable(acts, MANGLE_CHAIN);
  }

  // ----- the commands of a pass ----------------------------------------------------------------------

  lemma CmdsAtConcat(a: Batch, b: Batch, rank: int)
    ensures CmdsAt(a + b, rank) == CmdsAt(a, rank) + CmdsAt(b, rank)
  {
    RankOfConcat(a, b, rank);
    CmdsOfConcat(OfRank(a, rank), OfRank(b, rank));
  }

  lemma {:induction false} CmdsOfIptActs(c: Settings, order: int, cmds: seq<Firewall.IptCommand>, rank: int)
    ensures CmdsAt(IptActs(c, order, cmds), rank) == if rank == order then cmds else []
  {
    var acts := IptActs(c, order, cmds);
    if cmds != [] {
      var n := |cmds| - 1;
      CmdsOfIptActs(c, order, cmds[..n], rank);
      assert acts[..n] == IptActs(c, order, cmds[..n]);
      CmdsNext(acts, rank);
      assert cmds == cmds[..n] + [cmds[n]];
    }
  }

  /** What the iptables resource asks for, rank by rank. */
  lemma CmdsOfMangle(p: Pass, rank: int)
    requires Shaped(p) && Firewall.IptNeedsRestore(IptMarks(p), p.inst.ipt)
    ensures CmdsAt(ActsOf(IptMangle(p.c, IptMarks(p), p.inst)), rank) ==
            if rank == Teardown(MANGLE_CHAIN) then Firewall.IPT_CLEANUP
            else if rank == MANGLE_CHAIN then Firewall.IptInstall(IptMarks(p)) else []
  {
    CmdsOfIptActs(p.c, Teardown(MANGLE_CHAIN), Firewall.IPT_CLEANUP, rank);
    CmdsOfIptActs(p.c, MANGLE_CHAIN, Firewall.IptInstall(IptMarks(p)), rank);
    CmdsAtConcat(CleanupIpt(p.c), IptActs(p.c, MANGLE_CHAIN, Firewall.IptInstall(IptMarks(p))), rank);
  }

  ghost predicate NoIpt(rs: seq<Resource>) {
    forall r, x :: r in rs && x in ActsOf(r) ==> !x.op.Ipt?
  }

  lemma NoIptNoCmds(rs: seq<Resource>, rank: int)
    requires NoIpt(rs)
    ensures CmdsAt(PlanOf(rs), rank) == []
  {
    forall i | 0 <= i < |PlanOf(rs)|
      ensures !PlanOf(rs)[i].op.Ipt?
    {
      PlanMembers(rs, PlanOf(rs)[i]);
    }
    NoCmds(PlanOf(rs), rank);
  }
}
