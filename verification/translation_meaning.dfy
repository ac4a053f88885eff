/** The translation table read as first-match chains: what happens to packets. */
module TranslationMeaning {
  import opened Common
  import opened Bits
  import opened Assign
  import opened Translation

  datatype Packet = Packet(src: Addr, dst: Addr, iif: string, oif: string, isNew: bool)

  datatype Fate = Dropped | Passed(packet: Packet)

  predicate Within(x: Addr, b: Block)
    requires b.len <= 64
  {
    And(x.hi, HighMask(b.len)) == b.hi
  }

  predicate WellSized(rules: seq<Rule>) {
    forall r :: r in rules ==> r.match_.len <= 64
  }

  predicate Matches(r: Rule, p: Packet)
    requires r.match_.len <= 64
  {
    match r
    case Snat(m, oif, _) => p.oif == oif && Within(p.src, m)
    case Dnat(m, iif, _) => p.iif == iif && Within(p.dst, m)
    case DropIn(m, iif) => p.iif == iif && Within(p.dst, m) && p.isNew
    case DropOut(m, oif) => p.oif == oif && Within(p.src, m)
  }

  /** The first rule of a chain that matches decides. */
  function FirstMatch(rules: seq<Rule>, p: Packet): Option<Rule>
    requires WellSized(rules)
  {
    if rules == [] then None
    else if Matches(rules[0], p) then Some(rules[0])
    else FirstMatch(rules[1..], p)
  }

  /** Prefix translation swaps the upper half and keeps the lower one. */
  function Leave(t: Table, p: Packet): Fate
    requires WellSized(t.postrouting) && WellSized(t.guard)
  {
    var hit := FirstMatch(t.postrouting, p);
    var q := if hit.Some? && hit.value.Snat? then p.(src := Addr(hit.value.to.hi, p.src.lo)) else p;
    if FirstMatch(t.guard, q).Some? then Dropped else Passed(q)
  }

  /** The filter chain runs ahead of the translating one. */
  function Enter(t: Table, p: Packet): Fate
    requires WellSized(t.prerouting) && WellSized(t.inbound)
  {
    if FirstMatch(t.inbound, p).Some? then Dropped
    else
      var hit := FirstMatch(t.prerouting, p);
      Passed(if hit.Some? && hit.value.Dnat? then p.(dst := Addr(hit.value.to.hi, p.dst.lo)) else p)
  }

  function LeaveBy(table: Option<Table>, p: Packet): Fate
    requires table.Some? ==> WellSized(table.value.postrouting) && WellSized(table.value.guard)
  {
    if table.None? then Passed(p) else Leave(table.value, p)
  }

  function EnterBy(table: Option<Table>, p: Packet): Fate
    requires table.Some? ==> WellSized(table.value.prerouting) && WellSized(table.value.inbound)
  {
    if table.None? then Passed(p) else Enter(table.value, p)
  }

  // ----- chains -----------------------------------------------------------------------------

  lemma {:induction false} FirstMatchMeans(rules: seq<Rule>, p: Packet)
    requires WellSized(rules)
    ensures match FirstMatch(rules, p)
            case None => forall r :: r in rules ==> !Matches(r, p)
            case Some(r) => r in rules && Matches(r, p)
  {
    if rules != [] {
      FirstMatchMeans(rules[1..], p);
      assert rules == [rules[0]] + rules[1..];
    }
  }

  predicate Hits(a: Assignment, p: Packet) {
    a.uplink == p.oif && a.internal.hi == p.src.hi
  }

  /** The first assignment, in priority order, that maps the packet's source on its way out. */
  function FirstHit(list: seq<Assignment>, p: Packet): Option<Assignment> {
    if list == [] then None
    else if Hits(list[0], p) then Some(list[0])
    else FirstHit(list[1..], p)
  }

  lemma {:induction false} FirstHitMeans(list: seq<Assignment>, p: Packet)
    ensures match FirstHit(list, p)
            case None => forall a :: a in list ==> !Hits(a, p)
            case Some(a) => a in list && Hits(a, p)
  {
    if list != [] {
      FirstHitMeans(list[1..], p);
      assert list == [list[0]] + list[1..];
    }
  }

  lemma WithinNet(x: Addr, b: Block)
    requires x.hi < Pow2(64) && b.len == 64
    ensures Within(x, b) <==> x.hi == b.hi
  {
    FullMask(x.hi, 64, HighMask(b.len));
  }

  lemma FullMask(a: nat, n: nat, mask: nat)
    requires a < Pow2(n) && mask + 1 == Pow2(n)
    ensures And(a, mask) == a
  {
    AndAllOnes(a, n);
  }

  lemma SourceRulesStep(list: seq<Assignment>)
    requires list != []
    ensures SourceRules(list) == [SourceRule(list[0])] + SourceRules(list[1..])
  {
  }

  lemma FirstMatchStep(r: Rule, rules: seq<Rule>, p: Packet)
    requires r.match_.len <= 64 && WellSized(rules)
    ensures WellSized([r] + rules)
    ensures FirstMatch([r] + rules, p) == if Matches(r, p) then Some(r) else FirstMatch(rules, p)
  {
    assert ([r] + rules)[1..] == rules;
  }

  lemma SourceRuleMatches(a: Assignment, p: Packet)
    requires p.src.hi < Pow2(64) && a.internal.len == 64
    ensures Matches(SourceRule(a), p) <==> Hits(a, p)
  {
    WithinNet(p.src, a.internal);
  }

  lemma {:induction false} SourceRulesHit(list: seq<Assignment>, p: Packet)
    requires p.src.hi < Pow2(64) && forall a :: a in list ==> a.internal.len == 64
    ensures WellSized(SourceRules(list))
    ensures FirstMatch(SourceRules(list), p) ==
            match FirstHit(list, p) case None => None case Some(a) => Some(SourceRule(a))
  {
    if list != [] {
      SourceRulesHit(list[1..], p);
      SourceRulesStep(list);
      FirstMatchStep(SourceRule(list[0]), SourceRules(list[1..]), p);
      SourceRuleMatches(list[0], p);
    }
  }

  lemma GuardRulesHit(internal: Block, guards: seq<string>, q: Packet)
    requires internal.len <= 64
    ensures WellSized(GuardRules(internal, guards))
    ensures FirstMatch(GuardRules(internal, guards), q).Some? <==> q.oif in guards && Within(q.src, internal)
  {
    var rules := GuardRules(internal, guards);
    FirstMatchMeans(rules, q);
    if q.oif in guards && Within(q.src, internal) {
      var i :| 0 <= i < |guards| && guards[i] == q.oif;
      assert rules[i] in rules && Matches(rules[i], q);
    }
  }

  // ----- what Resolve and the leases guarantee ---------------------------------------------------

  /** The prefixes of a resolved configuration: subnets are /64s inside the internal prefix. */
  ghost predicate Resolved(o: Options) {
    && DistinctNames(o.uplinks)
    && o.internal.Some? && o.internal.value.len <= 64
    && forall k :: k in o.subnets ==>
         && o.subnets[k].len == 64 && o.subnets[k].hi < Pow2(64)
         && Within(Addr(o.subnets[k].hi, 0), o.internal.value)
  }

  ghost predicate Configured(o: Options, leases: map<string, Lease>, active: set<string>, list: seq<Assignment>) {
    && Resolved(o) && Valid64(leases)
    && list == AssignedAll(o, o.uplinks, leases, active)
  }

  lemma {:induction false} InternalsAreSubnets(o: Options, uplinks: seq<Uplink>, leases: map<string, Lease>, active: set<string>)
    ensures forall a :: a in AssignedAll(o, uplinks, leases, active) ==>
              a.subnet in o.subnets && a.internal == o.subnets[a.subnet]
  {
    if uplinks != [] {
      InternalsAreSubnets(o, uplinks[..|uplinks| - 1], leases, active);
    }
  }

  lemma ConfiguredFacts(o: Options, leases: map<string, Lease>, active: set<string>, list: seq<Assignment>)
    requires Configured(o, leases, active, list)
    ensures Sliced(list, leases)
    ensures forall a :: a in list ==> a.internal.len == 64 && a.external.len == 64
    ensures forall a :: a in list ==> Within(Addr(a.internal.hi, 0), o.internal.value)
  {
    AllUplinksAreSliced(o, o.uplinks, leases, active);
    InternalsAreSubnets(o, o.uplinks, leases, active);
    forall a | a in list
      ensures a.internal.len == 64 && a.external.len == 64
    {
      var i :| 0 <= i < |list| && list[i] == a;
    }
  }

  lemma TableIsSized(o: Options, list: seq<Assignment>)
    requires o.internal.Some? && o.internal.value.len <= 64
    requires forall a :: a in list ==> a.internal.len == 64 && a.external.len == 64
    ensures TableFor(o, list).Some? ==>
              var t := TableFor(o, list).value;
              WellSized(t.prerouting) && WellSized(t.postrouting) && WellSized(t.inbound) && WellSized(t.guard)
  {
    if TableFor(o, list).Some? {
      var t := TableFor(o, list).value;
      forall r | r in t.prerouting || r in t.inbound
        ensures r.match_.len <= 64
      {
        InboundMembers(o, list, true, r);
        InboundMembers(o, list, false, r);
      }
      forall r | r in t.postrouting
        ensures r.match_.len <= 64
      {
        var i :| 0 <= i < |list| && r == SourceRule(list[i]);
        assert list[i] in list;
      }
    }
  }

  // ----- outbound ---------------------------------------------------------------------------------

  lemma GuardedUplinks(o: Options, list: seq<Assignment>, u: string)
    requires o.internal.Some? && exists i :: 0 <= i < |o.uplinks| && o.uplinks[i].name == u
    ensures u in Guards(o, list) <==> o.leakProtection && !Translates(list, u)
  {
    GuardsAreUplinks(o.uplinks, list, u);
  }

  ghost predicate SubnetSized(o: Options, list: seq<Assignment>) {
    && o.internal.Some? && o.internal.value.len <= 64
    && forall a :: a in list ==> a.internal.len == 64 && a.external.len == 64
  }

  lemma MappedFate(o: Options, list: seq<Assignment>, p: Packet)
    requires SubnetSized(o, list) && p.src.hi < Pow2(64) && FirstHit(list, p).Some?
    ensures TableFor(o, list).Some? && WellSized(TableFor(o, list).value.postrouting) && WellSized(TableFor(o, list).value.guard)
    ensures LeaveBy(TableFor(o, list), p) == Passed(p.(src := Addr(FirstHit(list, p).value.external.hi, p.src.lo)))
  {
    TableIsSized(o, list);
    SourceRulesHit(list, p);
    FirstHitMeans(list, p);
    var a := FirstHit(list, p).value;
    var i :| 0 <= i < |list| && list[i] == a;
    var q := p.(src := Addr(a.external.hi, p.src.lo));
    if o.leakProtection {
      GuardsAreUplinks(o.uplinks, list, p.oif);
    }
    GuardRulesHit(o.internal.value, Guards(o, list), q);
  }

  lemma TranslatesMeans(list: seq<Assignment>, uplink: string)
    ensures Translates(list, uplink) <==> exists a :: a in list && a.uplink == uplink
  {
    if a :| a in list && a.uplink == uplink {
      var i :| 0 <= i < |list| && list[i] == a;
    }
  }

  lemma UnmappedFate(o: Options, list: seq<Assignment>, p: Packet)
    requires SubnetSized(o, list) && p.src.hi < Pow2(64) && FirstHit(list, p).None? && Within(p.src, o.internal.value)
    requires exists i :: 0 <= i < |o.uplinks| && o.uplinks[i].name == p.oif
    ensures TableFor(o, list).Some? ==> WellSized(TableFor(o, list).value.postrouting) && WellSized(TableFor(o, list).value.guard)
    ensures LeaveBy(TableFor(o, list), p) ==
            if o.leakProtection && (forall a :: a in list ==> a.uplink != p.oif) then Dropped else Passed(p)
  {
    TranslatesMeans(list, p.oif);
    TableIsSized(o, list);
    SourceRulesHit(list, p);
    GuardedUplinks(o, list, p.oif);
    GuardRulesHit(o.internal.value, Guards(o, list), p);
  }

  lemma IntoTheDelegation(list: seq<Assignment>, leases: map<string, Lease>, p: Packet)
    requires Sliced(list, leases)
    ensures FirstHit(list, p).Some? ==>
              && p.oif in leases && 0 < leases[p.oif].length <= 64
              && And(FirstHit(list, p).value.external.hi, HighMask(leases[p.oif].length)) ==
                 And(leases[p.oif].prefix.hi, HighMask(leases[p.oif].length))
  {
    FirstHitMeans(list, p);
    if FirstHit(list, p).Some? {
      var i :| 0 <= i < |list| && list[i] == FirstHit(list, p).value;
    }
  }

  /** Every internally sourced packet leaving a configured uplink has exactly one fate: the
      first assignment that maps its source rewrites it into the uplink's delegation and
      keeps the low half; failing that it is dropped when the uplink maps nothing and leak
      protection is on; failing that it passes unchanged. */
  lemma OutboundFate(o: Options, leases: map<string, Lease>, active: set<string>, list: seq<Assignment>, p: Packet)
    requires Configured(o, leases, active, list)
    requires p.src.hi < Pow2(64) && Within(p.src, o.internal.value)
    requires exists i :: 0 <= i < |o.uplinks| && o.uplinks[i].name == p.oif
    ensures TableFor(o, list).Some? ==> WellSized(TableFor(o, list).value.postrouting) && WellSized(TableFor(o, list).value.guard)
    ensures LeaveBy(TableFor(o, list), p) ==
            (match FirstHit(list, p)
             case Some(a) => Passed(p.(src := Addr(a.external.hi, p.src.lo)))
             case None => if o.leakProtection && (forall a :: a in list ==> a.uplink != p.oif) then Dropped else Passed(p))
    ensures FirstHit(list, p).Some? ==>
              && p.oif in leases && 0 < leases[p.oif].length <= 64
              && And(FirstHit(list, p).value.external.hi, HighMask(leases[p.oif].length)) ==
                 And(leases[p.oif].prefix.hi, HighMask(leases[p.oif].length))
  {
    ConfiguredFacts(o, leases, active, list);
    IntoTheDelegation(list, leases, p);
    TableIsSized(o, list);
    match FirstHit(list, p) {
      case None => UnmappedFate(o, list, p);
      case Some(a) => MappedFate(o, list, p);
    }
  }

  /** Traffic from outside the internal prefix is neither rewritten nor dropped on its way out. */
  lemma ForeignSourcePasses(o: Options, leases: map<string, Lease>, active: set<string>, list: seq<Assignment>, p: Packet)
    requires Configured(o, leases, active, list)
    requires p.src.hi < Pow2(64) && !Within(p.src, o.internal.value)
    ensures TableFor(o, list).Some? ==> WellSized(TableFor(o, list).value.postrouting) && WellSized(TableFor(o, list).value.guard)
    ensures LeaveBy(TableFor(o, list), p) == Passed(p)
  {
    ConfiguredFacts(o, leases, active, list);
    TableIsSized(o, list);
    SourceRulesHit(list, p);
    FirstHitMeans(list, p);
    GuardRulesHit(o.internal.value, Guards(o, list), p);
  }

  lemma SameExternalSameAssignment(list: seq<Assignment>, leases: map<string, Lease>, a: Assignment, b: Assignment)
    requires Sliced(list, leases) && a in list && b in list && a.uplink == b.uplink && a.external.hi == b.external.hi
    ensures a == b
  {
    var i :| 0 <= i < |list| && list[i] == a;
    var j :| 0 <= j < |list| && list[j] == b;
    assert a.external == b.external;
  }

  /** Per uplink, source rewriting never merges two sources. */
  lemma SourceRewritingIsInjective(o: Options, leases: map<string, Lease>, active: set<string>, list: seq<Assignment>,
                                   p: Packet, q: Packet)
    requires Configured(o, leases, active, list)
    requires p.oif == q.oif && FirstHit(list, p).Some? && FirstHit(list, q).Some?
    requires Addr(FirstHit(list, p).value.external.hi, p.src.lo) == Addr(FirstHit(list, q).value.external.hi, q.src.lo)
    ensures p.src == q.src
  {
    ConfiguredFacts(o, leases, active, list);
    FirstHitMeans(list, p);
    FirstHitMeans(list, q);
    SameExternalSameAssignment(list, leases, FirstHit(list, p).value, FirstHit(list, q).value);
  }

  // ----- inbound -----------------------------------------------------------------------------------

  /** An uplink is open as it is configured; one that is not configured is closed. */
  lemma OpenAsConfigured(o: Options, name: string)
    requires DistinctNames(o.uplinks)
    ensures AllowsInbound(o, name) <==> exists u :: u in o.uplinks && u.name == name && u.allowInbound
  {
    NamedMeans(o.uplinks, name);
    if u :| u in o.uplinks && u.name == name && u.allowInbound {
      var i :| 0 <= i < |o.uplinks| && o.uplinks[i] == u;
      NamedIsListed(o.uplinks, i);
    }
  }

  lemma {:induction false} NamedMeans(uplinks: seq<Uplink>, name: string)
    ensures UplinkNamed(uplinks, name).Some? ==> UplinkNamed(uplinks, name).value in uplinks && UplinkNamed(uplinks, name).value.name == name
  {
    if uplinks != [] {
      NamedMeans(uplinks[1..], name);
    }
  }

  /** On an uplink configured to allow it, what comes back to a rewritten source reaches the source
      itself. */
  lemma InboundUndoesOutbound(o: Options, leases: map<string, Lease>, active: set<string>, list: seq<Assignment>,
                              p: Packet, back: Packet)
    requires Configured(o, leases, active, list)
    requires (exists u :: u in o.uplinks && u.name == p.oif && u.allowInbound) && back.iif == p.oif && p.src.hi < Pow2(64)
    requires FirstHit(list, p).Some? && back.dst == Addr(FirstHit(list, p).value.external.hi, p.src.lo)
    ensures TableFor(o, list).Some? && WellSized(TableFor(o, list).value.prerouting) && WellSized(TableFor(o, list).value.inbound)
    ensures EnterBy(TableFor(o, list), back) == Passed(back.(dst := p.src))
  {
    OpenAsConfigured(o, p.oif);
    ConfiguredFacts(o, leases, active, list);
    TableIsSized(o, list);
    FirstHitMeans(list, p);
    var a := FirstHit(list, p).value;
    var t := TableFor(o, list).value;
    FirstMatchMeans(t.inbound, back);
    forall r | r in t.inbound
      ensures !Matches(r, back)
    {
      InboundMembers(o, list, false, r);
    }
    FirstMatchMeans(t.prerouting, back);
    InboundMembers(o, list, true, InboundRule(o, a));
    var i :| 0 <= i < |list| && list[i] == a;
    WithinNet(back.dst, a.external);
    assert Matches(InboundRule(o, a), back);
    var r := FirstMatch(t.prerouting, back).value;
    InboundMembers(o, list, true, r);
    var b :| b in list && AllowsInbound(o, b.uplink) && r == InboundRule(o, b);
    WithinNet(back.dst, b.external);
    SameExternalSameAssignment(list, leases, a, b);
  }

  lemma NothingIsForwarded(o: Options, list: seq<Assignment>, p: Packet)
    requires !AllowsInbound(o, p.iif) && WellSized(InboundRules(o, list, true))
    ensures FirstMatch(InboundRules(o, list, true), p).None?
  {
    var rules := InboundRules(o, list, true);
    FirstMatchMeans(rules, p);
    if FirstMatch(rules, p).Some? {
      InboundMembers(o, list, true, FirstMatch(rules, p).value);
      assert false;
    }
  }

  lemma NewConnectionsAreDropped(o: Options, list: seq<Assignment>, p: Packet)
    requires !AllowsInbound(o, p.iif) && p.dst.hi < Pow2(64) && WellSized(InboundRules(o, list, false))
    requires forall a :: a in list ==> a.external.len == 64
    ensures FirstMatch(InboundRules(o, list, false), p).Some? <==>
            p.isNew && exists a :: a in list && a.uplink == p.iif && a.external.hi == p.dst.hi
  {
    var rules := InboundRules(o, list, false);
    FirstMatchMeans(rules, p);
    forall a | a in list && a.uplink == p.iif
      ensures InboundRule(o, a) in rules
      ensures Matches(InboundRule(o, a), p) <==> p.isNew && a.external.hi == p.dst.hi
    {
      InboundMembers(o, list, false, InboundRule(o, a));
      WithinNet(p.dst, a.external);
    }
    if FirstMatch(rules, p).Some? {
      var r := FirstMatch(rules, p).value;
      InboundMembers(o, list, false, r);
      var a :| a in list && !AllowsInbound(o, a.uplink) && r == InboundRule(o, a);
      assert a.uplink == p.iif;
    }
  }

  /** On an uplink that is not configured to allow it no packet gains a new destination, and a new
      connection to a mapped address is dropped. */
  lemma ClosedUplinksStayClosed(o: Options, leases: map<string, Lease>, active: set<string>, list: seq<Assignment>, p: Packet)
    requires Configured(o, leases, active, list)
    requires (forall u :: u in o.uplinks && u.name == p.iif ==> !u.allowInbound) && p.dst.hi < Pow2(64)
    ensures TableFor(o, list).Some? ==> WellSized(TableFor(o, list).value.prerouting) && WellSized(TableFor(o, list).value.inbound)
    ensures EnterBy(TableFor(o, list), p) ==
            if p.isNew && exists a :: a in list && a.uplink == p.iif && a.external.hi == p.dst.hi then Dropped else Passed(p)
  {
    OpenAsConfigured(o, p.iif);
    ConfiguredFacts(o, leases, active, list);
    TableIsSized(o, list);
    if TableFor(o, list).Some? {
      NothingIsForwarded(o, list, p);
      NewConnectionsAreDropped(o, list, p);
    }
  }
}
