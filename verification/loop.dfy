/** The whole loop: read the gateways, plan, run, read again. */
module ClosedLoop {
  import opened Common
  import opened Tokens
  import opened Routes
  import opened Gateways
  import opened Kernel
  import opened PlanFacts
  import opened Converge
  import opened Convergence

  // ----- what the default-route listings show --------------------------------------------------

  /** All default routes of a family: everyone else's, with the managed route's lines standing
      somewhere among them. */
  function FullListing(k: Kernel, fam: Fam, w: Wording, at: nat): seq<Fields> {
    var foreign := k.foreign.Of(fam);
    var i := if at <= |foreign| then at else |foreign|;
    foreign[..i] + (match k.own.Of(fam) case None => [] case Some(ns) => Listing(ns, w.full)) + foreign[i..]
  }

  function Reading(t: Tools, at: Both<nat>, k: Kernel, fam: Fam): seq<Observed> {
    ForeignDefaults(FullListing(k, fam, t.w.Of(fam), at.Of(fam)), OwnListing(k, fam, t.w.Of(fam)), t.addresses.Of(fam))
  }

  function ForeignRoutes(t: Tools, k: Kernel, fam: Fam): seq<Observed> {
    DefaultRoutes(k.foreign.Of(fam), t.addresses.Of(fam))
  }

  ghost predicate SoundOwn(k: Kernel, fam: Fam) {
    k.own.Of(fam).Some? ==> SoundHops(k.own.Of(fam).value)
  }

  lemma SubtractNothing(all: seq<Observed>)
    ensures SameHops(Subtracted(all, []), all)
  {
    ForeignRoutesRemain(all, [], all);
  }

  /** Whatever the managed route is, and wherever it is listed, the reading shows the foreign
      routes only. */
  lemma ReadingIsForeign(t: Tools, at: Both<nat>, k: Kernel, fam: Fam)
    requires Sensible(t) && SoundOwn(k, fam)
    ensures SameHops(Reading(t, at, k, fam), ForeignRoutes(t, k, fam))
  {
    var foreign, w := k.foreign.Of(fam), t.w.Of(fam);
    var i := if at.Of(fam) <= |foreign| then at.Of(fam) else |foreign|;
    assert foreign[..i] + foreign[i..] == foreign;
    match k.own.Of(fam) {
      case None =>
        assert foreign[..i] + [] + foreign[i..] == foreign;
        SubtractNothing(ForeignRoutes(t, k, fam));
      case Some(ns) =>
        OwnRouteNeverSeedsItself(foreign[..i], foreign[i..], ns, w.full, w.alone, t.addresses.Of(fam));
    }
  }

  lemma {:induction false} RoutesHaveAddresses(lines: seq<Fields>, addresses: set<string>)
    requires forall a :: a in addresses ==> AddressText(a)
    ensures Addresses(DefaultRoutes(lines, addresses))
  {
    if lines != [] {
      RoutesHaveAddresses(lines[..|lines| - 1], addresses);
    }
  }

  lemma {:induction false} SubtractedHasAddresses(all: seq<Observed>, drop: seq<Observed>)
    requires Addresses(all)
    ensures Addresses(Subtracted(all, drop))
  {
    if all != [] {
      SubtractedHasAddresses(all[..|all| - 1], drop);
    }
  }

  lemma ReadingHasAddresses(t: Tools, at: Both<nat>, k: Kernel, fam: Fam)
    requires Sensible(t)
    ensures Addresses(Reading(t, at, k, fam))
  {
    var all := FullListing(k, fam, t.w.Of(fam), at.Of(fam));
    RoutesHaveAddresses(all, t.addresses.Of(fam));
    SubtractedHasAddresses(DefaultRoutes(all, t.addresses.Of(fam)), DefaultRoutes(OwnListing(k, fam, t.w.Of(fam)), t.addresses.Of(fam)));
  }

  // ----- the gateways a pass arrives at ----------------------------------------------------------

  function GatewaysRead(gateways: map<string, Gateway>, fams: seq<Fam>, readings: Both<seq<Observed>>, weights: Weights,
                        ifaces: map<string, nat>): map<string, Gateway> {
    if fams == [] then gateways
    else
      var n := |fams| - 1;
      Absorbed(GatewaysRead(gateways, fams[..n], readings, weights, ifaces), fams[n], readings.Of(fams[n]), weights, ifaces)
  }

  function Readings(t: Tools, at: Both<nat>, k: Kernel): Both<seq<Observed>> {
    Both(Reading(t, at, k, IPv4), Reading(t, at, k, IPv6))
  }

  ghost predicate AllAgree(gateways: map<string, Gateway>, fams: seq<Fam>, readings: Both<seq<Observed>>, weights: Weights,
                           ifaces: map<string, nat>) {
    forall fam :: fam in fams ==> Agrees(gateways, fam, readings.Of(fam), weights, ifaces)
  }

  ghost predicate AllAddresses(readings: Both<seq<Observed>>) {
    Addresses(readings.v4) && Addresses(readings.v6)
  }

  lemma {:induction false} ReadGatewaysAgree(gateways: map<string, Gateway>, fams: seq<Fam>, readings: Both<seq<Observed>>, weights: Weights,
                                             ifaces: map<string, nat>)
    requires Consistent(gateways) && Distinct(fams) && AllAddresses(readings) && OneNamePerIndex(ifaces)
    ensures Consistent(GatewaysRead(gateways, fams, readings, weights, ifaces))
    ensures AllAgree(GatewaysRead(gateways, fams, readings, weights, ifaces), fams, readings, weights, ifaces)
  {
    if fams != [] {
      var n := |fams| - 1;
      assert fams == fams[..n] + [fams[n]];
      ReadGatewaysAgree(gateways, fams[..n], readings, weights, ifaces);
      var before := GatewaysRead(gateways, fams[..n], readings, weights, ifaces);
      AbsorbKeepsConsistency(before, fams[n], readings.Of(fams[n]), weights, ifaces);
      AbsorbAgrees(before, fams[n], readings.Of(fams[n]), weights, ifaces);
      forall fam | fam in fams[..n]
        ensures Agrees(Absorbed(before, fams[n], readings.Of(fams[n]), weights, ifaces), fam, readings.Of(fam), weights, ifaces)
      {
        assert fam != fams[n];
        OtherFamilyAgrees(before, fams[n], readings.Of(fams[n]), weights, ifaces, fam, readings.Of(fam));
      }
    }
  }

  /** After reading, every gateway of a family read stands on this pass's links. */
  lemma {:induction false} ReadGatewaysMatch(gateways: map<string, Gateway>, fams: seq<Fam>, readings: Both<seq<Observed>>, weights: Weights,
                                             ifaces: map<string, nat>)
    requires Consistent(gateways)
    ensures var after := GatewaysRead(gateways, fams, readings, weights, ifaces);
            && Consistent(after)
            && forall k :: k in after ==>
                 if after[k].fam in fams then after[k].ifName in ifaces && ifaces[after[k].ifName] == after[k].ifIndex
                 else k in gateways && gateways[k] == after[k]
  {
    if fams != [] {
      var n := |fams| - 1;
      assert fams == fams[..n] + [fams[n]];
      ReadGatewaysMatch(gateways, fams[..n], readings, weights, ifaces);
      var before := GatewaysRead(gateways, fams[..n], readings, weights, ifaces);
      AbsorbReplaces(before, fams[n], readings.Of(fams[n]), weights, ifaces);
    }
  }

  /** Reading the same hops again leaves the gateways as they are. */
  lemma {:induction false} SameReadingsSameGateways(gateways: map<string, Gateway>, fams: seq<Fam>, a: Both<seq<Observed>>, b: Both<seq<Observed>>,
                                                    weights: Weights, ifaces: map<string, nat>)
    requires Consistent(gateways) && AllAgree(gateways, fams, a, weights, ifaces)
    requires AllAddresses(b) && OneNamePerIndex(ifaces) && SameHops(a.v4, b.v4) && SameHops(a.v6, b.v6)
    ensures GatewaysRead(gateways, fams, b, weights, ifaces) == gateways
  {
    if fams != [] {
      var n := |fams| - 1;
      assert fams == fams[..n] + [fams[n]];
      SameReadingsSameGateways(gateways, fams[..n], a, b, weights, ifaces);
      NothingNew(gateways, fams[n], a.Of(fams[n]), b.Of(fams[n]), weights, ifaces);
    }
  }

  // ----- the managed route after a pass -------------------------------------------------------------

  lemma OwnAfterPass(p: Pass, k: Kernel, fam: Fam)
    requires Shaped(p) && SoundRoutes(p.inv) && SoundOwn(k, fam)
    ensures SoundOwn(After(p, k), fam)
  {
    ExecutedRuns(p);
    SoundPuts(p, Executed(p), fam);
    SoundPutsKeepSound(k, Executed(p), fam);
  }

  lemma SoundPuts(p: Pass, acts: Batch, fam: Fam)
    requires Runs(p, acts) && SoundRoutes(p.inv)
    ensures forall a :: a in acts && a.op.EcmpPut? && a.op.fam == fam ==> SoundHops(a.op.nexthops)
  {
    forall a | a in acts && a.op.EcmpPut? && a.op.fam == fam
      ensures SoundHops(a.op.nexthops)
    {
      assert Allowed(p, a);
    }
  }

  lemma SoundPutsKeepSound(k: Kernel, acts: Batch, fam: Fam)
    requires SoundOwn(k, fam) && forall a :: a in acts && a.op.EcmpPut? && a.op.fam == fam ==> SoundHops(a.op.nexthops)
    ensures SoundOwn(Run(k, acts), fam)
  {
    RunKeeps(k, acts, (s: Kernel) => SoundOwn(s, fam));
  }

  // ----- the loop ----------------------------------------------------------------------------------------

  /** The pass's gateways were read from the kernel, starting from some consistent set of
      gateways of the families that are read. */
  ghost predicate ReadFrom(p: Pass, t: Tools, at: Both<nat>, k: Kernel, before: map<string, Gateway>) {
    && Consistent(before) && (forall x :: x in before ==> before[x].fam in p.c.rt.observed)
    && Distinct(p.c.rt.observed) && OneNamePerIndex(p.st.ifaces)
    && p.st.gateways == GatewaysRead(before, p.c.rt.observed, Readings(t, at, k), p.c.weights, p.st.ifaces)
  }

  lemma LinksDoMatch(p: Pass, t: Tools, at: Both<nat>, k: Kernel, before: map<string, Gateway>)
    requires ReadFrom(p, t, at, k, before)
    ensures LinksMatch(p.st)
  {
    ReadGatewaysMatch(before, p.c.rt.observed, Readings(t, at, k), p.c.weights, p.st.ifaces);
  }

  /** A pass changes nothing that the next one reads its gateways from. */
  lemma NextGatewaysAreSame(p: Pass, t: Tools, at: Both<nat>, later: Both<nat>, k: Kernel, before: map<string, Gateway>)
    requires Shaped(p) && SoundRoutes(p.inv) && Sensible(t) && ReadFrom(p, t, at, k, before)
    requires SoundOwn(k, IPv4) && SoundOwn(k, IPv6)
    ensures GatewaysRead(p.st.gateways, p.c.rt.observed, Readings(t, later, After(p, k)), p.c.weights, p.st.ifaces) == p.st.gateways
  {
    var a, b := Readings(t, at, k), Readings(t, later, After(p, k));
    ForeignStays(k, Executed(p));
    ReadingsMatch(t, at, later, k, After(p, k), IPv4, p);
    ReadingsMatch(t, at, later, k, After(p, k), IPv6, p);
    ReadGatewaysAgree(before, p.c.rt.observed, a, p.c.weights, p.st.ifaces);
    SameReadingsSameGateways(p.st.gateways, p.c.rt.observed, a, b, p.c.weights, p.st.ifaces);
  }

  lemma ReadingsMatch(t: Tools, at: Both<nat>, later: Both<nat>, k: Kernel, next: Kernel, fam: Fam, p: Pass)
    requires Sensible(t) && Shaped(p) && SoundRoutes(p.inv) && SoundOwn(k, fam)
    requires next == After(p, k) && next.foreign == k.foreign
    ensures SameHops(Reading(t, at, k, fam), Reading(t, later, next, fam))
    ensures Addresses(Reading(t, at, k, fam)) && Addresses(Reading(t, later, next, fam))
  {
    OwnAfterPass(p, k, fam);
    ReadingIsForeign(t, at, k, fam);
    ReadingIsForeign(t, later, next, fam);
    ReadingHasAddresses(t, at, k, fam);
    ReadingHasAddresses(t, later, next, fam);
  }

  /** Closed-loop convergence. From any kernel with no foreign route at a managed metric, the
      managed route at that metric only, unique rule priorities and only the daemon's own jumps to
      its iptables chain (TameKernel), under settings with at most 500 gateways, no empty uplink
      name and no name that is a keyword of the tools (TameSettings, TameState), a pass that
      runs undisturbed is followed by one that arrives at the same gateways and inventory; and
      that one plans nothing if and only if no stale IPv6 table was selected by two fwmark rules,
      no two owners of one nftables name disagree, and no wanted rule had all its textual
      evidence reaped. */
  lemma LoopSettles(p: Pass, q: Pass, t: Tools, at: Both<nat>, later: Both<nat>, k: Kernel, before: map<string, Gateway>)
    requires TamePass(p, t, k) && ReadFrom(p, t, at, k, before) && SoundOwn(k, IPv4) && SoundOwn(k, IPv6)
    requires Sane(q) && q.c == p.c && q.inst == ReadBack(q, t, After(p, k))
    requires q.st == p.st.(gateways := GatewaysRead(p.st.gateways, p.c.rt.observed, Readings(t, later, After(p, k)), p.c.weights, p.st.ifaces))
    ensures q.st == p.st && q.inv == p.inv
    ensures Shaped(q) && (BatchOf(q) == [] <==> OneRulePerStaleTable(p, k.rules.v6) && !NameClash(p.c, p.inv) && AllEvidenced(p, k))
  {
    RoutesAreSound(p);
    LinksDoMatch(p, t, at, k, before);
    NextGatewaysAreSame(p, t, at, later, k, before);
    SecondPassIsQuiet(p, q, t, k);
  }
}
