/** Delegated prefixes: attributing observations to uplinks, and the leases the daemon holds. */
module Leases {
  import opened Common
  import opened Bits
  import opened Assign

  datatype Net = Net(addr: Addr, len: nat)

  predicate Contains(net: Net, x: Addr) {
    if net.len <= 64 then And(x.hi, HighMask(net.len)) == And(net.addr.hi, HighMask(net.len))
    else
      && x.hi == net.addr.hi
      && (net.len > 128 || And(x.lo, HighMask(net.len - 64)) == And(net.addr.lo, HighMask(net.len - 64)))
  }

  datatype Kind = FromRoute | FromAdvertisement

  datatype Observation = Observation(kind: Kind, prefix: Addr, length: int, ifName: string, withdraw: bool)

  /** A lease with the uplink it is for and the name of the source that found it. */
  datatype Held = Held(uplink: string, lease: Lease, source: string)

  datatype Change = Change(held: Held, gone: bool)

  /** Two leases are the same when prefix and length are, whoever found them. */
  predicate SameAs(a: Held, b: Held) {
    a.lease == b.lease
  }

  datatype Source =
    | Netlink(iface: string, match_: Option<Net>, kind: Kind, name: string,
              requireRoutable: bool, requireIface: bool, seedAfterWithdraw: bool)
    | Static(iface: string, net: Net)

  function RouteSource(iface: string, match_: Option<Net>): Source {
    Netlink(iface, match_, FromRoute, "route", true, false, true)
  }

  function AdvertisementSource(iface: string, match_: Option<Net>): Source {
    Netlink(iface, match_, FromAdvertisement, "ra", false, true, false)
  }

  const TWO_61: nat := 0x2000_0000_0000_0000

  /** Inside 2000::/3. */
  predicate GloballyRoutable(x: Addr) {
    TWO_61 <= x.hi < 2 * TWO_61
  }

  function Attribute(s: Source, o: Observation): Option<Change> {
    if s.Static? || o.kind != s.kind then None
    else if s.requireIface && o.ifName != s.iface then None
    else if s.requireRoutable && !GloballyRoutable(o.prefix) then None
    else if s.match_.Some? && !Contains(s.match_.value, o.prefix) then None
    else Some(Change(Held(s.iface, Lease(o.prefix, o.length), s.name), o.withdraw))
  }

  /** What a source knows without observing anything. */
  function Standing(s: Source): Option<Held> {
    if s.Static? then Some(Held(s.iface, Lease(s.net.addr, s.net.len), "static")) else None
  }

  predicate Seedable(s: Source, withdrawn: bool) {
    s.Static? || s.seedAfterWithdraw || !withdrawn
  }

  predicate IsWithdrawn(withdrawn: map<string, bool>, uplink: string) {
    uplink in withdrawn && withdrawn[uplink]
  }

  /** The last observation that is the source's and still stands. */
  function Chosen(s: Source, obs: seq<Observation>): Option<Held> {
    if obs == [] then None
    else
      var n := |obs| - 1;
      var c := Attribute(s, obs[n]);
      if c.Some? && !c.value.gone then Some(c.value.held) else Chosen(s, obs[..n])
  }

  function AttributedTo(s: Source, obs: seq<Observation>, withdrawn: map<string, bool>): Option<Held> {
    if Standing(s).Some? then Standing(s)
    else if !Seedable(s, IsWithdrawn(withdrawn, s.iface)) then None
    else Chosen(s, obs)
  }

  function Attributed(ss: seq<Source>, obs: seq<Observation>, withdrawn: map<string, bool>): map<string, Held> {
    if ss == [] then map[]
    else
      var n := |ss| - 1;
      var before := Attributed(ss[..n], obs, withdrawn);
      var held := AttributedTo(ss[n], obs, withdrawn);
      if held.None? then before else before[ss[n].iface := held.value]
  }

  method Choose(s: Source, obs: seq<Observation>) returns (chosen: Option<Held>)
    ensures chosen == Chosen(s, obs)
  {
    chosen := None;
    for i := 0 to |obs|
      invariant chosen == Chosen(s, obs[..i])
    {
      assert obs[..i + 1][..i] == obs[..i];
      var c := Attribute(s, obs[i]);
      if c.None? || c.value.gone {
        continue;
      }
      chosen := Some(c.value.held);
    }
    assert obs[..|obs|] == obs;
  }

  method AttributeAll(ss: seq<Source>, obs: seq<Observation>, withdrawn: map<string, bool>) returns (out: map<string, Held>)
    ensures out == Attributed(ss, obs, withdrawn)
  {
    out := map[];
    for i := 0 to |ss|
      invariant out == Attributed(ss[..i], obs, withdrawn)
    {
      var s := ss[i];
      assert ss[..i + 1][..i] == ss[..i];
      var standing := Standing(s);
      if standing.Some? {
        out := out[s.iface := standing.value];
        continue;
      }
      if !Seedable(s, IsWithdrawn(withdrawn, s.iface)) {
        continue;
      }
      var chosen := Choose(s, obs);
      if chosen.Some? {
        out := out[s.iface := chosen.value];
      }
    }
    assert ss[..|ss|] == ss;
  }

  // ----- the leases held --------------------------------------------------------------------

  function Recorded(leases: map<string, Held>, c: Change): map<string, Held> {
    var u := c.held.uplink;
    var same := u in leases && SameAs(leases[u], c.held);
    if c.gone then if same then leases - {u} else leases
    else if same then leases else leases[u := c.held]
  }

  /** A lease that was already held is kept as it is. */
  function Adopted(leases: map<string, Held>, seen: map<string, Held>): map<string, Held> {
    map u | u in seen :: if u in leases && SameAs(leases[u], seen[u]) then leases[u] else seen[u]
  }

  ghost predicate Keyed(leases: map<string, Held>) {
    forall u :: u in leases ==> leases[u].uplink == u
  }

  class LeaseBook {
    var leases: map<string, Held>
    var withdrawn: map<string, bool>

    constructor ()
      ensures leases == map[] && withdrawn == map[]
    {
      leases, withdrawn := map[], map[];
    }

    method RecordLease(c: Change) returns (prev: Option<Held>, changed: bool)
      modifies this`leases
      ensures leases == Recorded(old(leases), c)
      ensures prev == if c.held.uplink in old(leases) then Some(old(leases)[c.held.uplink]) else None
      ensures changed <==> leases != old(leases)
      ensures forall u :: u != c.held.uplink ==>
                (u in leases <==> u in old(leases)) && (u in leases ==> leases[u] == old(leases)[u])
      ensures c.gone ==> (c.held.uplink in leases <==> c.held.uplink in old(leases) && old(leases)[c.held.uplink].lease != c.held.lease)
      ensures !c.gone ==> c.held.uplink in leases && leases[c.held.uplink].lease == c.held.lease
    {
      var u := c.held.uplink;
      prev := if u in leases then Some(leases[u]) else None;
      if c.gone {
        if prev.None? || !SameAs(prev.value, c.held) {
          return prev, false;
        }
        leases := leases - {u};
        return prev, true;
      }
      if prev.Some? && SameAs(prev.value, c.held) {
        return prev, false;
      }
      leases := leases[u := c.held];
      assert u in old(leases) ==> old(leases)[u] != c.held;
      return prev, true;
    }

    /** A wire event is remembered besides being recorded. */
    method HandleLeaseWire(c: Change)
      modifies this
      ensures withdrawn == old(withdrawn)[c.held.uplink := c.gone]
      ensures leases == Recorded(old(leases), c)
    {
      withdrawn := withdrawn[c.held.uplink := c.gone];
      var prev, changed := RecordLease(c);
    }

    /** Forgets what is no longer attributed, then records what is. */
    method AbsorbLeases(ss: seq<Source>, obs: seq<Observation>)
      requires Keyed(leases)
      modifies this`leases
      ensures leases == Adopted(old(leases), Attributed(ss, obs, withdrawn))
      ensures leases.Keys == Attributed(ss, obs, withdrawn).Keys
      ensures forall u :: u in leases ==>
                var seen := Attributed(ss, obs, withdrawn)[u];
                leases[u] == if u in old(leases) && old(leases)[u].lease == seen.lease then old(leases)[u] else seen
    {
      var seen := AttributeAll(ss, obs, withdrawn);
      AttributedIsKeyed(ss, obs, withdrawn);
      DropGone(seen);
      ghost var kept := leases;
      for i := 0 to |ss|
        invariant leases == Midway(kept, seen, Ifaces(ss[..i]))
      {
        var u := ss[i].iface;
        assert ss[..i + 1] == ss[..i] + [ss[i]];
        assert Ifaces(ss[..i + 1]) == Ifaces(ss[..i]) + {u};
        MidwayNext(kept, seen, Ifaces(ss[..i]), u);
        if u in seen {
          var prev, changed := RecordLease(Change(seen[u], false));
        }
      }
      assert ss[..|ss|] == ss;
    }

    method DropGone(seen: map<string, Held>)
      requires Keyed(leases)
      modifies this`leases
      ensures leases == map u | u in old(leases) && u in seen :: old(leases)[u]
    {
      var was := leases;
      var keys := Enumerate(was.Keys);
      for i := 0 to |keys|
        invariant forall u :: u in leases <==> u in was && (u in seen || u in Range(keys[i..]))
        invariant forall u :: u in leases ==> leases[u] == was[u]
      {
        assert keys[i..] == [keys[i]] + keys[i + 1..];
        assert keys[i] in Range(keys) && keys[i] !in Range(keys[i + 1..]);
        if keys[i] !in seen {
          var prev, changed := RecordLease(Change(was[keys[i]], true));
        }
      }
    }
  }

  function Ifaces(ss: seq<Source>): set<string> {
    set s | s in ss :: s.iface
  }

  /** Adopted for the uplinks done so far. */
  function Midway(kept: map<string, Held>, seen: map<string, Held>, done: set<string>): map<string, Held> {
    map u | u in seen && (u in kept || u in done) :: if u in done then AdoptedOne(kept, seen, u) else kept[u]
  }

  lemma MidwayNext(kept: map<string, Held>, seen: map<string, Held>, done: set<string>, u: string)
    requires Keyed(seen)
    ensures Midway(kept, seen, done + {u}) ==
            if u in seen then Recorded(Midway(kept, seen, done), Change(seen[u], false)) else Midway(kept, seen, done)
  {
  }

  function AdoptedOne(leases: map<string, Held>, seen: map<string, Held>, u: string): Held
    requires u in seen
  {
    if u in leases && SameAs(leases[u], seen[u]) then leases[u] else seen[u]
  }

  lemma {:induction false} ChosenIsOwn(s: Source, obs: seq<Observation>)
    ensures Chosen(s, obs).Some? ==>
              && Chosen(s, obs).value.uplink == s.iface
              && exists o :: o in obs && Attribute(s, o) == Some(Change(Chosen(s, obs).value, false))
  {
    if obs != [] {
      var n := |obs| - 1;
      assert obs == obs[..n] + [obs[n]];
      ChosenIsOwn(s, obs[..n]);
    }
  }

  lemma {:induction false} AttributedIsKeyed(ss: seq<Source>, obs: seq<Observation>, withdrawn: map<string, bool>)
    ensures Keyed(Attributed(ss, obs, withdrawn))
    ensures forall u :: u in Attributed(ss, obs, withdrawn) ==> u in Ifaces(ss)
  {
    if ss != [] {
      var n := |ss| - 1;
      assert ss == ss[..n] + [ss[n]];
      AttributedIsKeyed(ss[..n], obs, withdrawn);
      ChosenIsOwn(ss[n], obs);
    }
  }

  // ----- whole runs -----------------------------------------------------------------------------

  datatype PrefixState = PrefixState(leases: map<string, Held>, withdrawn: map<string, bool>)

  datatype Event = Wire(change: Change) | Pass(obs: seq<Observation>)

  function After(st: PrefixState, ss: seq<Source>, events: seq<Event>): PrefixState {
    if events == [] then st
    else
      var n := |events| - 1;
      var before := After(st, ss, events[..n]);
      match events[n]
      case Wire(c) => PrefixState(Recorded(before.leases, c), before.withdrawn[c.held.uplink := c.gone])
      case Pass(obs) => before.(leases := Adopted(before.leases, Attributed(ss, obs, before.withdrawn)))
  }

  /** The last wire event for an uplink; None when there was none. */
  function LastWire(events: seq<Event>, uplink: string): Option<bool> {
    if events == [] then None
    else
      var n := |events| - 1;
      if events[n].Wire? && events[n].change.held.uplink == uplink then Some(events[n].change.gone)
      else LastWire(events[..n], uplink)
  }

  /** A wire event for an uplink: an announcement is held from then on, a withdrawal drops the lease it
      names and no other; other uplinks are untouched, and the event is remembered. */
  lemma WireExactly(st: PrefixState, ss: seq<Source>, events: seq<Event>, c: Change)
    ensures var before, after := After(st, ss, events), After(st, ss, events + [Wire(c)]);
            var u := c.held.uplink;
            && after.withdrawn == before.withdrawn[u := c.gone]
            && (forall v :: v != u ==> (v in after.leases <==> v in before.leases) && (v in after.leases ==> after.leases[v] == before.leases[v]))
            && (c.gone ==> (u in after.leases <==> u in before.leases && before.leases[u].lease != c.held.lease))
            && (c.gone && u in after.leases ==> after.leases[u] == before.leases[u])
            && (!c.gone ==> u in after.leases && after.leases[u].lease == c.held.lease)
  {
    var all := events + [Wire(c)];
    assert all[..|all| - 1] == events;
  }

  /** The withdrawn flags are the last wire events. */
  lemma {:induction false} FlagsAreLastWires(st: PrefixState, ss: seq<Source>, events: seq<Event>, uplink: string)
    ensures IsWithdrawn(After(st, ss, events).withdrawn, uplink) ==
            match LastWire(events, uplink) case None => IsWithdrawn(st.withdrawn, uplink) case Some(gone) => gone
  {
    if events != [] {
      FlagsAreLastWires(st, ss, events[..|events| - 1], uplink);
    }
  }

  /** The same prefix and length for the same uplinks. */
  ghost predicate SameLeases(a: map<string, Held>, b: map<string, Held>) {
    a.Keys == b.Keys && forall u :: u in a ==> a[u].lease == b[u].lease
  }

  /** After any events and one pass the leases are those attributed from that pass's
      observations and the flags, whatever was held before. */
  lemma LeasesAreAttributed(st: PrefixState, ss: seq<Source>, events: seq<Event>, obs: seq<Observation>)
    ensures SameLeases(After(st, ss, events + [Pass(obs)]).leases, Attributed(ss, obs, After(st, ss, events).withdrawn))
  {
    var all := events + [Pass(obs)];
    assert all[..|all| - 1] == events;
  }

  lemma {:induction false} OnlyFlagsMatter(ss: seq<Source>, obs: seq<Observation>, a: map<string, bool>, b: map<string, bool>)
    requires forall u :: IsWithdrawn(a, u) == IsWithdrawn(b, u)
    ensures Attributed(ss, obs, a) == Attributed(ss, obs, b)
  {
    if ss != [] {
      OnlyFlagsMatter(ss[..|ss| - 1], obs, a, b);
    }
  }

  /** Two runs that end in the same pass hold the same leases when their last wire events agree,
      however they started and whatever passes came before. */
  lemma HistoryIsForgotten(s: PrefixState, t: PrefixState, ss: seq<Source>, d: seq<Event>, e: seq<Event>, obs: seq<Observation>)
    requires forall u :: IsWithdrawn(s.withdrawn, u) == IsWithdrawn(t.withdrawn, u)
    requires forall u :: LastWire(d, u) == LastWire(e, u)
    ensures SameLeases(After(s, ss, d + [Pass(obs)]).leases, After(t, ss, e + [Pass(obs)]).leases)
  {
    LeasesAreAttributed(s, ss, d, obs);
    LeasesAreAttributed(t, ss, e, obs);
    forall u
      ensures IsWithdrawn(After(s, ss, d).withdrawn, u) == IsWithdrawn(After(t, ss, e).withdrawn, u)
    {
      FlagsAreLastWires(s, ss, d, u);
      FlagsAreLastWires(t, ss, e, u);
    }
    OnlyFlagsMatter(ss, obs, After(s, ss, d).withdrawn, After(t, ss, e).withdrawn);
  }

  /** With one source per uplink an attributed lease is either configured or the last standing
      observation that matches the source, and an advertised prefix that was withdrawn on the
      wire is not taken up again from what is still observed. */
  lemma {:induction false} AttributionPerUplink(ss: seq<Source>, obs: seq<Observation>, withdrawn: map<string, bool>, i: nat)
    requires i < |ss| && forall j, k :: 0 <= j < k < |ss| ==> ss[j].iface != ss[k].iface
    ensures var out := Attributed(ss, obs, withdrawn);
            && (ss[i].iface in out <==> AttributedTo(ss[i], obs, withdrawn).Some?)
            && (ss[i].iface in out ==> out[ss[i].iface] == AttributedTo(ss[i], obs, withdrawn).value)
    ensures ss[i].Netlink? && !ss[i].seedAfterWithdraw && IsWithdrawn(withdrawn, ss[i].iface) ==>
              ss[i].iface !in Attributed(ss, obs, withdrawn)
  {
    var n := |ss| - 1;
    if i < n {
      AttributionPerUplink(ss[..n], obs, withdrawn, i);
    } else {
      AttributedIsKeyed(ss[..n], obs, withdrawn);
      assert ss[n].iface !in Ifaces(ss[..n]);
    }
  }

  /** The observation stands, and no later one of the source does. */
  ghost predicate StandsAt(s: Source, obs: seq<Observation>, h: Held, i: nat)
    requires i < |obs|
  {
    && Attribute(s, obs[i]) == Some(Change(h, false))
    && forall j :: i < j < |obs| ==> Attribute(s, obs[j]).None? || Attribute(s, obs[j]).value.gone
  }

  /** What is chosen is the last of the source's observations that stands. */
  lemma {:induction false} ChosenIsLast(s: Source, obs: seq<Observation>, h: Held)
    ensures Chosen(s, obs) == Some(h) <==> exists i :: 0 <= i < |obs| && StandsAt(s, obs, h, i)
  {
    if obs != [] {
      var n := |obs| - 1;
      var c := Attribute(s, obs[n]);
      ChosenIsLast(s, obs[..n], h);
      if c.Some? && !c.value.gone {
        assert c == Some(Change(h, false)) ==> StandsAt(s, obs, h, n);
      } else {
        StandsBefore(s, obs, h);
      }
    }
  }

  lemma StandsBefore(s: Source, obs: seq<Observation>, h: Held)
    requires obs != [] && (Attribute(s, obs[|obs| - 1]).None? || Attribute(s, obs[|obs| - 1]).value.gone)
    ensures (exists i :: 0 <= i < |obs| && StandsAt(s, obs, h, i)) <==>
            var before := obs[..|obs| - 1]; exists i :: 0 <= i < |before| && StandsAt(s, before, h, i)
  {
    var n := |obs| - 1;
    if i :| 0 <= i < |obs| && StandsAt(s, obs, h, i) {
      assert i < n;
      assert StandsAt(s, obs[..n], h, i);
    }
    if i :| 0 <= i < |obs[..n]| && StandsAt(s, obs[..n], h, i) {
      assert StandsAt(s, obs, h, i);
    }
  }

  /** The two observed sources: a route's lease is routable and outlives a withdrawal on the
      wire; an advertised one was seen on its own uplink and ends with the withdrawal. */
  lemma RouteOutlivesWithdrawal(iface: string, m: Option<Net>, obs: seq<Observation>, a: map<string, bool>, b: map<string, bool>)
    ensures AttributedTo(RouteSource(iface, m), obs, a) == AttributedTo(RouteSource(iface, m), obs, b)
    ensures var h := AttributedTo(RouteSource(iface, m), obs, a);
            h.Some? ==>
              && GloballyRoutable(h.value.lease.prefix)
              && exists o :: o in obs && o.kind.FromRoute? && !o.withdraw && h.value.lease == Lease(o.prefix, o.length)
    ensures var h := AttributedTo(AdvertisementSource(iface, m), obs, a);
            && (IsWithdrawn(a, iface) ==> h.None?)
            && (h.Some? ==> exists o :: o in obs && o.kind.FromAdvertisement? && o.ifName == iface && !o.withdraw &&
                                          h.value.lease == Lease(o.prefix, o.length))
  {
    var r, v := RouteSource(iface, m), AdvertisementSource(iface, m);
    var x, y := AttributedTo(r, obs, a), AttributedTo(v, obs, a);
    if x.Some? {
      ChosenIsLast(r, obs, x.value);
      var i :| 0 <= i < |obs| && StandsAt(r, obs, x.value, i);
      assert obs[i] in obs;
    }
    if y.Some? {
      ChosenIsLast(v, obs, y.value);
      var i :| 0 <= i < |obs| && StandsAt(v, obs, y.value, i);
      assert obs[i] in obs;
    }
  }

  // ----- all of it in terms of what was observed ---------------------------------------------------

  /** The address has the network's leading bits. */
  predicate InNet(net: Net, x: Addr) {
    if net.len <= 64 then Shr(x.hi, 64 - net.len) == Shr(net.addr.hi, 64 - net.len)
    else x.hi == net.addr.hi && (net.len > 128 || Shr(x.lo, 128 - net.len) == Shr(net.addr.lo, 128 - net.len))
  }

  predicate Wide(x: Addr) {
    x.hi < Pow2(64) && x.lo < Pow2(64)
  }

  /** The observation is one of the source's: of its kind, on its link if it asks for that, globally
      routable if it asks for that, and in its network if it names one. */
  predicate Concerns(s: Source, o: Observation) {
    && s.Netlink? && o.kind == s.kind
    && (s.requireIface ==> o.ifName == s.iface)
    && (s.requireRoutable ==> Shr(o.prefix.hi, 61) == 1)
    && (s.match_.Some? ==> InNet(s.match_.value, o.prefix))
  }

  lemma {:induction false} ShrMeans(a: nat, s: nat)
    ensures Pow2(s) * Shr(a, s) <= a < Pow2(s) * Shr(a, s) + Pow2(s)
  {
    ClearedIsShifted(a, s);
  }

  lemma RoutableMeans(x: Addr)
    ensures GloballyRoutable(x) <==> Shr(x.hi, 61) == 1
  {
    ShrMeans(x.hi, 61);
    SixtyOne();
    SecondMultiple(TWO_61, Shr(x.hi, 61), x.hi);
  }

  lemma SecondMultiple(p: nat, q: nat, a: nat)
    requires p * q <= a < p * q + p
    ensures q == 1 <==> p <= a < 2 * p
  {
    if q == 0 {
      assert p * q == 0;
    } else if q >= 2 {
      assert p * q == 2 * p + p * (q - 2);
    }
  }

  lemma SixtyOne()
    ensures Pow2(61) == TWO_61
  {
    assert Pow2(5) == 32;
    PowSum(5, 5);
    PowSum(10, 10);
    PowSum(20, 20);
    PowSum(40, 20);
    assert Pow2(61) == 2 * Pow2(60);
  }

  lemma InNetMeans(net: Net, x: Addr)
    requires Wide(x) && Wide(net.addr)
    ensures Contains(net, x) <==> InNet(net, x)
  {
    if net.len <= 64 {
      SameTopBits(x.hi, net.addr.hi, net.len);
    } else if net.len <= 128 {
      SameTopBits(x.lo, net.addr.lo, net.len - 64);
    }
  }

  lemma ConcernsMeans(s: Source, o: Observation)
    requires Wide(o.prefix) && (s.Netlink? && s.match_.Some? ==> Wide(s.match_.value.addr))
    ensures Attribute(s, o).Some? <==> Concerns(s, o)
    ensures Attribute(s, o).Some? ==> Attribute(s, o) == Some(Change(Held(s.iface, Lease(o.prefix, o.length), s.name), o.withdraw))
  {
    RoutableMeans(o.prefix);
    if s.Netlink? && s.match_.Some? {
      InNetMeans(s.match_.value, o.prefix);
    }
  }

  ghost predicate WideAll(s: Source, obs: seq<Observation>) {
    (s.Netlink? && s.match_.Some? ==> Wide(s.match_.value.addr)) && forall o :: o in obs ==> Wide(o.prefix)
  }

  /** The j-th observation is the last one that concerns the source and announces something. */
  ghost predicate LastAnnounced(s: Source, obs: seq<Observation>, j: nat) {
    && j < |obs| && Concerns(s, obs[j]) && !obs[j].withdraw
    && forall l :: j < l < |obs| ==> !(Concerns(s, obs[l]) && !obs[l].withdraw)
  }

  lemma ChosenExactly(s: Source, obs: seq<Observation>)
    requires s.Netlink? && WideAll(s, obs)
    ensures Chosen(s, obs).Some? <==> exists j: nat :: LastAnnounced(s, obs, j)
    ensures Chosen(s, obs).Some? ==> exists j: nat :: LastAnnounced(s, obs, j) && Chosen(s, obs).value.lease == Lease(obs[j].prefix, obs[j].length)
  {
    forall i | 0 <= i < |obs|
      ensures Attribute(s, obs[i]).Some? <==> Concerns(s, obs[i])
      ensures Attribute(s, obs[i]).Some? ==>
                Attribute(s, obs[i]) == Some(Change(Held(s.iface, Lease(obs[i].prefix, obs[i].length), s.name), obs[i].withdraw))
    {
      assert obs[i] in obs;
      ConcernsMeans(s, obs[i]);
    }
    if Chosen(s, obs).Some? {
      ChosenIsLast(s, obs, Chosen(s, obs).value);
      var j :| 0 <= j < |obs| && StandsAt(s, obs, Chosen(s, obs).value, j);
      assert LastAnnounced(s, obs, j);
    }
    if j: nat :| LastAnnounced(s, obs, j) {
      var h := Held(s.iface, Lease(obs[j].prefix, obs[j].length), s.name);
      assert StandsAt(s, obs, h, j);
      ChosenIsLast(s, obs, h);
    }
  }

  /** The two observed sources: discard routes to routable prefixes whatever link they came by, and
      prefixes advertised on the uplink itself. */
  lemma SourcesAsConfigured(iface: string, m: Option<Net>, o: Observation)
    ensures Concerns(RouteSource(iface, m), o) <==>
            o.kind.FromRoute? && Shr(o.prefix.hi, 61) == 1 && (m.Some? ==> InNet(m.value, o.prefix))
    ensures Concerns(AdvertisementSource(iface, m), o) <==>
            o.kind.FromAdvertisement? && o.ifName == iface && (m.Some? ==> InNet(m.value, o.prefix))
    ensures RouteSource(iface, m).iface == iface && AdvertisementSource(iface, m).iface == iface
    ensures RouteSource(iface, m).seedAfterWithdraw && !AdvertisementSource(iface, m).seedAfterWithdraw
  {
  }

  /** Exactly what is held for an uplink after any events and one pass, one source per uplink: what
      is configured; or else, unless it was withdrawn on the wire last and the source minds, the last
      prefix announced. */
  lemma HeldExactly(st: PrefixState, ss: seq<Source>, events: seq<Event>, obs: seq<Observation>, i: nat)
    requires i < |ss| && (forall j, k :: 0 <= j < k < |ss| ==> ss[j].iface != ss[k].iface) && WideAll(ss[i], obs)
    ensures var s, held := ss[i], After(st, ss, events + [Pass(obs)]).leases;
            var gone := match LastWire(events, s.iface) case None => s.iface in st.withdrawn && st.withdrawn[s.iface] case Some(g) => g;
            match s
            case Static(iface, net) => iface in held && held[iface].lease == Lease(net.addr, net.len)
            case Netlink(iface, _, _, _, _, _, seedAfterWithdraw) =>
              && (iface in held <==> (seedAfterWithdraw || !gone) && exists j: nat :: LastAnnounced(s, obs, j))
              && (iface in held ==> exists j: nat :: LastAnnounced(s, obs, j) && held[iface].lease == Lease(obs[j].prefix, obs[j].length))
  {
    var s := ss[i];
    LeasesAreAttributed(st, ss, events, obs);
    FlagsAreLastWires(st, ss, events, s.iface);
    AttributionPerUplink(ss, obs, After(st, ss, events).withdrawn, i);
    if s.Netlink? {
      ChosenExactly(s, obs);
    }
  }
}
