/** The gateway set: taken from foreign default routes, turned into weighted nexthops. */
module Gateways {
  import opened Common
  import opened Text
  import opened Numbers
  import opened Routes
  import HealthProtocol

  datatype Gateway = Gateway(fam: Fam, ip: string, ifIndex: nat, ifName: string, weight: int)

  function FamName(fam: Fam): string {
    if fam.IPv6? then "v6" else "v4"
  }

  function KeyText(fam: Fam, ip: string, ifIndex: nat): string {
    FamName(fam) + ":" + (if ip == "" then "dev" else ip) + "@" + Itoa(ifIndex)
  }

  // ----- keys in text order -------------------------------------------------------------

  ghost predicate Ascending(keys: seq<string>) {
    forall i, j :: 0 <= i < j < |keys| ==> Less(keys[i], keys[j])
  }

  ghost predicate Sorts(keys: seq<string>, names: set<string>) {
    Ascending(keys) && Range(keys) == names
  }

  function Place(keys: seq<string>, k: string): seq<string> {
    if keys == [] then [k]
    else
      var n := |keys| - 1;
      if Less(keys[n], k) then keys + [k] else Place(keys[..n], k) + [keys[n]]
  }

  lemma {:induction false} PlaceAdds(keys: seq<string>, k: string)
    ensures Range(Place(keys, k)) == Range(keys) + {k}
  {
    if keys != [] {
      var n := |keys| - 1;
      assert keys == keys[..n] + [keys[n]];
      PlaceAdds(keys[..n], k);
      var before := Place(keys[..n], k);
      assert Range(before + [keys[n]]) == Range(before) + {keys[n]};
    }
  }

  ghost predicate AllBelow(keys: seq<string>, k: string) {
    forall i :: 0 <= i < |keys| ==> Less(keys[i], k)
  }

  lemma PlacedBelow(keys: seq<string>, k: string, top: string)
    requires AllBelow(keys, top) && Less(k, top)
    ensures AllBelow(Place(keys, k), top)
  {
    PlaceAdds(keys, k);
    var all := Place(keys, k);
    forall i | 0 <= i < |all|
      ensures Less(all[i], top)
    {
      assert all[i] in Range(all);
    }
  }

  lemma BelowLast(keys: seq<string>, k: string)
    requires Ascending(keys) && (keys != [] ==> Less(keys[|keys| - 1], k))
    ensures AllBelow(keys, k)
  {
    var n := |keys| - 1;
    forall i | 0 <= i < n
      ensures Less(keys[i], k)
    {
      LessIsTransitive(keys[i], keys[n], k);
    }
  }

  lemma {:induction false} PlaceAscends(keys: seq<string>, k: string)
    requires Ascending(keys) && k !in keys
    ensures Ascending(Place(keys, k))
  {
    if keys != [] {
      var n := |keys| - 1;
      if Less(keys[n], k) {
        BelowLast(keys, k);
      } else {
        PlaceAscends(keys[..n], k);
        LessIsTotal(keys[n], k);
        assert AllBelow(keys[..n], keys[n]);
        PlacedBelow(keys[..n], k, keys[n]);
      }
    }
  }

  method SortedKeys<V>(m: map<string, V>) returns (keys: seq<string>)
    ensures Sorts(keys, m.Keys)
  {
    var names := Enumerate(m.Keys);
    keys := [];
    for i := 0 to |names|
      invariant Sorts(keys, Range(names[..i]))
    {
      assert names[..i + 1] == names[..i] + [names[i]];
      assert names[i] !in Range(names[..i]);
      PlaceAscends(keys, names[i]);
      PlaceAdds(keys, names[i]);
      keys := Place(keys, names[i]);
    }
    assert names[..|names|] == names;
  }

  lemma LeastFirst(a: seq<string>, names: set<string>, k: string)
    requires Sorts(a, names) && k in names
    ensures a != [] && (a[0] == k || Less(a[0], k))
  {
    assert k in Range(a);
  }

  lemma TailSorts(a: seq<string>, names: set<string>)
    requires Sorts(a, names) && a != []
    ensures Sorts(a[1..], names - {a[0]})
  {
    assert a == [a[0]] + a[1..];
    forall k | k in a[1..]
      ensures k != a[0]
    {
      var i :| 0 <= i < |a[1..]| && a[1..][i] == k;
      LessIsStrict(a[0], a[i + 1]);
    }
  }

  /** The order is determined by the set. */
  lemma {:induction false} SortIsUnique(a: seq<string>, b: seq<string>, names: set<string>)
    requires Sorts(a, names) && Sorts(b, names)
    ensures a == b
    decreases |a|
  {
    if a != [] || b != [] {
      assert a != [] ==> a[0] in Range(a);
      assert b != [] ==> b[0] in Range(b);
      LeastFirst(a, names, if a != [] then a[0] else b[0]);
      LeastFirst(b, names, a[0]);
      LeastFirst(a, names, b[0]);
      LessIsStrict(a[0], b[0]);
      TailSorts(a, names);
      TailSorts(b, names);
      SortIsUnique(a[1..], b[1..], names - {a[0]});
      assert a == [a[0]] + a[1..] && b == [b[0]] + b[1..];
    }
  }

  // ----- absorbing the default routes --------------------------------------------------------

  /** Weights of the configured gateways. */
  type Weights = map<string, int>

  predicate ShouldInclude(weights: Weights, ifName: string) {
    |weights| == 0 || (ifName in weights && weights[ifName] > 0)
  }

  function Weight(weights: Weights, ifName: string): int {
    if ifName !in weights || weights[ifName] == 0 then 1 else weights[ifName]
  }

  function GatewayAt(fam: Fam, hop: Hop, weights: Weights, ifaces: map<string, nat>): Option<Gateway> {
    if !ShouldInclude(weights, hop.dev) || hop.dev !in ifaces then None
    else Some(Gateway(fam, hop.via, ifaces[hop.dev], hop.dev, Weight(weights, hop.dev)))
  }

  function KeyOf(gw: Gateway): string {
    KeyText(gw.fam, gw.ip, gw.ifIndex)
  }

  function WithoutFamily(gateways: map<string, Gateway>, fam: Fam): map<string, Gateway> {
    map k | k in gateways && gateways[k].fam != fam :: gateways[k]
  }

  function Absorbed(gateways: map<string, Gateway>, fam: Fam, routes: seq<Observed>, weights: Weights,
                    ifaces: map<string, nat>): map<string, Gateway> {
    if routes == [] then WithoutFamily(gateways, fam)
    else
      var n := |routes| - 1;
      var before := Absorbed(gateways, fam, routes[..n], weights, ifaces);
      var gw := GatewayAt(fam, routes[n].hop, weights, ifaces);
      if gw.None? then before else before[KeyOf(gw.value) := gw.value]
  }

  class RouteState {
    var gateways: map<string, Gateway>

    constructor ()
      ensures gateways == map[]
    {
      gateways := map[];
    }

    method DropFamily(fam: Fam)
      modifies this
      ensures gateways == WithoutFamily(old(gateways), fam)
    {
      var was := gateways;
      var keys := Enumerate(was.Keys);
      for i := 0 to |keys|
        invariant forall k :: k in gateways <==> k in was && (was[k].fam != fam || k in Range(keys[i..]))
        invariant forall k :: k in gateways ==> gateways[k] == was[k]
      {
        assert keys[i..] == [keys[i]] + keys[i + 1..];
        assert keys[i] in Range(keys) && keys[i] !in Range(keys[i + 1..]);
        if was[keys[i]].fam == fam {
          gateways := gateways - {keys[i]};
        }
      }
    }

    /** A family that cannot be read keeps the gateways it has. */
    method AbsorbGatewayFamily(fam: Fam, routes: Option<seq<Observed>>, weights: Weights, ifaces: map<string, nat>)
      modifies this
      ensures gateways ==
              if routes.None? then old(gateways)
              else Absorbed(old(gateways), fam, routes.value, weights, ifaces)
    {
      if routes.None? {
        return;
      }
      DropFamily(fam);
      for i := 0 to |routes.value|
        invariant gateways == Absorbed(old(gateways), fam, routes.value[..i], weights, ifaces)
      {
        var r := routes.value[i];
        assert routes.value[..i + 1][..i] == routes.value[..i];
        if !ShouldInclude(weights, r.hop.dev) {
          continue;
        }
        if r.hop.dev !in ifaces {
          continue;
        }
        var gw := Gateway(fam, r.hop.via, ifaces[r.hop.dev], r.hop.dev, Weight(weights, r.hop.dev));
        gateways := gateways[KeyText(fam, r.hop.via, ifaces[r.hop.dev]) := gw];
      }
      assert routes.value[..|routes.value|] == routes.value;
    }
  }

  // ----- what absorbing keeps, and what it depends on -----------------------------------------

  /** Gateways stand under their own keys, and one family never knows a link by two indexes. */
  ghost predicate Consistent(gateways: map<string, Gateway>) {
    && (forall k :: k in gateways ==> KeyOf(gateways[k]) == k)
    && forall k, l :: k in gateways && l in gateways && gateways[k].fam == gateways[l].fam && gateways[k].ifName == gateways[l].ifName
         ==> gateways[k].ifIndex == gateways[l].ifIndex
  }

  /** The family's gateways come from this pass's links, the other family's are untouched. */
  ghost predicate Replaced(after: map<string, Gateway>, before: map<string, Gateway>, fam: Fam, ifaces: map<string, nat>) {
    && (forall k :: k in after ==> KeyOf(after[k]) == k)
    && (forall k :: k in after && after[k].fam != fam ==> k in before && after[k] == before[k])
    && forall k :: k in after && after[k].fam == fam ==>
         after[k].ifName in ifaces && after[k].ifIndex == ifaces[after[k].ifName] && after[k].weight > 0
  }

  lemma {:induction false} AbsorbReplaces(gateways: map<string, Gateway>, fam: Fam, routes: seq<Observed>, weights: Weights,
                                          ifaces: map<string, nat>)
    requires Consistent(gateways)
    ensures Replaced(Absorbed(gateways, fam, routes, weights, ifaces), gateways, fam, ifaces)
  {
    if routes != [] {
      var n := |routes| - 1;
      AbsorbReplaces(gateways, fam, routes[..n], weights, ifaces);
      var gw := GatewayAt(fam, routes[n].hop, weights, ifaces);
      if gw.Some? {
        ReplacedOneMore(Absorbed(gateways, fam, routes[..n], weights, ifaces), gateways, fam, ifaces, gw.value);
      }
    }
  }

  lemma ReplacedOneMore(after: map<string, Gateway>, before: map<string, Gateway>, fam: Fam, ifaces: map<string, nat>, gw: Gateway)
    requires Replaced(after, before, fam, ifaces)
    requires gw.fam == fam && gw.ifName in ifaces && gw.ifIndex == ifaces[gw.ifName] && gw.weight > 0
    ensures Replaced(after[KeyOf(gw) := gw], before, fam, ifaces)
  {
  }

  lemma AbsorbKeepsConsistency(gateways: map<string, Gateway>, fam: Fam, routes: seq<Observed>, weights: Weights,
                               ifaces: map<string, nat>)
    requires Consistent(gateways)
    ensures Consistent(Absorbed(gateways, fam, routes, weights, ifaces))
  {
    AbsorbReplaces(gateways, fam, routes, weights, ifaces);
  }

  lemma ItoaIsInjective(a: nat, b: nat)
    requires Itoa(a) == Itoa(b)
    ensures a == b
  {
    FormatReadsBack(a, 10);
    FormatReadsBack(b, 10);
  }

  function UpTo(s: string, stop: char): string {
    if s == [] || s[0] == stop then [] else [s[0]] + UpTo(s[1..], stop)
  }

  lemma {:induction false} UpToStop(a: string, stop: char, b: string)
    requires stop !in a
    ensures UpTo(a + [stop] + b, stop) == a
  {
    var s := a + [stop] + b;
    if a != [] {
      assert s[1..] == a[1..] + [stop] + b;
      assert a[0] in a;
      UpToStop(a[1..], stop, b);
    }
  }

  /** Printed addresses hold no at-sign, and none of them is the word a link without one gets. */
  predicate AddressText(ip: string) {
    '@' !in ip && ip != "dev"
  }

  lemma CutsAreEqual(x: string, stop: char, a: string, y: string, b: string)
    requires stop !in x && stop !in y && x + [stop] + a == y + [stop] + b
    ensures x == y && a == b
  {
    UpToStop(x, stop, a);
    UpToStop(y, stop, b);
    assert a == (x + [stop] + a)[|x| + 1..] && b == (y + [stop] + b)[|y| + 1..];
  }

  lemma KeyTextIsInjective(fam: Fam, a: string, i: nat, b: string, j: nat)
    requires AddressText(a) && AddressText(b) && KeyText(fam, a, i) == KeyText(fam, b, j)
    ensures a == b && i == j
  {
    var x, y := if a == "" then "dev" else a, if b == "" then "dev" else b;
    var head := FamName(fam) + ":";
    assert KeyText(fam, a, i) == head + x + ['@'] + Itoa(i) && KeyText(fam, b, j) == head + y + ['@'] + Itoa(j);
    CutsAreEqual(head + x, '@', Itoa(i), head + y, Itoa(j));
    assert x == (head + x)[|head|..] && y == (head + y)[|head|..];
    ItoaIsInjective(i, j);
  }

  ghost predicate Addresses(routes: seq<Observed>) {
    forall i :: 0 <= i < |routes| ==> AddressText(routes[i].hop.via)
  }

  /** No two link names share an index. */
  ghost predicate OneNamePerIndex(ifaces: map<string, nat>) {
    forall a, b :: a in ifaces && b in ifaces && ifaces[a] == ifaces[b] ==> a == b
  }

  /** Some route of the list is this gateway. */
  ghost predicate Named(routes: seq<Observed>, weights: Weights, ifaces: map<string, nat>, gw: Gateway) {
    exists i :: 0 <= i < |routes| && GatewayAt(gw.fam, routes[i].hop, weights, ifaces) == Some(gw)
  }

  predicate Holds(gateways: map<string, Gateway>, gw: Gateway) {
    KeyOf(gw) in gateways && gateways[KeyOf(gw)] == gw
  }

  lemma NamedNext(routes: seq<Observed>, weights: Weights, ifaces: map<string, nat>, gw: Gateway)
    requires routes != []
    ensures var n := |routes| - 1;
            Named(routes, weights, ifaces, gw) <==>
            Named(routes[..n], weights, ifaces, gw) || GatewayAt(gw.fam, routes[n].hop, weights, ifaces) == Some(gw)
  {
    var n := |routes| - 1;
    if i :| 0 <= i < |routes| && GatewayAt(gw.fam, routes[i].hop, weights, ifaces) == Some(gw) {
      assert i < n ==> routes[..n][i] == routes[i];
    }
    if i :| 0 <= i < n && GatewayAt(gw.fam, routes[..n][i].hop, weights, ifaces) == Some(gw) {
      assert routes[i] == routes[..n][i];
    }
  }

  /** A route names a gateway over a known link; without configured weights each has weight 1, with
      them exactly the links of positive weight are taken up, with that weight. */
  lemma NamedMeans(routes: seq<Observed>, weights: Weights, ifaces: map<string, nat>, gw: Gateway)
    ensures Named(routes, weights, ifaces, gw) <==>
            && (exists i :: 0 <= i < |routes| && routes[i].hop == Hop(gw.ip, gw.ifName))
            && gw.ifName in ifaces && ifaces[gw.ifName] == gw.ifIndex
            && if weights == map[] then gw.weight == 1
               else gw.ifName in weights && weights[gw.ifName] > 0 && gw.weight == weights[gw.ifName]
  {
    if |weights| == 0 {
      assert weights == map[];
    }
    if i :| 0 <= i < |routes| && routes[i].hop == Hop(gw.ip, gw.ifName) {
      assert GatewayAt(gw.fam, routes[i].hop, weights, ifaces) == Some(gw) <==>
             && gw.ifName in ifaces && ifaces[gw.ifName] == gw.ifIndex
             && if weights == map[] then gw.weight == 1
                else gw.ifName in weights && weights[gw.ifName] > 0 && gw.weight == weights[gw.ifName];
    }
  }

  /** A family's gateways after reading it, in words. */
  lemma AbsorbedExactly(gateways: map<string, Gateway>, routes: seq<Observed>, weights: Weights, ifaces: map<string, nat>, gw: Gateway)
    requires Addresses(routes) && OneNamePerIndex(ifaces)
    ensures var after := Absorbed(gateways, gw.fam, routes, weights, ifaces);
            KeyOf(gw) in after && after[KeyOf(gw)] == gw <==>
            && (exists i :: 0 <= i < |routes| && routes[i].hop == Hop(gw.ip, gw.ifName))
            && gw.ifName in ifaces && ifaces[gw.ifName] == gw.ifIndex
            && if weights == map[] then gw.weight == 1
               else gw.ifName in weights && weights[gw.ifName] > 0 && gw.weight == weights[gw.ifName]
  {
    AbsorbedMembers(gateways, routes, weights, ifaces, gw);
    NamedMeans(routes, weights, ifaces, gw);
  }

  /** The family's gateways, one by one: those the routes name, whatever the routes' order and
      repetition. */
  lemma {:induction false} AbsorbedMembers(gateways: map<string, Gateway>, routes: seq<Observed>, weights: Weights,
                                           ifaces: map<string, nat>, gw: Gateway)
    requires Addresses(routes) && OneNamePerIndex(ifaces)
    ensures Holds(Absorbed(gateways, gw.fam, routes, weights, ifaces), gw) <==> Named(routes, weights, ifaces, gw)
  {
    if routes == [] {
      var none := WithoutFamily(gateways, gw.fam);
      assert KeyOf(gw) in none ==> none[KeyOf(gw)].fam != gw.fam;
    } else {
      var n := |routes| - 1;
      AbsorbedMembers(gateways, routes[..n], weights, ifaces, gw);
      NamedNext(routes, weights, ifaces, gw);
      var last := GatewayAt(gw.fam, routes[n].hop, weights, ifaces);
      if last.Some? && KeyOf(last.value) == KeyOf(gw) && Named(routes[..n], weights, ifaces, gw) {
        NamedAddress(routes[..n], weights, ifaces, gw);
        KeyTextIsInjective(gw.fam, gw.ip, gw.ifIndex, last.value.ip, last.value.ifIndex);
      }
    }
  }

  lemma NamedAddress(routes: seq<Observed>, weights: Weights, ifaces: map<string, nat>, gw: Gateway)
    requires Addresses(routes) && Named(routes, weights, ifaces, gw)
    ensures AddressText(gw.ip) && gw.ifName in ifaces && gw.ifIndex == ifaces[gw.ifName] && gw.weight == Weight(weights, gw.ifName)
  {
  }

  lemma KeysTellFamilies(a: Gateway, b: Gateway)
    requires KeyOf(a) == KeyOf(b)
    ensures a.fam == b.fam
  {
    assert KeyOf(a)[1] == FamName(a.fam)[1] && KeyOf(b)[1] == FamName(b.fam)[1];
  }

  lemma {:induction false} OthersStay(gateways: map<string, Gateway>, fam: Fam, routes: seq<Observed>, weights: Weights,
                                      ifaces: map<string, nat>)
    requires Consistent(gateways)
    ensures WithoutFamily(Absorbed(gateways, fam, routes, weights, ifaces), fam) == WithoutFamily(gateways, fam)
  {
    if routes != [] {
      var n := |routes| - 1;
      OthersStay(gateways, fam, routes[..n], weights, ifaces);
      var gw := GatewayAt(fam, routes[n].hop, weights, ifaces);
      if gw.Some? {
        if KeyOf(gw.value) in gateways {
          KeysTellFamilies(gw.value, gateways[KeyOf(gw.value)]);
        }
        PutKeepsOthers(Absorbed(gateways, fam, routes[..n], weights, ifaces), fam, gw.value);
      }
    }
  }

  lemma PutKeepsOthers(gateways: map<string, Gateway>, fam: Fam, gw: Gateway)
    requires KeyOf(gw) !in WithoutFamily(gateways, fam) && gw.fam == fam
    ensures WithoutFamily(gateways[KeyOf(gw) := gw], fam) == WithoutFamily(gateways, fam)
  {
  }

  lemma SameHolders(a: map<string, Gateway>, b: map<string, Gateway>, fam: Fam)
    requires forall k :: k in a ==> KeyOf(a[k]) == k
    requires forall k :: k in b ==> KeyOf(b[k]) == k
    requires WithoutFamily(a, fam) == WithoutFamily(b, fam)
    requires forall gw: Gateway :: gw.fam == fam ==> (Holds(a, gw) <==> Holds(b, gw))
    ensures a == b
  {
    forall k | k in a
      ensures k in b && b[k] == a[k]
    {
      if a[k].fam == fam {
        assert Holds(a, a[k]);
      } else {
        assert k in WithoutFamily(a, fam);
      }
    }
    forall k | k in b
      ensures k in a
    {
      if b[k].fam == fam {
        assert Holds(b, b[k]);
      } else {
        assert k in WithoutFamily(b, fam);
      }
    }
  }

  ghost predicate SameHops(a: seq<Observed>, b: seq<Observed>) {
    multiset(Hops(a)) == multiset(Hops(b))
  }

  lemma SameHopsSameNames(a: seq<Observed>, b: seq<Observed>, weights: Weights, ifaces: map<string, nat>, gw: Gateway)
    requires SameHops(a, b) && Named(a, weights, ifaces, gw)
    ensures Named(b, weights, ifaces, gw)
  {
    var i :| 0 <= i < |a| && GatewayAt(gw.fam, a[i].hop, weights, ifaces) == Some(gw);
    assert Hops(a)[i] in multiset(Hops(a));
    assert a[i].hop in Hops(b);
    var j :| 0 <= j < |b| && Hops(b)[j] == a[i].hop;
  }

  /** The family's gateways are exactly those the routes name. */
  ghost predicate Agrees(gateways: map<string, Gateway>, fam: Fam, routes: seq<Observed>, weights: Weights, ifaces: map<string, nat>) {
    forall gw: Gateway :: gw.fam == fam ==> (Holds(gateways, gw) <==> Named(routes, weights, ifaces, gw))
  }

  lemma AbsorbAgrees(gateways: map<string, Gateway>, fam: Fam, routes: seq<Observed>, weights: Weights, ifaces: map<string, nat>)
    requires Addresses(routes) && OneNamePerIndex(ifaces)
    ensures Agrees(Absorbed(gateways, fam, routes, weights, ifaces), fam, routes, weights, ifaces)
  {
    forall gw: Gateway | gw.fam == fam
      ensures Holds(Absorbed(gateways, fam, routes, weights, ifaces), gw) <==> Named(routes, weights, ifaces, gw)
    {
      AbsorbedMembers(gateways, routes, weights, ifaces, gw);
    }
  }

  /** Absorbing one family leaves the other's agreement alone. */
  lemma OtherFamilyAgrees(gateways: map<string, Gateway>, fam: Fam, routes: seq<Observed>, weights: Weights, ifaces: map<string, nat>,
                          other: Fam, theirs: seq<Observed>)
    requires Consistent(gateways) && other != fam && Agrees(gateways, other, theirs, weights, ifaces)
    ensures Agrees(Absorbed(gateways, fam, routes, weights, ifaces), other, theirs, weights, ifaces)
  {
    var after := Absorbed(gateways, fam, routes, weights, ifaces);
    OthersStay(gateways, fam, routes, weights, ifaces);
    forall gw: Gateway | gw.fam == other
      ensures Holds(after, gw) <==> Holds(gateways, gw)
    {
      assert Holds(after, gw) <==> Holds(WithoutFamily(after, fam), gw);
      assert Holds(gateways, gw) <==> Holds(WithoutFamily(gateways, fam), gw);
    }
  }

  /** Absorbing what the gateways already agree with changes nothing. */
  lemma NothingNew(gateways: map<string, Gateway>, fam: Fam, a: seq<Observed>, b: seq<Observed>, weights: Weights, ifaces: map<string, nat>)
    requires Consistent(gateways) && Agrees(gateways, fam, a, weights, ifaces)
    requires Addresses(b) && OneNamePerIndex(ifaces) && SameHops(a, b)
    ensures Absorbed(gateways, fam, b, weights, ifaces) == gateways
  {
    var after := Absorbed(gateways, fam, b, weights, ifaces);
    AbsorbReplaces(gateways, fam, b, weights, ifaces);
    OthersStay(gateways, fam, b, weights, ifaces);
    AbsorbAgrees(gateways, fam, b, weights, ifaces);
    forall gw: Gateway | gw.fam == fam
      ensures Holds(gateways, gw) <==> Holds(after, gw)
    {
      if Named(a, weights, ifaces, gw) {
        SameHopsSameNames(a, b, weights, ifaces, gw);
      }
      if Named(b, weights, ifaces, gw) {
        SameHopsSameNames(b, a, weights, ifaces, gw);
      }
    }
    SameHolders(gateways, after, fam);
  }

  /** Absorbing again, with the same hops in any order, changes nothing: the gateway set depends
      on the foreign hops alone. */
  lemma AbsorbAgain(gateways: map<string, Gateway>, fam: Fam, a: seq<Observed>, b: seq<Observed>, weights: Weights,
                    ifaces: map<string, nat>)
    requires Consistent(gateways) && Addresses(a) && Addresses(b) && OneNamePerIndex(ifaces) && SameHops(a, b)
    ensures var once := Absorbed(gateways, fam, a, weights, ifaces);
            Absorbed(once, fam, b, weights, ifaces) == once
  {
    AbsorbKeepsConsistency(gateways, fam, a, weights, ifaces);
    AbsorbAgrees(gateways, fam, a, weights, ifaces);
    NothingNew(Absorbed(gateways, fam, a, weights, ifaces), fam, a, b, weights, ifaces);
  }

  // ----- the nexthops of the managed route --------------------------------------------------------

  type Unhealthy = set<HealthProtocol.Key>

  function EffectiveWeight(gw: Gateway, unhealthy: Unhealthy): int {
    if HealthProtocol.Key(gw.ifName, gw.fam) in unhealthy then 0 else gw.weight
  }

  predicate Active(gw: Gateway, unhealthy: Unhealthy, fam: Fam) {
    gw.fam == fam && EffectiveWeight(gw, unhealthy) > 0
  }

  function NexthopOf(gw: Gateway, unhealthy: Unhealthy): Nexthop {
    Nexthop(gw.ip, gw.ifName, EffectiveWeight(gw, unhealthy))
  }

  /** By device, then by gateway address. */
  predicate HopLess(a: Nexthop, b: Nexthop) {
    if a.dev != b.dev then Less(a.dev, b.dev) else Less(a.via, b.via)
  }

  ghost predicate HopsAscend(ns: seq<Nexthop>) {
    forall i, j :: 0 <= i < j < |ns| ==> HopLess(ns[i], ns[j])
  }

  lemma HopOrder(a: Nexthop, b: Nexthop, c: Nexthop)
    ensures HopLess(a, b) ==> HopOf(a) != HopOf(b) && !HopLess(b, a)
    ensures HopLess(a, b) || HopOf(a) == HopOf(b) || HopLess(b, a)
    ensures HopLess(a, b) && HopLess(b, c) ==> HopLess(a, c)
  {
    LessIsStrict(a.dev, b.dev);
    LessIsStrict(b.dev, c.dev);
    LessIsStrict(a.via, b.via);
    LessIsTotal(a.dev, b.dev);
    LessIsTotal(a.via, b.via);
    if Less(a.dev, b.dev) && Less(b.dev, c.dev) {
      LessIsTransitive(a.dev, b.dev, c.dev);
      LessIsStrict(a.dev, c.dev);
    }
    if Less(a.via, b.via) && Less(b.via, c.via) {
      LessIsTransitive(a.via, b.via, c.via);
    }
  }

  function PlaceHop(ns: seq<Nexthop>, x: Nexthop): seq<Nexthop> {
    if ns == [] then [x]
    else
      var n := |ns| - 1;
      if HopLess(x, ns[n]) then PlaceHop(ns[..n], x) + [ns[n]] else ns + [x]
  }

  lemma {:induction false} PlaceHopAdds(ns: seq<Nexthop>, x: Nexthop)
    ensures Range(PlaceHop(ns, x)) == Range(ns) + {x} && |PlaceHop(ns, x)| == |ns| + 1
  {
    if ns != [] {
      var n := |ns| - 1;
      assert ns == ns[..n] + [ns[n]];
      PlaceHopAdds(ns[..n], x);
      var before := PlaceHop(ns[..n], x);
      assert Range(before + [ns[n]]) == Range(before) + {ns[n]};
    }
  }

  ghost predicate HopsBelow(ns: seq<Nexthop>, top: Nexthop) {
    forall i :: 0 <= i < |ns| ==> HopLess(ns[i], top)
  }

  lemma {:induction false} PlaceHopAscends(ns: seq<Nexthop>, x: Nexthop)
    requires HopsAscend(ns) && HopOf(x) !in HopSet(ns)
    ensures HopsAscend(PlaceHop(ns, x))
    ensures forall top :: HopsBelow(ns, top) && HopLess(x, top) ==> HopsBelow(PlaceHop(ns, x), top)
  {
    if ns != [] {
      var n := |ns| - 1;
      assert HopOf(ns[n]) in HopSet(ns);
      HopOrder(x, ns[n], x);
      if HopLess(x, ns[n]) {
        assert HopOf(x) !in HopSet(ns[..n]) by {
          forall i | 0 <= i < n
            ensures HopOf(ns[..n][i]) in HopSet(ns)
          {
            assert HopOf(ns[i]) == HopOf(ns[..n][i]);
          }
        }
        PlaceHopAscends(ns[..n], x);
        assert HopsBelow(ns[..n], ns[n]);
      } else {
        forall i | 0 <= i < n
          ensures HopLess(ns[i], x)
        {
          HopOrder(ns[i], ns[n], x);
        }
      }
    }
  }

  /** The active gateways of a family, as the keys list them. */
  function Collected(gateways: map<string, Gateway>, keys: seq<string>, unhealthy: Unhealthy, fam: Fam): seq<Nexthop>
    requires forall k :: k in keys ==> k in gateways
  {
    if keys == [] then []
    else
      var n := |keys| - 1;
      var gw := gateways[keys[n]];
      Collected(gateways, keys[..n], unhealthy, fam) + if Active(gw, unhealthy, fam) then [NexthopOf(gw, unhealthy)] else []
  }

  function SortHops(ns: seq<Nexthop>): seq<Nexthop> {
    if ns == [] then [] else PlaceHop(SortHops(ns[..|ns| - 1]), ns[|ns| - 1])
  }

  function ActiveNexthops(gateways: map<string, Gateway>, keys: seq<string>, unhealthy: Unhealthy, fam: Fam): seq<Nexthop>
    requires forall k :: k in keys ==> k in gateways
  {
    SortHops(Collected(gateways, keys, unhealthy, fam))
  }

  method SortByDevice(ns: seq<Nexthop>) returns (out: seq<Nexthop>)
    ensures out == SortHops(ns)
  {
    out := [];
    for i := 0 to |ns|
      invariant out == SortHops(ns[..i])
    {
      assert ns[..i + 1][..i] == ns[..i];
      out := PlaceHop(out, ns[i]);
    }
    assert ns[..|ns|] == ns;
  }

  /** The loop runs over the keys in text order. */
  method FindActiveNexthops(gateways: map<string, Gateway>, ghost keys: seq<string>, unhealthy: Unhealthy, fam: Fam)
    returns (out: seq<Nexthop>)
    requires Sorts(keys, gateways.Keys) && forall k :: k in keys ==> k in gateways
    ensures out == ActiveNexthops(gateways, keys, unhealthy, fam)
  {
    var order := SortedKeys(gateways);
    SortIsUnique(order, keys, gateways.Keys);
    var found: seq<Nexthop> := [];
    for i := 0 to |order|
      invariant found == Collected(gateways, order[..i], unhealthy, fam)
    {
      assert order[..i + 1][..i] == order[..i];
      var gw := gateways[order[i]];
      var weight := EffectiveWeight(gw, unhealthy);
      if gw.fam != fam || weight <= 0 {
        continue;
      }
      found := found + [Nexthop(gw.ip, gw.ifName, weight)];
    }
    assert order[..|order|] == order;
    out := SortByDevice(found);
  }

  // ----- what the list always is ------------------------------------------------------------------

  lemma {:induction false} CollectedFrom(gateways: map<string, Gateway>, keys: seq<string>, unhealthy: Unhealthy, fam: Fam, x: Nexthop)
    requires forall k :: k in keys ==> k in gateways
    ensures x in Collected(gateways, keys, unhealthy, fam) <==>
            exists k :: k in keys && Active(gateways[k], unhealthy, fam) && x == NexthopOf(gateways[k], unhealthy)
  {
    if keys != [] {
      var n := |keys| - 1;
      assert keys == keys[..n] + [keys[n]];
      CollectedFrom(gateways, keys[..n], unhealthy, fam, x);
    }
  }

  lemma {:induction false} SortedHopsAre(ns: seq<Nexthop>)
    requires DistinctHops(ns)
    ensures HopsAscend(SortHops(ns)) && Range(SortHops(ns)) == Range(ns) && HopSet(SortHops(ns)) == HopSet(ns)
  {
    if ns != [] {
      var n := |ns| - 1;
      SortedHopsAre(ns[..n]);
      var before := SortHops(ns[..n]);
      PlaceHopAdds(before, ns[n]);
      assert ns == ns[..n] + [ns[n]];
      NotAmongBefore(ns);
      PlaceHopAscends(before, ns[n]);
    }
    SameRangeSameHops(SortHops(ns), ns);
  }

  lemma NotAmongBefore(ns: seq<Nexthop>)
    requires ns != [] && DistinctHops(ns)
    ensures HopOf(ns[|ns| - 1]) !in HopSet(ns[..|ns| - 1])
  {
  }

  lemma SameRangeSameHops(a: seq<Nexthop>, b: seq<Nexthop>)
    requires Range(a) == Range(b)
    ensures HopSet(a) == HopSet(b)
  {
    forall i | 0 <= i < |a|
      ensures HopOf(a[i]) in HopSet(b)
    {
      assert a[i] in Range(b);
    }
    forall i | 0 <= i < |b|
      ensures HopOf(b[i]) in HopSet(a)
    {
      assert b[i] in Range(a);
    }
  }

  lemma {:induction false} CollectedAreDistinct(gateways: map<string, Gateway>, keys: seq<string>, unhealthy: Unhealthy, fam: Fam)
    requires Consistent(gateways) && Ascending(keys) && forall k :: k in keys ==> k in gateways
    ensures DistinctHops(Collected(gateways, keys, unhealthy, fam))
  {
    if keys != [] {
      var n := |keys| - 1;
      assert keys == keys[..n] + [keys[n]];
      CollectedAreDistinct(gateways, keys[..n], unhealthy, fam);
      var before := Collected(gateways, keys[..n], unhealthy, fam);
      var gw := gateways[keys[n]];
      forall i | 0 <= i < |before| && Active(gw, unhealthy, fam)
        ensures HopOf(before[i]) != Hop(gw.ip, gw.ifName)
      {
        CollectedFrom(gateways, keys[..n], unhealthy, fam, before[i]);
        var k :| k in keys[..n] && Active(gateways[k], unhealthy, fam) && before[i] == NexthopOf(gateways[k], unhealthy);
        var j :| 0 <= j < n && keys[..n][j] == k;
        LessIsStrict(keys[j], keys[n]);
        assert KeyOf(gateways[k]) != KeyOf(gw);
      }
    }
  }

  /** The nexthops are exactly the gateways of the family whose link's side has not failed and
      whose weight is positive, with that weight; strictly ordered by device and address, none
      of them twice. */
  lemma ActiveNexthopsAre(gateways: map<string, Gateway>, keys: seq<string>, unhealthy: Unhealthy, fam: Fam)
    requires Consistent(gateways) && Sorts(keys, gateways.Keys) && forall k :: k in keys ==> k in gateways
    ensures var ns := ActiveNexthops(gateways, keys, unhealthy, fam);
            && (forall i, j :: 0 <= i < j < |ns| ==>
                  if ns[i].dev != ns[j].dev then Less(ns[i].dev, ns[j].dev) else Less(ns[i].via, ns[j].via))
            && DistinctHops(ns)
            && forall x :: x in ns <==>
                 exists k :: k in gateways && gateways[k].fam == fam
                   && HealthProtocol.Key(gateways[k].ifName, fam) !in unhealthy && gateways[k].weight > 0
                   && x == Nexthop(gateways[k].ip, gateways[k].ifName, gateways[k].weight)
  {
    var found := Collected(gateways, keys, unhealthy, fam);
    CollectedAreDistinct(gateways, keys, unhealthy, fam);
    SortedHopsAre(found);
    var ns := ActiveNexthops(gateways, keys, unhealthy, fam);
    forall i, j | 0 <= i < j < |ns|
      ensures HopOf(ns[i]) != HopOf(ns[j])
    {
      HopOrder(ns[i], ns[j], ns[i]);
    }
    forall x
      ensures x in ns <==>
              exists k :: k in gateways && gateways[k].fam == fam
                && HealthProtocol.Key(gateways[k].ifName, fam) !in unhealthy && gateways[k].weight > 0
                && x == Nexthop(gateways[k].ip, gateways[k].ifName, gateways[k].weight)
    {
      NexthopFrom(gateways, keys, unhealthy, fam, x);
      assert x in ns <==> x in Range(ns);
      assert x in found <==> x in Range(found);
    }
  }

  lemma NexthopFrom(gateways: map<string, Gateway>, keys: seq<string>, unhealthy: Unhealthy, fam: Fam, x: Nexthop)
    requires Sorts(keys, gateways.Keys) && forall k :: k in keys ==> k in gateways
    ensures x in Collected(gateways, keys, unhealthy, fam) <==>
            exists k :: k in gateways && gateways[k].fam == fam
              && HealthProtocol.Key(gateways[k].ifName, fam) !in unhealthy && gateways[k].weight > 0
              && x == Nexthop(gateways[k].ip, gateways[k].ifName, gateways[k].weight)
  {
    CollectedFrom(gateways, keys, unhealthy, fam, x);
    forall k
      ensures k in gateways <==> k in keys
    {
      assert k in gateways <==> k in Range(keys);
    }
  }
}
