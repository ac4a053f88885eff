/** Default routes as the daemon lists them: the managed multipath route, and everyone else's. */
module Routes {
  import opened Common
  import opened Tokens
  import opened Numbers

  datatype Nexthop = Nexthop(via: string, dev: string, weight: int)

  /** A nexthop without its weight; an empty via is a route straight to the device. */
  datatype Hop = Hop(via: string, dev: string)

  const WEIGHT_UNKNOWN := -1

  function HopOf(n: Nexthop): Hop {
    Hop(n.via, n.dev)
  }

  function NexthopMap(ns: seq<Nexthop>): map<Hop, int> {
    if ns == [] then map[]
    else
      var n := |ns| - 1;
      NexthopMap(ns[..n])[HopOf(ns[n]) := ns[n].weight]
  }

  // ----- the managed route read back -------------------------------------------------------

  function WeightIn(line: Fields): int {
    var w := Atoi(TextOf(FieldAfter(line, "weight")));
    if w.Some? then w.value else WEIGHT_UNKNOWN
  }

  function Nexthops(lines: seq<Fields>): map<Hop, int> {
    if lines == [] then map[]
    else
      var n := |lines| - 1;
      var dev := TextOf(FieldAfter(lines[n], "dev"));
      if dev == "" then Nexthops(lines[..n])
      else Nexthops(lines[..n])[Hop(TextOf(FieldAfter(lines[n], "via")), dev) := WeightIn(lines[n])]
  }

  method ParseNexthops(lines: seq<Fields>) returns (got: map<Hop, int>)
    ensures got == Nexthops(lines)
  {
    got := map[];
    for i := 0 to |lines|
      invariant got == Nexthops(lines[..i])
    {
      assert lines[..i + 1][..i] == lines[..i];
      var dev := TextOf(FieldAfter(lines[i], "dev"));
      if dev == "" {
        continue;
      }
      var weight := WEIGHT_UNKNOWN;
      var w := Atoi(TextOf(FieldAfter(lines[i], "weight")));
      if w.Some? {
        weight := w.value;
      }
      got := got[Hop(TextOf(FieldAfter(lines[i], "via")), dev) := weight];
    }
    assert lines[..|lines|] == lines;
  }

  predicate Match(want: map<Hop, int>, got: map<Hop, int>) {
    && |want| == |got|
    && forall h :: h in want ==> h in got && (got[h] == WEIGHT_UNKNOWN || got[h] == want[h])
  }

  method NexthopsMatch(want: map<Hop, int>, got: map<Hop, int>) returns (ok: bool)
    ensures ok == Match(want, got)
  {
    if |want| != |got| {
      return false;
    }
    var keys := Enumerate(want.Keys);
    for i := 0 to |keys|
      invariant forall k :: 0 <= k < i ==> keys[k] in got && (got[keys[k]] == WEIGHT_UNKNOWN || got[keys[k]] == want[keys[k]])
    {
      assert keys[i] in Range(keys);
      var h := keys[i];
      if h !in got || (got[h] != WEIGHT_UNKNOWN && got[h] != want[h]) {
        return false;
      }
    }
    forall h | h in want
      ensures h in got && (got[h] == WEIGHT_UNKNOWN || got[h] == want[h])
    {
      assert h in Range(keys);
    }
    return true;
  }

  const KEYWORDS := {"dev", "via", "weight", "metric"}

  /** Names and addresses are not the words the parser looks for. */
  predicate Sound(n: Nexthop) {
    && n.dev != "" && n.dev !in KEYWORDS && n.dev != "lo"
    && n.via !in KEYWORDS
    && 0 < n.weight < INT64_LIMIT
  }

  function HopWords(n: Nexthop): Fields {
    (if n.via == "" then [] else ["via", n.via]) + ["dev", n.dev]
  }

  /** What ip prints besides the nexthops: protocol, metric and flags, in any wording. */
  predicate Plain(tail: Fields) {
    "dev" !in tail && "via" !in tail && "weight" !in tail
  }

  function HopLine(n: Nexthop): Fields {
    ["nexthop"] + HopWords(n) + ["weight", Itoa(if n.weight < 0 then 0 else n.weight)]
  }

  function HopLines(ns: seq<Nexthop>): seq<Fields> {
    seq(|ns|, i requires 0 <= i < |ns| => HopLine(ns[i]))
  }

  /** One nexthop is printed on the route's own line, without its weight. */
  function Listing(ns: seq<Nexthop>, tail: Fields): seq<Fields> {
    if |ns| == 1 then [["default"] + HopWords(ns[0]) + tail] else [["default"] + tail] + HopLines(ns)
  }

  lemma HopWordsFound(before: string, n: Nexthop, tail: Fields)
    requires Sound(n) && before !in KEYWORDS && "via" !in tail
    ensures var line := [before] + HopWords(n) + tail;
            && FieldAfter(line, "dev") == Some(n.dev)
            && TextOf(FieldAfter(line, "via")) == n.via
  {
    var line := [before] + HopWords(n) + tail;
    if n.via == "" {
      FieldAt(line, "dev", 1);
      NoFieldAfter(line, "via");
    } else {
      FieldAt(line, "via", 1);
      FieldAt(line, "dev", 3);
    }
  }

  lemma HopLineReadsBack(n: Nexthop)
    requires Sound(n)
    ensures var line := HopLine(n);
            && TextOf(FieldAfter(line, "dev")) == n.dev
            && TextOf(FieldAfter(line, "via")) == n.via
            && WeightIn(line) == n.weight
  {
    var line := HopLine(n);
    DecimalIsNoKeyword(n.weight);
    HopWordsFound("nexthop", n, ["weight", Itoa(n.weight)]);
    AtoiReadsBack(n.weight);
    FieldAt(line, "weight", |line| - 2);
  }

  lemma DecimalIsNoKeyword(n: nat)
    requires n < INT64_LIMIT
    ensures Itoa(n) !in KEYWORDS
  {
    AtoiReadsBack(n);
    assert DigitValue('d') == 13 && DigitValue('v') == 31 && DigitValue('w') == 32 && DigitValue('m') == 22;
    NotANumber("dev");
    NotANumber("via");
    NotANumber("weight");
    NotANumber("metric");
  }

  lemma NotANumber(s: string)
    requires s != "" && DigitValue(s[|s| - 1]) >= 10 && s[0] != '-' && s[0] != '+'
    ensures Atoi(s) == None
  {
  }

  lemma {:induction false} HopLinesReadBack(ns: seq<Nexthop>)
    requires forall i :: 0 <= i < |ns| ==> Sound(ns[i])
    ensures Nexthops(HopLines(ns)) == NexthopMap(ns)
  {
    if ns != [] {
      var n := |ns| - 1;
      HopLinesReadBack(ns[..n]);
      assert HopLines(ns)[..n] == HopLines(ns[..n]);
      HopLineReadsBack(ns[n]);
    }
  }

  lemma {:induction false} HeadIsSkipped(head: Fields, lines: seq<Fields>)
    requires "dev" !in head
    ensures Nexthops([head] + lines) == Nexthops(lines)
  {
    var all := [head] + lines;
    if lines == [] {
      NoFieldAfter(head, "dev");
      assert all[..0] == [];
    } else {
      assert all[..|all| - 1] == [head] + lines[..|lines| - 1];
      HeadIsSkipped(head, lines[..|lines| - 1]);
    }
  }

  lemma OneLine(line: Fields)
    requires TextOf(FieldAfter(line, "dev")) != ""
    ensures Nexthops([line]) == map[Hop(TextOf(FieldAfter(line, "via")), TextOf(FieldAfter(line, "dev"))) := WeightIn(line)]
  {
    assert [line][..0] == [];
  }

  lemma SingleReadsBack(n: Nexthop, tail: Fields)
    requires Plain(tail) && Sound(n)
    ensures Nexthops([["default"] + HopWords(n) + tail]) == map[HopOf(n) := WEIGHT_UNKNOWN]
  {
    var line := ["default"] + HopWords(n) + tail;
    HopWordsFound("default", n, tail);
    assert "weight" !in HopWords(n);
    NoFieldAfter(line, "weight");
    OneLine(line);
  }

  /** The printed route reads back as its nexthops; of a single one the weight is not known. */
  lemma ListingReadsBack(ns: seq<Nexthop>, tail: Fields)
    requires Plain(tail) && forall i :: 0 <= i < |ns| ==> Sound(ns[i])
    ensures Nexthops(Listing(ns, tail)) == if |ns| == 1 then map[HopOf(ns[0]) := WEIGHT_UNKNOWN] else NexthopMap(ns)
  {
    if |ns| == 1 {
      SingleReadsBack(ns[0], tail);
      assert Listing(ns, tail) == [["default"] + HopWords(ns[0]) + tail];
    } else {
      SeveralReadBack(ns, tail);
    }
  }

  lemma SeveralReadBack(ns: seq<Nexthop>, tail: Fields)
    requires Plain(tail) && forall i :: 0 <= i < |ns| ==> Sound(ns[i])
    ensures Nexthops([["default"] + tail] + HopLines(ns)) == NexthopMap(ns)
  {
    HeadIsSkipped(["default"] + tail, HopLines(ns));
    HopLinesReadBack(ns);
  }

  ghost predicate DistinctHops(ns: seq<Nexthop>) {
    forall i, j :: 0 <= i < j < |ns| ==> HopOf(ns[i]) != HopOf(ns[j])
  }

  function HopSet(ns: seq<Nexthop>): set<Hop> {
    set i | 0 <= i < |ns| :: HopOf(ns[i])
  }

  lemma {:induction false} MapKeys(ns: seq<Nexthop>)
    ensures NexthopMap(ns).Keys == HopSet(ns)
  {
    if ns != [] {
      var n := |ns| - 1;
      MapKeys(ns[..n]);
      assert HopSet(ns) == HopSet(ns[..n]) + {HopOf(ns[n])} by {
        forall h | h in HopSet(ns[..n]) ensures h in HopSet(ns) {
          var i :| 0 <= i < n && HopOf(ns[..n][i]) == h;
          assert HopOf(ns[i]) == h;
        }
        forall h | h in HopSet(ns) ensures h in HopSet(ns[..n]) + {HopOf(ns[n])} {
          var i :| 0 <= i <= n && HopOf(ns[i]) == h;
          assert i < n ==> HopOf(ns[..n][i]) == h;
        }
      }
    }
  }

  lemma SameSizeSubset<T>(a: set<T>, b: set<T>)
    requires a <= b && |a| == |b|
    ensures a == b
  {
    assert |b - a| == |b| - |a|;
    assert b - a == {};
  }

  /** The installed route is judged in place exactly when it has the wanted hops, with the
      wanted weights unless a single hop hides its weight. */
  lemma JudgedInPlace(want: seq<Nexthop>, have: seq<Nexthop>, tail: Fields)
    requires Plain(tail) && forall i :: 0 <= i < |have| ==> Sound(have[i])
    ensures Match(NexthopMap(want), Nexthops(Listing(have, tail))) <==>
            && HopSet(want) == HopSet(have)
            && (|have| != 1 ==>
                  forall h :: h in NexthopMap(want) && h in NexthopMap(have) ==>
                    NexthopMap(want)[h] == NexthopMap(have)[h] || NexthopMap(have)[h] == WEIGHT_UNKNOWN)
  {
    ListingReadsBack(have, tail);
    MapKeys(want);
    MapKeys(have);
    var w, g := NexthopMap(want), Nexthops(Listing(have, tail));
    assert g.Keys == HopSet(have);
    assert |w| == |w.Keys| && |g| == |g.Keys|;
    if Match(w, g) {
      SameSizeSubset(w.Keys, g.Keys);
    }
  }

  // ----- everyone's default routes -------------------------------------------------------------

  datatype Observed = Observed(hop: Hop, metric: int)

  const REFUSING := {"unreachable", "blackhole", "prohibit", "throw"}

  /** A gateway field; text that is not an address of the family counts as no gateway. */
  function GatewayText(field: Option<string>, addresses: set<string>): string {
    if TextOf(field) in addresses then TextOf(field) else ""
  }

  function ObservedIn(line: Fields, addresses: set<string>): Option<Observed> {
    if line == [] || line[0] in REFUSING then None
    else
      var dev := TextOf(FieldAfter(line, "dev"));
      if dev == "" || dev == "lo" then None
      else
        var metric := Atoi(TextOf(FieldAfter(line, "metric")));
        Some(Observed(Hop(GatewayText(FieldAfter(line, "via"), addresses), dev), if metric.Some? then metric.value else 0))
  }

  function DefaultRoutes(lines: seq<Fields>, addresses: set<string>): seq<Observed> {
    if lines == [] then []
    else
      var n := |lines| - 1;
      var r := ObservedIn(lines[n], addresses);
      DefaultRoutes(lines[..n], addresses) + if r.Some? then [r.value] else []
  }

  method ParseDefaultRoutes(lines: seq<Fields>, addresses: set<string>) returns (routes: seq<Observed>)
    ensures routes == DefaultRoutes(lines, addresses)
  {
    routes := [];
    for i := 0 to |lines|
      invariant routes == DefaultRoutes(lines[..i], addresses)
    {
      assert lines[..i + 1][..i] == lines[..i];
      var r := ObservedIn(lines[i], addresses);
      if r.Some? {
        routes := routes + [r.value];
      }
    }
    assert lines[..|lines|] == lines;
  }

  // ----- taking the managed route out of the listing ---------------------------------------------

  function Hops(rs: seq<Observed>): seq<Hop> {
    seq(|rs|, i requires 0 <= i < |rs| => rs[i].hop)
  }

  function Count(h: Hop, rs: seq<Observed>): nat {
    if rs == [] then 0
    else
      var n := |rs| - 1;
      Count(h, rs[..n]) + if rs[n].hop == h then 1 else 0
  }

  lemma {:induction false} CountIsMultiplicity(h: Hop, rs: seq<Observed>)
    ensures Count(h, rs) == multiset(Hops(rs))[h]
  {
    if rs != [] {
      var n := |rs| - 1;
      CountIsMultiplicity(h, rs[..n]);
      assert Hops(rs) == Hops(rs[..n]) + [rs[n].hop];
    }
  }

  /** What is left of a listing: of each hop the first Count(drop) occurrences are gone. */
  function Subtracted(all: seq<Observed>, drop: seq<Observed>): seq<Observed> {
    if all == [] then []
    else
      var n := |all| - 1;
      Subtracted(all[..n], drop) +
      if Count(all[n].hop, all[..n]) < Count(all[n].hop, drop) then [] else [all[n]]
  }

  lemma CountOneMore(rs: seq<Observed>, n: nat)
    requires n < |rs|
    ensures forall h :: Count(h, rs[..n + 1]) == Count(h, rs[..n]) + if rs[n].hop == h then 1 else 0
  {
    assert rs[..n + 1][..n] == rs[..n];
  }

  function Left(counts: map<Hop, int>, h: Hop): int {
    if h in counts then counts[h] else 0
  }

  method CountRoutes(drop: seq<Observed>) returns (counts: map<Hop, int>)
    ensures forall h :: Left(counts, h) == Count(h, drop)
  {
    counts := map[];
    for i := 0 to |drop|
      invariant forall h :: Left(counts, h) == Count(h, drop[..i])
    {
      CountOneMore(drop, i);
      var h := drop[i].hop;
      ghost var before := counts;
      counts := counts[h := Left(counts, h) + 1];
      assert forall g :: Left(counts, g) == Left(before, g) + if g == h then 1 else 0;
    }
    assert drop[..|drop|] == drop;
  }

  method SubtractRoutes(all: seq<Observed>, drop: seq<Observed>) returns (rest: seq<Observed>)
    ensures rest == Subtracted(all, drop)
  {
    var counts := CountRoutes(drop);
    rest := [];
    for i := 0 to |all|
      invariant rest == Subtracted(all[..i], drop)
      invariant forall h :: Left(counts, h) == Minus(Count(h, drop), Count(h, all[..i]))
    {
      var h := all[i].hop;
      assert all[..i + 1][..i] == all[..i];
      CountOneMore(all, i);
      if Left(counts, h) > 0 {
        counts := counts[h := Left(counts, h) - 1];
        continue;
      }
      rest := rest + [all[i]];
    }
    assert all[..|all|] == all;
  }

  function Minus(a: nat, b: nat): nat {
    if a <= b then 0 else a - b
  }

  /** What remains keeps the listing's order. */
  ghost predicate Subsequence(part: seq<Observed>, all: seq<Observed>) {
    if part == [] then true
    else if all == [] then false
    else
      || (part[|part| - 1] == all[|all| - 1] && Subsequence(part[..|part| - 1], all[..|all| - 1]))
      || Subsequence(part, all[..|all| - 1])
  }

  lemma {:induction false} SubtractedIsASubsequence(all: seq<Observed>, drop: seq<Observed>)
    ensures Subsequence(Subtracted(all, drop), all)
  {
    if all != [] {
      var n := |all| - 1;
      SubtractedIsASubsequence(all[..n], drop);
      var rest := Subtracted(all[..n], drop);
      assert (rest + [all[n]])[..|rest|] == rest && rest + [] == rest;
    }
  }

  /** Every hop loses what is to be dropped of it, and no more. */
  lemma {:induction false} SubtractedCounts(all: seq<Observed>, drop: seq<Observed>, h: Hop)
    ensures Count(h, Subtracted(all, drop)) == Minus(Count(h, all), Count(h, drop))
  {
    if all != [] {
      var n := |all| - 1;
      SubtractedCounts(all[..n], drop, h);
      var rest := Subtracted(all[..n], drop);
      assert (rest + [all[n]])[..|rest|] == rest && rest + [] == rest;
    }
  }

  /** A listing that holds the managed hops and foreign routes, in any interleaving, leaves
      the foreign hops, each as often as it occurs. */
  lemma ForeignRoutesRemain(all: seq<Observed>, own: seq<Observed>, foreign: seq<Observed>)
    requires multiset(Hops(all)) == multiset(Hops(own)) + multiset(Hops(foreign))
    ensures multiset(Hops(Subtracted(all, own))) == multiset(Hops(foreign))
    ensures Subsequence(Subtracted(all, own), all)
  {
    forall h
      ensures multiset(Hops(Subtracted(all, own)))[h] == multiset(Hops(foreign))[h]
    {
      SubtractedCounts(all, own, h);
      CountIsMultiplicity(h, all);
      CountIsMultiplicity(h, own);
      CountIsMultiplicity(h, Subtracted(all, own));
    }
    SubtractedIsASubsequence(all, own);
  }

  lemma AnywhereInTheListing(b: seq<Observed>, o: seq<Observed>, a: seq<Observed>, own: seq<Observed>)
    requires Hops(o) == Hops(own)
    ensures multiset(Hops(Subtracted(b + o + a, own))) == multiset(Hops(b + a))
  {
    assert Hops(b + o + a) == Hops(b) + Hops(o) + Hops(a);
    assert Hops(b + a) == Hops(b) + Hops(a);
    ForeignRoutesRemain(b + o + a, own, b + a);
  }

  lemma {:induction false} RoutesOfConcat(a: seq<Fields>, b: seq<Fields>, addresses: set<string>)
    ensures DefaultRoutes(a + b, addresses) == DefaultRoutes(a, addresses) + DefaultRoutes(b, addresses)
  {
    if b == [] {
      assert a + b == a;
    } else {
      assert (a + b)[..|a + b| - 1] == a + b[..|b| - 1];
      RoutesOfConcat(a, b[..|b| - 1], addresses);
    }
  }

  function OwnHop(n: Nexthop, addresses: set<string>): Hop {
    Hop(if n.via in addresses then n.via else "", n.dev)
  }

  function OwnHops(ns: seq<Nexthop>, addresses: set<string>): seq<Hop> {
    seq(|ns|, i requires 0 <= i < |ns| => OwnHop(ns[i], addresses))
  }

  lemma HopLineObserved(before: string, n: Nexthop, tail: Fields, addresses: set<string>)
    requires Sound(n) && before !in KEYWORDS && before !in REFUSING && "via" !in tail
    ensures var line := [before] + HopWords(n) + tail;
            ObservedIn(line, addresses).Some? && ObservedIn(line, addresses).value.hop == OwnHop(n, addresses)
  {
    HopWordsFound(before, n, tail);
  }

  lemma NexthopObserved(n: Nexthop, addresses: set<string>)
    requires Sound(n)
    ensures ObservedIn(HopLine(n), addresses).Some? && ObservedIn(HopLine(n), addresses).value.hop == OwnHop(n, addresses)
  {
    DecimalIsNoKeyword(n.weight);
    HopLineObserved("nexthop", n, ["weight", Itoa(n.weight)], addresses);
    assert HopLine(n) == ["nexthop"] + HopWords(n) + ["weight", Itoa(n.weight)];
  }

  lemma OneMoreRoute(lines: seq<Fields>, addresses: set<string>)
    requires lines != [] && ObservedIn(lines[|lines| - 1], addresses).Some?
    ensures var n := |lines| - 1;
            Hops(DefaultRoutes(lines, addresses)) ==
            Hops(DefaultRoutes(lines[..n], addresses)) + [ObservedIn(lines[n], addresses).value.hop]
  {
  }

  lemma {:induction false} HopLinesObserved(ns: seq<Nexthop>, addresses: set<string>)
    requires forall i :: 0 <= i < |ns| ==> Sound(ns[i])
    ensures Hops(DefaultRoutes(HopLines(ns), addresses)) == OwnHops(ns, addresses)
  {
    if ns != [] {
      var n := |ns| - 1;
      HopLinesObserved(ns[..n], addresses);
      assert HopLines(ns)[..n] == HopLines(ns[..n]);
      NexthopObserved(ns[n], addresses);
      OneMoreRoute(HopLines(ns), addresses);
      assert OwnHops(ns, addresses) == OwnHops(ns[..n], addresses) + [OwnHop(ns[n], addresses)];
    }
  }

  /** The printed managed route is seen as its hops, however the tool words the rest. */
  lemma ListingObserved(ns: seq<Nexthop>, tail: Fields, addresses: set<string>)
    requires Plain(tail) && forall i :: 0 <= i < |ns| ==> Sound(ns[i])
    ensures Hops(DefaultRoutes(Listing(ns, tail), addresses)) == OwnHops(ns, addresses)
  {
    if |ns| == 1 {
      SingleObserved(ns[0], tail, addresses);
      assert Listing(ns, tail) == [["default"] + HopWords(ns[0]) + tail];
      assert OwnHops(ns, addresses) == [OwnHop(ns[0], addresses)];
    } else {
      SeveralObserved(ns, tail, addresses);
    }
  }

  lemma SingleObserved(n: Nexthop, tail: Fields, addresses: set<string>)
    requires Plain(tail) && Sound(n)
    ensures Hops(DefaultRoutes([["default"] + HopWords(n) + tail], addresses)) == [OwnHop(n, addresses)]
  {
    HopLineObserved("default", n, tail, addresses);
    var line := ["default"] + HopWords(n) + tail;
    OneMoreRoute([line], addresses);
    assert [line][..0] == [];
  }

  lemma HeadIsNoRoute(head: Fields, addresses: set<string>)
    requires "dev" !in head
    ensures DefaultRoutes([head], addresses) == []
  {
    NoFieldAfter(head, "dev");
    assert [head][..0] == [];
  }

  lemma SeveralObserved(ns: seq<Nexthop>, tail: Fields, addresses: set<string>)
    requires Plain(tail) && forall i :: 0 <= i < |ns| ==> Sound(ns[i])
    ensures Hops(DefaultRoutes([["default"] + tail] + HopLines(ns), addresses)) == OwnHops(ns, addresses)
  {
    var head := ["default"] + tail;
    HeadIsNoRoute(head, addresses);
    RoutesOfConcat([head], HopLines(ns), addresses);
    assert [] + DefaultRoutes(HopLines(ns), addresses) == DefaultRoutes(HopLines(ns), addresses);
    HopLinesObserved(ns, addresses);
  }

  /** What absorbGatewayFamily sees: all default routes minus the managed route. */
  function ForeignDefaults(all: seq<Fields>, own: seq<Fields>, addresses: set<string>): seq<Observed> {
    Subtracted(DefaultRoutes(all, addresses), DefaultRoutes(own, addresses))
  }

  /** The managed route never seeds itself: wherever its lines stand in the full listing, and
      however differently its own listing words them, what is left has the foreign hops. */
  lemma OwnRouteNeverSeedsItself(before: seq<Fields>, after: seq<Fields>, ns: seq<Nexthop>,
                                 inFull: Fields, alone: Fields, addresses: set<string>)
    requires Plain(inFull) && Plain(alone) && forall i :: 0 <= i < |ns| ==> Sound(ns[i])
    ensures multiset(Hops(ForeignDefaults(before + Listing(ns, inFull) + after, Listing(ns, alone), addresses))) ==
            multiset(Hops(DefaultRoutes(before + after, addresses)))
  {
    ListingObserved(ns, inFull, addresses);
    ListingObserved(ns, alone, addresses);
    RoutesOfConcat(before, after, addresses);
    RoutesOfConcat(before, Listing(ns, inFull), addresses);
    RoutesOfConcat(before + Listing(ns, inFull), after, addresses);
    AnywhereInTheListing(DefaultRoutes(before, addresses), DefaultRoutes(Listing(ns, inFull), addresses),
                         DefaultRoutes(after, addresses), DefaultRoutes(Listing(ns, alone), addresses));
  }
}
