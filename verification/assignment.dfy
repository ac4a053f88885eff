/** Bitwise arithmetic on naturals, as far as prefix slicing needs it. */
module Bits {

  function Pow2(n: nat): (r: nat)
    ensures r >= 1
  {
    if n == 0 then 1 else 2 * Pow2(n - 1)
  }

  function Or(a: nat, b: nat): nat
    decreases a + b
  {
    if a == 0 && b == 0 then 0
    else 2 * Or(a / 2, b / 2) + if a % 2 == 1 || b % 2 == 1 then 1 else 0
  }

  function And(a: nat, b: nat): nat {
    if a == 0 || b == 0 then 0
    else 2 * And(a / 2, b / 2) + if a % 2 == 1 && b % 2 == 1 then 1 else 0
  }

  /** The top len bits of a 64-bit half. */
  function HighMask(len: nat): nat
    requires len <= 64
  {
    MaskBelow(64 - len);
    Pow2(64) - Pow2(64 - len)
  }

  lemma {:induction false} MaskBelow(s: nat)
    requires s <= 64
    ensures Pow2(s) <= Pow2(64)
  {
    PowMonotone(s, 64);
  }

  lemma {:induction false} PowMonotone(a: nat, b: nat)
    requires a <= b
    ensures Pow2(a) <= Pow2(b)
    decreases b
  {
    if a < b {
      PowMonotone(a, b - 1);
    }
  }

  /** The low s bits. */
  function Low(a: nat, s: nat): (r: nat)
    ensures r <= a && r < Pow2(s)
    decreases s
  {
    if s == 0 then 0 else 2 * Low(a / 2, s - 1) + a % 2
  }

  /** Clearing the low s bits and adding something that fits them. */
  lemma {:induction false} FillLowBits(a: nat, n: nat, s: nat, index: nat)
    requires s <= n && a < Pow2(n) && index < Pow2(s)
    ensures var base := a - Low(a, s);
            Low(base, s) == 0 && Low(base + index, s) == index && base + index < Pow2(n)
    decreases s
  {
    if s > 0 {
      FillLowBits(a / 2, n - 1, s - 1, index / 2);
      var base := a - Low(a, s);
      var half := a / 2 - Low(a / 2, s - 1);
      assert base == 2 * half;
      assert (base + index) / 2 == half + index / 2 && (base + index) % 2 == index % 2;
      assert base / 2 == half && base % 2 == 0;
    }
  }

  lemma {:induction false} AndAllOnes(a: nat, m: nat)
    requires a < Pow2(m)
    ensures And(a, Pow2(m) - 1) == a
  {
    if m > 0 {
      AndAllOnes(a / 2, m - 1);
      assert (Pow2(m) - 1) / 2 == Pow2(m - 1) - 1;
    }
  }

  lemma {:induction false} AndMask(a: nat, m: nat, s: nat)
    requires s <= m && a < Pow2(m)
    ensures Pow2(s) <= Pow2(m)
    ensures And(a, Pow2(m) - Pow2(s)) == a - Low(a, s)
  {
    PowMonotone(s, m);
    if s == 0 {
      AndAllOnes(a, m);
    } else {
      AndMask(a / 2, m - 1, s - 1);
      PowMonotone(s - 1, m - 1);
      var mask := Pow2(m) - Pow2(s);
      assert mask / 2 == Pow2(m - 1) - Pow2(s - 1) && mask % 2 == 0;
      if a != 0 && mask != 0 {
        assert And(a, mask) == 2 * And(a / 2, mask / 2);
      } else if a != 0 {
        assert And(a / 2, mask / 2) == 0;
      }
    }
  }

  lemma {:induction false} OrOfDisjoint(a: nat, b: nat, s: nat)
    requires Low(a, s) == 0 && b < Pow2(s)
    ensures Or(a, b) == a + b
    decreases s
  {
    if s == 0 {
      OrZero(a);
    } else {
      OrOfDisjoint(a / 2, b / 2, s - 1);
    }
  }

  /** base + index keeps the masked bits of base, when index fits below the mask. */
  lemma SumKeepsMask(a: nat, n: nat, s: nat, index: nat)
    requires s <= n && a < Pow2(n) && index < Pow2(s)
    ensures Pow2(s) <= Pow2(n)
    ensures a - Low(a, s) + index < Pow2(n)
    ensures And(a - Low(a, s) + index, Pow2(n) - Pow2(s)) == a - Low(a, s)
  {
    FillLowBits(a, n, s, index);
    AndMask(a - Low(a, s) + index, n, s);
  }

  lemma OrFillsMask(a: nat, n: nat, s: nat, index: nat)
    requires s <= n && a < Pow2(n) && index < Pow2(s)
    ensures Or(a - Low(a, s), index) == a - Low(a, s) + index
  {
    FillLowBits(a, n, s, index);
    OrOfDisjoint(a - Low(a, s), index, s);
  }

  /** Masking to the top bits and OR-ing in something that fits below them. */
  lemma MaskThenOr(a: nat, n: nat, s: nat, mask: nat, index: nat)
    requires s <= n && a < Pow2(n) && index < Pow2(s) && mask + Pow2(s) == Pow2(n)
    ensures var r := Or(And(a, mask), index);
            r == And(a, mask) + index && r < Pow2(n) && And(r, mask) == And(a, mask)
  {
    var base := a - Low(a, s);
    assert And(a, mask) == base by { AndMask(a, n, s); }
    assert Or(base, index) == base + index by { OrFillsMask(a, n, s, index); }
    SumKeepsMask(a, n, s, index);
  }

  lemma {:induction false} PowSum(a: nat, b: nat)
    ensures Pow2(a + b) == Pow2(a) * Pow2(b)
  {
    if b > 0 {
      PowSum(a, b - 1);
    }
  }

  /** Shifted right by s. */
  function Shr(a: nat, s: nat): nat
    decreases s
  {
    if s == 0 then a else Shr(a / 2, s - 1)
  }

  lemma {:induction false} ClearedIsShifted(a: nat, s: nat)
    ensures a - Low(a, s) == Pow2(s) * Shr(a, s)
    decreases s
  {
    if s > 0 {
      ClearedIsShifted(a / 2, s - 1);
      assert a - Low(a, s) == 2 * (a / 2 - Low(a / 2, s - 1));
      assert Pow2(s) * Shr(a, s) == 2 * (Pow2(s - 1) * Shr(a / 2, s - 1));
    }
  }

  /** Under the mask of the top len bits two halves agree exactly when they do shifted to those. */
  lemma SameTopBits(a: nat, b: nat, len: nat)
    requires a < Pow2(64) && b < Pow2(64) && len <= 64
    ensures And(a, HighMask(len)) == And(b, HighMask(len)) <==> Shr(a, 64 - len) == Shr(b, 64 - len)
  {
    SameMasked(a, b, 64, 64 - len, HighMask(len));
  }

  lemma SameMasked(a: nat, b: nat, n: nat, s: nat, mask: nat)
    requires s <= n && a < Pow2(n) && b < Pow2(n) && mask + Pow2(s) == Pow2(n)
    ensures And(a, mask) == And(b, mask) <==> Shr(a, s) == Shr(b, s)
  {
    TopBits(a, n, s, mask);
    TopBits(b, n, s, mask);
    SameFactor(Pow2(s), Shr(a, s), Shr(b, s));
  }

  lemma TopBits(a: nat, n: nat, s: nat, mask: nat)
    requires s <= n && a < Pow2(n) && mask + Pow2(s) == Pow2(n)
    ensures And(a, mask) == Pow2(s) * Shr(a, s)
  {
    AndMask(a, n, s);
    ClearedIsShifted(a, s);
  }

  lemma SameFactor(p: nat, x: nat, y: nat)
    requires p >= 1
    ensures p * x == p * y <==> x == y
  {
    if x < y {
      assert p * y == p * x + p * (y - x);
    } else if y < x {
      assert p * x == p * y + p * (x - y);
    }
  }

  lemma {:induction false} OrZero(a: nat)
    ensures Or(a, 0) == a
  {
    if a != 0 {
      OrZero(a / 2);
    }
  }
}

/** Slicing a delegation into /64s and handing them to subnets in priority order. */
module Assign {
  import opened Common
  import opened Bits
  import Claims

  datatype Addr = Addr(hi: nat, lo: nat)

  /** A prefix no longer than 64 bits: its upper half and its length. */
  datatype Block = Block(hi: nat, len: nat)

  datatype Uplink = Uplink(name: string, subnetPriority: seq<string>, allowInbound: bool)

  datatype Options = Options(
    table: string,
    internal: Option<Block>,
    subnets: map<string, Block>,
    uplinks: seq<Uplink>,
    leakProtection: bool)

  datatype Lease = Lease(prefix: Addr, length: int)

  datatype Assignment = Assignment(uplink: string, subnet: string, internal: Block, external: Block)

  const MAX_INT32: nat := 2147483647

  function SlotsFor(delegationLen: int): nat {
    if delegationLen <= 0 || delegationLen > 64 then 0
    else
      var shift := 64 - delegationLen;
      if shift >= 31 then MAX_INT32 else Pow2(shift)
  }

  function SubnetAt(prefix: Addr, delegationLen: nat, index: nat): Block
    requires 0 < delegationLen <= 64
  {
    Block(Or(And(prefix.hi, HighMask(delegationLen)), index), 64)
  }

  /** The named subnets that exist, in order. */
  function Known(subnets: map<string, Block>, names: seq<string>): (known: seq<string>)
    ensures forall k :: k in known ==> k in subnets
  {
    if names == [] then []
    else
      var n := |names| - 1;
      Known(subnets, names[..n]) + if names[n] in subnets then [names[n]] else []
  }

  function Min(a: nat, b: nat): nat {
    if a <= b then a else b
  }

  function Mapped(o: Options, uplink: string, known: seq<string>, lease: Lease, count: nat): seq<Assignment>
    requires count <= |known| && count <= SlotsFor(lease.length)
    requires forall k :: k in known ==> k in o.subnets
  {
    seq(count, i requires 0 <= i < count =>
      Assignment(uplink, known[i], o.subnets[known[i]], SubnetAt(lease.prefix, lease.length, i)))
  }

  lemma MappedGrows(o: Options, uplink: string, known: seq<string>, name: string, lease: Lease)
    requires name in o.subnets && forall k :: k in known ==> k in o.subnets
    ensures forall c: nat :: c <= |known| && c <= SlotsFor(lease.length) ==>
              Mapped(o, uplink, known + [name], lease, c) == Mapped(o, uplink, known, lease, c)
    ensures var n := |known|;
            n < SlotsFor(lease.length) ==>
              Mapped(o, uplink, known + [name], lease, n + 1) ==
              Mapped(o, uplink, known, lease, n) +
              [Assignment(uplink, name, o.subnets[name], SubnetAt(lease.prefix, lease.length, n))]
  {
  }

  function UplinkNamed(uplinks: seq<Uplink>, name: string): Option<Uplink> {
    if uplinks == [] then None
    else if uplinks[0].name == name then Some(uplinks[0])
    else UplinkNamed(uplinks[1..], name)
  }

  /** The first subnets by priority get the slots there are; the rest are dropped in order. */
  method AssignUplink(o: Options, uplink: string, lease: Lease)
    returns (given: seq<Assignment>, dropped: seq<string>)
    ensures match UplinkNamed(o.uplinks, uplink)
            case None => given == [] && dropped == []
            case Some(u) =>
              var known := Known(o.subnets, u.subnetPriority);
              var count := Min(SlotsFor(lease.length), |known|);
              given == Mapped(o, uplink, known, lease, count) && dropped == known[count..]
  {
    var slots := SlotsFor(lease.length);
    var found := UplinkNamed(o.uplinks, uplink);
    given, dropped := [], [];
    if found.None? {
      return;
    }
    var names := found.value.subnetPriority;
    ghost var seen: seq<string> := [];
    for i := 0 to |names|
      invariant seen == Known(o.subnets, names[..i])
      invariant given == Mapped(o, uplink, seen, lease, Min(slots, |seen|))
      invariant dropped == seen[Min(slots, |seen|)..]
    {
      assert names[..i + 1][..i] == names[..i];
      if names[i] !in o.subnets {
        continue;
      }
      MappedGrows(o, uplink, seen, names[i], lease);
      seen := seen + [names[i]];
      if |given| >= slots {
        dropped := dropped + [names[i]];
        continue;
      }
      given := given + [Assignment(uplink, names[i], o.subnets[names[i]],
                                   SubnetAt(lease.prefix, lease.length, |given|))];
    }
    assert names[..|names|] == names;
  }

  // ----- the slices of one delegation ----------------------------------------------------

  lemma ManySlots()
    ensures MAX_INT32 < Pow2(31)
  {
    assert Pow2(11) == 2048;
    assert Pow2(21) == 2097152;
  }

  lemma SlotsFit(delegationLen: nat)
    requires 0 < delegationLen <= 64
    ensures SlotsFor(delegationLen) <= Pow2(64 - delegationLen)
  {
    var shift := 64 - delegationLen;
    if shift >= 31 {
      ManySlots();
      PowMonotone(31, shift);
    }
  }

  /** The index fills bits the delegation leaves clear: the OR is a sum, the slice lies inside
      the delegation even when the lease's prefix has bits set beyond its length, and it is
      still a 64-bit value. */
  lemma SliceOfDelegation(prefix: Addr, delegationLen: nat, index: nat)
    requires prefix.hi < Pow2(64) && 0 < delegationLen <= 64 && index < SlotsFor(delegationLen)
    ensures var hi := SubnetAt(prefix, delegationLen, index).hi;
            && hi == And(prefix.hi, HighMask(delegationLen)) + index
            && hi < Pow2(64)
            && And(hi, HighMask(delegationLen)) == And(prefix.hi, HighMask(delegationLen))
  {
    SlotsFit(delegationLen);
    MaskThenOr(prefix.hi, 64, 64 - delegationLen, HighMask(delegationLen), index);
  }

  lemma SlicesAreDisjoint(prefix: Addr, delegationLen: nat, i: nat, j: nat)
    requires prefix.hi < Pow2(64) && 0 < delegationLen <= 64
    requires i < SlotsFor(delegationLen) && j < SlotsFor(delegationLen)
    ensures SubnetAt(prefix, delegationLen, i) == SubnetAt(prefix, delegationLen, j) <==> i == j
  {
    SliceOfDelegation(prefix, delegationLen, i);
    SliceOfDelegation(prefix, delegationLen, j);
  }

  // ----- all uplinks ----------------------------------------------------------------------

  function AssignedTo(o: Options, u: Uplink, lease: Lease): seq<Assignment> {
    var known := Known(o.subnets, u.subnetPriority);
    Mapped(o, u.name, known, lease, Min(SlotsFor(lease.length), |known|))
  }

  /** As many slots as a delegation has 64-bit networks, up to the largest 32-bit integer. */
  lemma SlotsExactly(delegationLen: int)
    ensures SlotsFor(delegationLen) ==
            if 1 <= delegationLen <= 64 then Min(Pow2(64 - delegationLen), 0x7fff_ffff) else 0
  {
    if 1 <= delegationLen <= 64 {
      var shift := 64 - delegationLen;
      if shift >= 31 {
        ManySlots();
        PowMonotone(31, shift);
      } else {
        PowMonotone(shift, 30);
        assert Pow2(10) == 1024 && Pow2(20) == 1048576;
        assert Pow2(30) == 1073741824;
      }
    }
  }

  function KnownOne(subnets: map<string, Block>, x: string): seq<string> {
    if x in subnets then [x] else []
  }

  lemma KnownOfMore(subnets: map<string, Block>, names: seq<string>, x: string)
    ensures Known(subnets, names + [x]) == Known(subnets, names) + KnownOne(subnets, x)
  {
    assert (names + [x])[..|names|] == names;
  }

  /** The known names are those that exist, in the order they are listed: one by one, and joined. */
  lemma KnownOfOne(subnets: map<string, Block>, x: string)
    ensures Known(subnets, [x]) == if x in subnets then [x] else []
  {
    KnownOfMore(subnets, [], x);
    assert [] + [x] == [x];
  }

  lemma {:induction false} KnownOfJoin(subnets: map<string, Block>, a: seq<string>, b: seq<string>)
    ensures Known(subnets, a + b) == Known(subnets, a) + Known(subnets, b)
  {
    if b == [] {
      assert a + b == a;
    } else {
      var init, last := b[..|b| - 1], b[|b| - 1];
      KnownOfJoin(subnets, a, init);
      KnownOfMore(subnets, a + init, last);
      KnownOfMore(subnets, init, last);
      assert b == init + [last];
      assert a + b == a + init + [last];
      Regroup(Known(subnets, a), Known(subnets, init), KnownOne(subnets, last));
    }
  }

  lemma Regroup(a: seq<string>, b: seq<string>, c: seq<string>)
    ensures (a + b) + c == a + (b + c)
  {
  }

  /** What an uplink is given: its subnets that exist, by priority, each the next 64-bit network of
      the delegation, for as long as there are any. */
  lemma AssignedInOrder(o: Options, u: Uplink, lease: Lease)
    requires lease.prefix.hi < Pow2(64)
    ensures var list, known := AssignedTo(o, u, lease), Known(o.subnets, u.subnetPriority);
            && |list| == (if 1 <= lease.length <= 64 then Min(Min(Pow2(64 - lease.length), 0x7fff_ffff), |known|) else 0)
            && forall i :: 0 <= i < |list| ==>
                 && 1 <= lease.length <= 64 && known[i] in o.subnets
                 && list[i] == Assignment(u.name, known[i], o.subnets[known[i]],
                                          Block(And(lease.prefix.hi, HighMask(lease.length)) + i, 64))
  {
    SlotsExactly(lease.length);
    var list := AssignedTo(o, u, lease);
    forall i | 0 <= i < |list|
      ensures list[i].external == Block(And(lease.prefix.hi, HighMask(lease.length)) + i, 64)
    {
      SliceOfDelegation(lease.prefix, lease.length, i);
    }
  }

  /** Uplinks that hold a lease and are active, in order. */
  function AssignedAll(o: Options, uplinks: seq<Uplink>, leases: map<string, Lease>, active: set<string>): seq<Assignment> {
    if uplinks == [] then []
    else
      var n := |uplinks| - 1;
      var u := uplinks[n];
      AssignedAll(o, uplinks[..n], leases, active) +
      if u.name in leases && u.name in active then AssignedTo(o, u, leases[u.name]) else []
  }

  /** Resolve lists every uplink once. */
  ghost predicate DistinctNames(uplinks: seq<Uplink>) {
    forall i, j :: 0 <= i < j < |uplinks| ==> uplinks[i].name != uplinks[j].name
  }

  lemma {:induction false} NamedIsListed(uplinks: seq<Uplink>, i: nat)
    requires DistinctNames(uplinks) && i < |uplinks|
    ensures UplinkNamed(uplinks, uplinks[i].name) == Some(uplinks[i])
  {
    if i > 0 {
      assert uplinks[0].name != uplinks[i].name;
      NamedIsListed(uplinks[1..], i - 1);
    }
  }

  method AssignmentsFor(o: Options, leases: map<string, Lease>, active: set<string>)
    returns (given: seq<Assignment>, dropped: map<string, seq<string>>)
    requires DistinctNames(o.uplinks)
    ensures given == AssignedAll(o, o.uplinks, leases, active)
  {
    given, dropped := [], map[];
    for i := 0 to |o.uplinks|
      invariant given == AssignedAll(o, o.uplinks[..i], leases, active)
    {
      var u := o.uplinks[i];
      assert o.uplinks[..i + 1][..i] == o.uplinks[..i];
      NamedIsListed(o.uplinks, i);
      if u.name !in leases || u.name !in active {
        continue;
      }
      var a, d := AssignUplink(o, u.name, leases[u.name]);
      given := given + a;
      if |d| > 0 {
        dropped := dropped[u.name := d];
      }
    }
    assert o.uplinks[..|o.uplinks|] == o.uplinks;
  }

  ghost predicate Valid64(leases: map<string, Lease>) {
    forall u :: u in leases ==> leases[u].prefix.hi < Pow2(64)
  }

  /** What every list of assignments satisfies: each slice lies in its uplink's delegation, and
      no uplink uses one slice twice. */
  ghost predicate Sliced(list: seq<Assignment>, leases: map<string, Lease>) {
    && (forall i :: 0 <= i < |list| ==>
          && list[i].uplink in leases && 0 < leases[list[i].uplink].length <= 64
          && list[i].external.len == 64 && list[i].external.hi < Pow2(64)
          && And(list[i].external.hi, HighMask(leases[list[i].uplink].length)) ==
             And(leases[list[i].uplink].prefix.hi, HighMask(leases[list[i].uplink].length)))
    && forall i, j :: 0 <= i < j < |list| && list[i].uplink == list[j].uplink ==> list[i].external != list[j].external
  }

  lemma OneUplinkIsSliced(o: Options, u: Uplink, leases: map<string, Lease>)
    requires Valid64(leases) && u.name in leases
    ensures Sliced(AssignedTo(o, u, leases[u.name]), leases)
    ensures forall a :: a in AssignedTo(o, u, leases[u.name]) ==> a.uplink == u.name
  {
    var lease := leases[u.name];
    var list := AssignedTo(o, u, lease);
    forall i | 0 <= i < |list|
      ensures list[i].external == SubnetAt(lease.prefix, lease.length, i) && i < SlotsFor(lease.length)
    {
      SliceOfDelegation(lease.prefix, lease.length, i);
    }
    forall i, j | 0 <= i < j < |list|
      ensures list[i].external != list[j].external
    {
      SlicesAreDisjoint(lease.prefix, lease.length, i, j);
    }
    forall i | 0 <= i < |list|
      ensures And(list[i].external.hi, HighMask(lease.length)) == And(lease.prefix.hi, HighMask(lease.length))
      ensures list[i].external.hi < Pow2(64)
    {
      SliceOfDelegation(lease.prefix, lease.length, i);
    }
  }

  lemma {:induction false} AllUplinksAreSliced(o: Options, uplinks: seq<Uplink>, leases: map<string, Lease>, active: set<string>)
    requires Valid64(leases) && DistinctNames(uplinks)
    ensures Sliced(AssignedAll(o, uplinks, leases, active), leases)
    ensures forall a :: a in AssignedAll(o, uplinks, leases, active) ==>
              exists i :: 0 <= i < |uplinks| && uplinks[i].name == a.uplink
  {
    if uplinks != [] {
      var n := |uplinks| - 1;
      var u := uplinks[n];
      AllUplinksAreSliced(o, uplinks[..n], leases, active);
      var before := AssignedAll(o, uplinks[..n], leases, active);
      forall a | a in before
        ensures a.uplink != u.name && exists i :: 0 <= i < |uplinks| && uplinks[i].name == a.uplink
      {
        var i :| 0 <= i < n && uplinks[..n][i].name == a.uplink;
        assert uplinks[i].name == a.uplink;
      }
      if u.name in leases && u.name in active {
        OneUplinkIsSliced(o, u, leases);
        SlicedJoin(before, AssignedTo(o, u, leases[u.name]), leases, u.name);
      }
    }
  }

  lemma SlicedJoin(a: seq<Assignment>, b: seq<Assignment>, leases: map<string, Lease>, name: string)
    requires Sliced(a, leases) && Sliced(b, leases)
    requires (forall x :: x in a ==> x.uplink != name) && (forall x :: x in b ==> x.uplink == name)
    ensures Sliced(a + b, leases)
  {
    forall i, j | 0 <= i < j < |a + b| && (a + b)[i].uplink == (a + b)[j].uplink
      ensures (a + b)[i].external != (a + b)[j].external
    {
      assert (a + b)[i].uplink != name ==> i < |a|;
      assert i < |a| ==> a[i] in a;
      assert j >= |a| ==> b[j - |a|] in b;
    }
  }

  // ----- proxy addresses --------------------------------------------------------------------

  datatype Host = Host(addr: Addr, uplink: string)

  function ExternalAddr(external: Block, host: Addr): Addr {
    Addr(external.hi, host.lo)
  }

  function EntryFor(a: Assignment, h: Host): Claims.Entry {
    var x := ExternalAddr(a.external, h.addr);
    Claims.Entry(Claims.Ip(x.hi, x.lo), a.uplink)
  }

  predicate Answers(a: Assignment, h: Host, proxied: set<string>) {
    a.uplink in proxied && h.uplink == a.uplink && h.addr.hi == a.internal.hi
  }

  function EntriesOf(list: seq<Assignment>, hosts: seq<Host>, proxied: set<string>): set<Claims.Entry> {
    set a, h | a in list && h in hosts && Answers(a, h, proxied) :: EntryFor(a, h)
  }

  method DesiredEntries(list: seq<Assignment>, hosts: seq<Host>, proxied: set<string>) returns (want: set<Claims.Entry>)
    ensures want == EntriesOf(list, hosts, proxied)
    ensures forall e :: e in want <==>
              exists a, h :: a in list && h in hosts && a.uplink in proxied && h.uplink == a.uplink && h.addr.hi == a.internal.hi
                && e == Claims.Entry(Claims.Ip(a.external.hi, h.addr.lo), a.uplink)
  {
    want := {};
    for i := 0 to |list|
      invariant want == EntriesOf(list[..i], hosts, proxied)
    {
      var a := list[i];
      assert list[..i + 1] == list[..i] + [a];
      var mine := {};
      for k := 0 to |hosts|
        invariant mine == EntriesOf([a], hosts[..k], proxied)
      {
        assert hosts[..k + 1] == hosts[..k] + [hosts[k]];
        if Answers(a, hosts[k], proxied) {
          mine := mine + {EntryFor(a, hosts[k])};
        }
      }
      assert hosts[..|hosts|] == hosts;
      want := want + mine;
    }
    assert list[..|list|] == list;
  }

  /** One proxy address stands for one assignment and one internal host. */
  lemma EntriesAreInjective(list: seq<Assignment>, leases: map<string, Lease>, proxied: set<string>,
                            i: nat, j: nat, h: Host, g: Host)
    requires Sliced(list, leases) && i < |list| && j < |list|
    requires Answers(list[i], h, proxied) && Answers(list[j], g, proxied)
    requires EntryFor(list[i], h) == EntryFor(list[j], g)
    ensures i == j && h == g
  {
    assert list[i].external == list[j].external && list[i].uplink == list[j].uplink;
  }

  /** Whatever delegation the uplink holds, the host keeps one burn key. */
  lemma RenumberingKeepsBurnKey(a: Assignment, b: Assignment, h: Host)
    requires a.uplink == b.uplink
    ensures Claims.BurnKey(EntryFor(a, h)) == Claims.BurnKey(EntryFor(b, h))
    ensures forall g: Host :: Claims.BurnKey(EntryFor(a, h)) == Claims.BurnKey(EntryFor(b, g)) <==> h.addr.lo == g.addr.lo
  {
  }
}
