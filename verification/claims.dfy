/** The reconciler's book of proxy-NDP claims: which addresses are contested, burned,
    in flight or proved, and what one pass decides about them. */
module Claims {
  import opened Common

  /** A 128-bit address as its two halves. An address that does not parse stays text. */
  datatype Address = Ip(net: nat, host: nat) | Unparsed(text: string)

  datatype Entry = Entry(addr: Address, uplink: string)

  datatype Kind = Speculative | Screened

  datatype Claim = Claim(entry: Entry, kind: Kind)

  datatype InFlight = InFlight(kind: Kind, deadline: int)

  /** Durations of any length: the source waits 2.5 s for a probe, gives up after four times
      that, and remembers a conflict for 30 s, but nothing proved depends on the numbers. */
  const PROBE_TIMEOUT: nat
  const GIVE_UP := 4 * PROBE_TIMEOUT
  const CONFLICT_RECHECK: nat

  /** The network half is forgotten, so a burn outlives a renumbering. */
  function BurnKey(e: Entry): Entry {
    match e.addr
    case Ip(_, host) => Entry(Ip(0, host), e.uplink)
    case Unparsed(_) => e
  }

  /** Two entries share a key exactly when they stand on one uplink and have one host half, or
      are the same. */
  lemma SharedBurnKey(e: Entry, f: Entry)
    ensures BurnKey(e) == BurnKey(f) <==>
            e.uplink == f.uplink && if e.addr.Ip? && f.addr.Ip? then e.addr.host == f.addr.host else e.addr == f.addr
  {
  }

  datatype Book = Book(
    conflicts: map<Entry, int>,
    burned: set<Entry>,
    probing: map<Entry, InFlight>,
    proved: set<Entry>)
  {
    predicate Burned(e: Entry) {
      BurnKey(e) in burned
    }

    predicate Remembers(e: Entry, now: int) {
      e in conflicts && now - conflicts[e] < CONFLICT_RECHECK
    }

    function Record(e: Entry, at: int): Book {
      this.(conflicts := conflicts[e := at], burned := burned + {BurnKey(e)})
    }
  }

  const EmptyBook := Book(map[], {}, map[], {})

  // ----- planning ------------------------------------------------------------------

  /** What planClaims decides about one missing entry. */
  datatype Fate = Waiting | Refused | Proved | Speculated | Held | Probed

  function FateOf(b: Book, local: set<Address>, now: int, here: set<Entry>, e: Entry): Fate {
    if e in b.probing then Waiting
    else if e.addr in local then Refused
    else if e in b.proved then Proved
    else if !b.Burned(e) && BurnKey(e) !in here then Speculated
    else if b.Remembers(e, now) then Held
    else Probed
  }

  /** Keys of the entries refused so far within one call. */
  function BurnedHere(b: Book, local: set<Address>, seen: seq<Entry>): set<Entry> {
    set e | e in seen && e !in b.probing && e.addr in local :: BurnKey(e)
  }

  function Fates(b: Book, local: set<Address>, now: int, missing: seq<Entry>): (f: seq<Fate>)
    ensures |f| == |missing|
  {
    seq(|missing|, i requires 0 <= i < |missing| =>
      FateOf(b, local, now, BurnedHere(b, local, missing[..i]), missing[i]))
  }

  /** The entries that met one fate, in order. */
  function Pick(missing: seq<Entry>, fates: seq<Fate>, fate: Fate): seq<Entry>
    requires |fates| == |missing|
  {
    if missing == [] then []
    else
      var n := |missing| - 1;
      Pick(missing[..n], fates[..n], fate) + if fates[n] == fate then [missing[n]] else []
  }

  function ClaimsOf(missing: seq<Entry>, fates: seq<Fate>): seq<Claim>
    requires |fates| == |missing|
  {
    if missing == [] then []
    else
      var n := |missing| - 1;
      ClaimsOf(missing[..n], fates[..n]) + ClaimFrom(missing[n], fates[n])
  }

  lemma {:induction false} PickDistinct(missing: seq<Entry>, fates: seq<Fate>, fate: Fate)
    requires |fates| == |missing| && Distinct(missing)
    ensures Distinct(Pick(missing, fates, fate))
  {
    if missing != [] {
      var n := |missing| - 1;
      PickDistinct(missing[..n], fates[..n], fate);
      PickMembers(missing[..n], fates[..n], fate, missing[n]);
    }
  }

  lemma {:induction false} PickMembers(missing: seq<Entry>, fates: seq<Fate>, fate: Fate, e: Entry)
    requires |fates| == |missing|
    ensures e in Pick(missing, fates, fate) <==> exists i :: 0 <= i < |missing| && missing[i] == e && fates[i] == fate
  {
    if missing != [] {
      var n := |missing| - 1;
      PickMembers(missing[..n], fates[..n], fate, e);
      if i :| 0 <= i < |missing| && missing[i] == e && fates[i] == fate {
        if i < n {
          assert missing[..n][i] == e && fates[..n][i] == fate;
        }
      }
      if i :| 0 <= i < n && missing[..n][i] == e && fates[..n][i] == fate {
        assert missing[i] == e && fates[i] == fate;
      }
    }
  }

  function KindFate(k: Kind): Fate {
    if k == Speculative then Speculated else Probed
  }

  lemma {:induction false} ClaimMembers(missing: seq<Entry>, fates: seq<Fate>, c: Claim)
    requires |fates| == |missing|
    ensures c in ClaimsOf(missing, fates) <==>
            exists i :: 0 <= i < |missing| && missing[i] == c.entry && fates[i] == KindFate(c.kind)
  {
    if missing != [] {
      var n := |missing| - 1;
      ClaimMembers(missing[..n], fates[..n], c);
      if i :| 0 <= i < |missing| && missing[i] == c.entry && fates[i] == KindFate(c.kind) {
        if i < n {
          assert missing[..n][i] == c.entry && fates[..n][i] == KindFate(c.kind);
        }
      }
      if i :| 0 <= i < n && missing[..n][i] == c.entry && fates[..n][i] == KindFate(c.kind) {
        assert missing[i] == c.entry && fates[i] == KindFate(c.kind);
      }
    }
  }

  /** planClaims as one value. */
  datatype Plan = Plan(claims: seq<Claim>, proved: seq<Entry>, refused: seq<Entry>)

  function PlanFor(b: Book, missing: seq<Entry>, local: set<Address>, now: int): Plan {
    var fates := Fates(b, local, now, missing);
    Plan(ClaimsOf(missing, fates), Pick(missing, fates, Proved), Pick(missing, fates, Refused))
  }

  function ClaimFrom(e: Entry, fate: Fate): seq<Claim> {
    match fate
    case Speculated => [Claim(e, Speculative)]
    case Probed => [Claim(e, Screened)]
    case _ => []
  }

  lemma PlanOneMore(missing: seq<Entry>, fates: seq<Fate>, i: nat)
    requires |fates| == |missing| && i < |missing|
    ensures ClaimsOf(missing[..i + 1], fates[..i + 1]) ==
            ClaimsOf(missing[..i], fates[..i]) + ClaimFrom(missing[i], fates[i])
    ensures forall f ::
              Pick(missing[..i + 1], fates[..i + 1], f) ==
              Pick(missing[..i], fates[..i], f) + if fates[i] == f then [missing[i]] else []
  {
    assert missing[..i + 1][..i] == missing[..i] && fates[..i + 1][..i] == fates[..i];
  }

  lemma BurnedOneMore(b: Book, local: set<Address>, missing: seq<Entry>, i: nat)
    requires i < |missing|
    ensures BurnedHere(b, local, missing[..i + 1]) ==
            BurnedHere(b, local, missing[..i]) +
            if missing[i] !in b.probing && missing[i].addr in local then {BurnKey(missing[i])} else {}
  {
    assert missing[..i + 1] == missing[..i] + [missing[i]];
  }

  method PlanClaims(b: Book, missing: seq<Entry>, local: set<Address>, now: int)
    returns (claims: seq<Claim>, proved: seq<Entry>, refused: seq<Entry>)
    ensures claims == ClaimsOf(missing, Fates(b, local, now, missing))
    ensures proved == Pick(missing, Fates(b, local, now, missing), Proved)
    ensures refused == Pick(missing, Fates(b, local, now, missing), Refused)
  {
    claims, proved, refused := [], [], [];
    if |missing| == 0 {
      return;
    }
    var burnedHere: set<Entry> := {};
    ghost var fates := Fates(b, local, now, missing);
    for i := 0 to |missing|
      invariant burnedHere == BurnedHere(b, local, missing[..i])
      invariant claims == ClaimsOf(missing[..i], fates[..i])
      invariant proved == Pick(missing[..i], fates[..i], Proved)
      invariant refused == Pick(missing[..i], fates[..i], Refused)
    {
      var e := missing[i];
      PlanOneMore(missing, fates, i);
      BurnedOneMore(b, local, missing, i);
      assert fates[i] == FateOf(b, local, now, burnedHere, e);
      if e in b.probing {
        continue;
      }
      if e.addr in local {
        refused := refused + [e];
        burnedHere := burnedHere + {BurnKey(e)};
        continue;
      }
      if e in b.proved {
        proved := proved + [e];
        continue;
      }
      if !b.Burned(e) && BurnKey(e) !in burnedHere {
        claims := claims + [Claim(e, Speculative)];
        continue;
      }
      if b.Remembers(e, now) {
        continue;
      }
      claims := claims + [Claim(e, Screened)];
    }
    assert missing[..|missing|] == missing && fates[..|missing|] == fates;
  }

  // ----- one pass --------------------------------------------------------------------

  datatype Action =
    | Withdraw(entry: Entry)
    | InstallProbed(entry: Entry)
    | InstallSpeculative(entry: Entry)
    | Offer(claims: seq<Claim>)

  /** What reading the neighbour table gave. */
  datatype Reading = Unreadable | Readable(entries: set<Entry>)

  /** Claims whose deadline has passed are forgotten. */
  function Sweep(b: Book, now: int): Book {
    Book(b.conflicts, b.burned, map e | e in b.probing && now < b.probing[e].deadline :: b.probing[e], b.proved)
  }

  function Wanted(b: Book, desired: set<Entry>, now: int): set<Entry> {
    set e | e in desired && !b.Remembers(e, now)
  }

  predicate InSync(b: Book, reading: Reading, want: set<Entry>) {
    reading.Readable? ==>
      && reading.entries - want == {}
      && want - reading.entries <= b.probing.Keys
  }

  /** The clock as read when a refusal of e is recorded. */
  function StampOf(stamps: map<Entry, int>, now: int, e: Entry): int {
    if e in stamps then stamps[e] else now
  }

  function Keys(entries: seq<Entry>): set<Entry> {
    set e | e in entries :: BurnKey(e)
  }

  function RecordAll(b: Book, refused: seq<Entry>, stamps: map<Entry, int>, now: int): Book {
    if refused == [] then b
    else
      var n := |refused| - 1;
      RecordAll(b, refused[..n], stamps, now).Record(refused[n], StampOf(stamps, now, refused[n]))
  }

  ghost predicate Claimed(claims: seq<Claim>, e: Entry) {
    exists c :: c in claims && c.entry == e
  }

  function Track(b: Book, claims: seq<Claim>, now: int): Book {
    if claims == [] then b
    else
      var n := |claims| - 1;
      var prior := Track(b, claims[..n], now);
      prior.(probing := prior.probing[claims[n].entry := InFlight(claims[n].kind, now + GIVE_UP)])
  }

  function Withdrawals(stale: seq<Entry>): seq<Action> {
    seq(|stale|, i requires 0 <= i < |stale| => Withdraw(stale[i]))
  }

  function ProbedInstalls(proved: seq<Entry>): seq<Action> {
    seq(|proved|, i requires 0 <= i < |proved| => InstallProbed(proved[i]))
  }

  function SpeculativeInstalls(claims: seq<Claim>): seq<Action> {
    if claims == [] then []
    else
      var n := |claims| - 1;
      SpeculativeInstalls(claims[..n]) +
      if claims[n].kind == Speculative then [InstallSpeculative(claims[n].entry)] else []
  }

  datatype Outcome = Outcome(book: Book, actions: seq<Action>)

  function ActOn(b: Book, stale: seq<Entry>, missing: seq<Entry>, local: set<Address>, now: int,
                 stamps: map<Entry, int>): Outcome
  {
    var plan := PlanFor(b, missing, local, now);
    var noted := RecordAll(b, plan.refused, stamps, now);
    var spent := noted.(proved := noted.proved - Range(plan.proved));
    Outcome(
      Track(spent, plan.claims, now),
      Withdrawals(stale) + ProbedInstalls(plan.proved) + SpeculativeInstalls(plan.claims) +
      if |plan.claims| > 0 then [Offer(plan.claims)] else [])
  }

  predicate Idle(b: Book, reading: Reading, desired: set<Entry>, now: int) {
    reading.Unreadable? || InSync(b, reading, Wanted(b, desired, now))
  }

  /** Sweep, compare, act: what the proxy-entry resource does in one pass. The two sequences
      list the stale and the missing entries in whatever order they were sorted. */
  function Pass(b: Book, reading: Reading, desired: set<Entry>, local: set<Address>, now: int,
                stamps: map<Entry, int>, stale: seq<Entry>, missing: seq<Entry>): Outcome
  {
    var swept := Sweep(b, now);
    if Idle(swept, reading, desired, now) then Outcome(swept, [])
    else ActOn(swept, stale, missing, local, now, stamps)
  }

  ghost predicate Listed(b: Book, reading: Reading, desired: set<Entry>, now: int,
                         stale: seq<Entry>, missing: seq<Entry>)
  {
    var want := Wanted(b, desired, now);
    reading.Readable? ==>
      && Enumerates(stale, reading.entries - want)
      && Enumerates(missing, want - reading.entries)
  }

  /** A verdict counts only while its claim is outstanding with the same kind. */
  function Judge(b: Book, e: Entry, kind: Kind, contested: bool, at: int): Book {
    if e !in b.probing || b.probing[e].kind != kind then b
    else
      var settled := b.(probing := b.probing - {e});
      if contested then settled.Record(e, at)
      else if kind == Screened then
        settled.(conflicts := settled.conflicts - {e}, proved := settled.proved + {e})
      else settled
  }

  function Shutdown(b: Book): Book {
    Book(map[], b.burned, map[], {})
  }

  // ----- the reconciler's own maps, updated in place ---------------------------------

  class Reconciler {
    var conflicts: map<Entry, int>
    var burned: set<Entry>
    var probing: map<Entry, InFlight>
    var proved: set<Entry>

    function Contents(): Book
      reads this
    {
      Book(conflicts, burned, probing, proved)
    }

    constructor ()
      ensures Contents() == EmptyBook
    {
      conflicts, burned, probing, proved := map[], {}, map[], {};
    }

    method RecordConflict(e: Entry, at: int)
      modifies this`conflicts, this`burned
      ensures Contents() == old(Contents()).Record(e, at)
    {
      conflicts := conflicts[e := at];
      burned := burned + {BurnKey(e)};
    }

    method ClearConflict(e: Entry)
      modifies this`conflicts
      ensures conflicts == old(conflicts) - {e}
    {
      if e in conflicts {
        conflicts := conflicts - {e};
      }
    }

    method HandleClaimVerified(e: Entry, kind: Kind, contested: bool, at: int)
      modifies this
      ensures Contents() == Judge(old(Contents()), e, kind, contested, at)
      ensures e !in old(probing) || old(probing)[e].kind != kind ==> Contents() == old(Contents())
      ensures e in old(probing) && old(probing)[e].kind == kind ==>
                && probing == old(probing) - {e}
                && burned == old(burned) + (if contested then {BurnKey(e)} else {})
                && conflicts == (if contested then old(conflicts)[e := at]
                                 else if kind == Screened then old(conflicts) - {e} else old(conflicts))
                && proved == old(proved) + if !contested && kind == Screened then {e} else {}
    {
      if e !in probing || probing[e].kind != kind {
        return;
      }
      probing := probing - {e};
      if contested {
        RecordConflict(e, at);
      } else if kind == Screened {
        ClearConflict(e);
        proved := proved + {e};
      }
    }

    method SweepInFlightClaims(now: int)
      modifies this`probing
      ensures Contents() == Sweep(old(Contents()), now)
    {
      ghost var before := probing;
      var todo := probing.Keys;
      while todo != {}
        invariant todo <= before.Keys
        invariant probing == map e | e in before && (e in todo || now < before[e].deadline) :: before[e]
        decreases |todo|
      {
        var e :| e in todo;
        todo := todo - {e};
        if !(now < probing[e].deadline) {
          probing := probing - {e};
        }
      }
    }

    method WantedProxyEntries(desired: set<Entry>, now: int) returns (want: set<Entry>)
      ensures want == Wanted(Contents(), desired, now)
    {
      want := {};
      var todo := desired;
      while todo != {}
        invariant todo <= desired
        invariant want == Wanted(Contents(), desired - todo, now)
        decreases |todo|
      {
        var e :| e in todo;
        todo := todo - {e};
        if !Contents().Remembers(e, now) {
          want := want + {e};
        }
      }
    }

    /** One pass over the proxy entries, in the order planReconcile takes its steps. */
    method ProxyPass(reading: Reading, desired: set<Entry>, local: set<Address>, now: int, stamps: map<Entry, int>)
      returns (acts: seq<Action>, stale: seq<Entry>, missing: seq<Entry>)
      modifies this
      ensures Listed(Sweep(old(Contents()), now), reading, desired, now, stale, missing)
      ensures Outcome(Contents(), acts) == Pass(old(Contents()), reading, desired, local, now, stamps, stale, missing)
    {
      SweepInFlightClaims(now);
      var want := WantedProxyEntries(desired, now);
      acts, stale, missing := [], [], [];
      if reading.Unreadable? {
        return;
      }
      stale := Enumerate(reading.entries - want);
      missing := Enumerate(want - reading.entries);
      if InSync(Contents(), reading, want) {
        return;
      }
      acts := ProxyEntryActions(stale, missing, local, now, stamps);
    }

    method ProxyEntryActions(stale: seq<Entry>, missing: seq<Entry>, local: set<Address>, now: int,
                             stamps: map<Entry, int>)
      returns (acts: seq<Action>)
      modifies this
      ensures Outcome(Contents(), acts) == ActOn(old(Contents()), stale, missing, local, now, stamps)
    {
      acts := [];
      for i := 0 to |stale|
        invariant acts == Withdrawals(stale[..i])
      {
        acts := acts + [Withdraw(stale[i])];
      }
      assert stale[..|stale|] == stale;

      var claims, free, refused := PlanClaims(Contents(), missing, local, now);
      RecordRefusals(refused, stamps, now);
      var installs := SpendProofs(free);
      acts := acts + installs;
      installs := TrackClaims(claims, now);
      acts := acts + installs;
      if |claims| > 0 {
        acts := acts + [Offer(claims)];
      }
    }

    method RecordRefusals(refused: seq<Entry>, stamps: map<Entry, int>, now: int)
      modifies this`conflicts, this`burned
      ensures Contents() == RecordAll(old(Contents()), refused, stamps, now)
    {
      for i := 0 to |refused|
        invariant Contents() == RecordAll(old(Contents()), refused[..i], stamps, now)
      {
        assert refused[..i + 1][..i] == refused[..i];
        RecordConflict(refused[i], StampOf(stamps, now, refused[i]));
      }
      assert refused[..|refused|] == refused;
    }

    method SpendProofs(free: seq<Entry>) returns (installs: seq<Action>)
      modifies this`proved
      ensures proved == old(proved) - Range(free)
      ensures installs == ProbedInstalls(free)
    {
      installs := [];
      for i := 0 to |free|
        invariant proved == old(proved) - Range(free[..i])
        invariant installs == ProbedInstalls(free[..i])
      {
        assert free[..i + 1] == free[..i] + [free[i]];
        proved := proved - {free[i]};
        installs := installs + [InstallProbed(free[i])];
      }
      assert free[..|free|] == free;
    }

    method TrackClaims(claims: seq<Claim>, now: int) returns (installs: seq<Action>)
      modifies this`probing
      ensures Contents() == Track(old(Contents()), claims, now)
      ensures installs == SpeculativeInstalls(claims)
    {
      installs := [];
      for i := 0 to |claims|
        invariant Contents() == Track(old(Contents()), claims[..i], now)
        invariant installs == SpeculativeInstalls(claims[..i])
      {
        assert claims[..i + 1][..i] == claims[..i];
        if claims[i].kind == Speculative {
          installs := installs + [InstallSpeculative(claims[i].entry)];
        }
        probing := probing[claims[i].entry := InFlight(claims[i].kind, now + GIVE_UP)];
      }
      assert claims[..|claims|] == claims;
    }
  }

  // ----- what one pass guarantees ----------------------------------------------------

  lemma {:induction false} RecordAllKeeps(b: Book, refused: seq<Entry>, stamps: map<Entry, int>, now: int)
    ensures var r := RecordAll(b, refused, stamps, now);
            && r.burned == b.burned + Keys(refused)
            && r.probing == b.probing && r.proved == b.proved
            && r.conflicts.Keys == b.conflicts.Keys + Range(refused)
            && forall e :: e in r.conflicts ==>
                 r.conflicts[e] == if e in refused then StampOf(stamps, now, e) else b.conflicts[e]
  {
    if refused != [] {
      var n := |refused| - 1;
      RecordAllKeeps(b, refused[..n], stamps, now);
      assert refused == refused[..n] + [refused[n]];
    }
  }

  lemma {:induction false} TrackKeeps(b: Book, claims: seq<Claim>, now: int)
    ensures var r := Track(b, claims, now);
            && r.burned == b.burned && r.conflicts == b.conflicts && r.proved == b.proved
            && (forall e :: e in r.probing <==> e in b.probing || Claimed(claims, e))
            && forall e :: e in r.probing ==>
                 if Claimed(claims, e)
                 then r.probing[e].deadline == now + GIVE_UP && Claim(e, r.probing[e].kind) in claims
                 else r.probing[e] == b.probing[e]
  {
    if claims != [] {
      var n := |claims| - 1;
      var prior := Track(b, claims[..n], now);
      TrackKeeps(b, claims[..n], now);
      assert claims == claims[..n] + [claims[n]];
      forall e
        ensures Claimed(claims, e) <==> Claimed(claims[..n], e) || e == claims[n].entry
      {
        if Claimed(claims[..n], e) {
          var c :| c in claims[..n] && c.entry == e;
          assert c in claims;
        }
      }
    }
  }

  lemma {:induction false} SpeculativeMembers(claims: seq<Claim>, a: Action)
    ensures a in SpeculativeInstalls(claims) <==> a.InstallSpeculative? && Claim(a.entry, Speculative) in claims
  {
    if claims != [] {
      var n := |claims| - 1;
      SpeculativeMembers(claims[..n], a);
      assert claims == claims[..n] + [claims[n]];
    }
  }

  /** Who ends up where in a plan. */
  lemma PlanMembers(b: Book, missing: seq<Entry>, local: set<Address>, now: int)
    ensures var plan := PlanFor(b, missing, local, now);
            && (forall e :: e in plan.proved ==>
                  e in missing && e in b.proved && e !in b.probing && e.addr !in local)
            && (forall e :: e in plan.refused ==> e in missing && e.addr in local)
            && (forall c :: c in plan.claims ==>
                  c.entry in missing && c.entry !in b.probing && c.entry !in b.proved && c.entry.addr !in local)
            && (forall c :: c in plan.claims && c.kind == Speculative ==> !b.Burned(c.entry))
            && (Distinct(missing) ==> Distinct(plan.proved))
  {
    var plan, fates := PlanFor(b, missing, local, now), Fates(b, local, now, missing);
    forall e | e in plan.proved
      ensures e in missing && e in b.proved && e !in b.probing && e.addr !in local
    {
      PickMembers(missing, fates, Proved, e);
    }
    forall e | e in plan.refused
      ensures e in missing && e.addr in local
    {
      PickMembers(missing, fates, Refused, e);
    }
    forall c | c in plan.claims
      ensures c.entry in missing && c.entry !in b.probing && c.entry !in b.proved && c.entry.addr !in local
      ensures c.kind == Speculative ==> !b.Burned(c.entry)
    {
      ClaimMembers(missing, fates, c);
    }
    if Distinct(missing) {
      PickDistinct(missing, fates, Proved);
    }
  }

  /** An entry looked at before i shares e's identifier and is configured on this host. */
  predicate SiblingRefused(b: Book, missing: seq<Entry>, local: set<Address>, i: nat, e: Entry)
    requires i <= |missing|
  {
    exists j :: 0 <= j < i && missing[j] !in b.probing && missing[j].addr in local && BurnKey(missing[j]) == BurnKey(e)
  }

  lemma SiblingKeys(b: Book, missing: seq<Entry>, local: set<Address>, i: nat, e: Entry)
    requires i <= |missing|
    ensures BurnKey(e) in BurnedHere(b, local, missing[..i]) <==> SiblingRefused(b, missing, local, i, e)
  {
    if x :| x in missing[..i] && x !in b.probing && x.addr in local && BurnKey(x) == BurnKey(e) {
      var j :| 0 <= j < i && missing[..i][j] == x;
      assert missing[j] == x;
    }
    if j :| 0 <= j < i && missing[j] !in b.probing && missing[j].addr in local && BurnKey(missing[j]) == BurnKey(e) {
      assert missing[..i][j] in missing[..i];
    }
  }

  lemma FateDecides(missing: seq<Entry>, fates: seq<Fate>, i: nat)
    requires |fates| == |missing| && i < |missing| && Distinct(missing)
    ensures forall fate :: missing[i] in Pick(missing, fates, fate) <==> fates[i] == fate
    ensures forall kind :: Claim(missing[i], kind) in ClaimsOf(missing, fates) <==> fates[i] == KindFate(kind)
  {
    forall fate
      ensures missing[i] in Pick(missing, fates, fate) <==> fates[i] == fate
    {
      PickMembers(missing, fates, fate, missing[i]);
    }
    forall kind
      ensures Claim(missing[i], kind) in ClaimsOf(missing, fates) <==> fates[i] == KindFate(kind)
    {
      ClaimMembers(missing, fates, Claim(missing[i], kind));
    }
  }

  /** Exactly what becomes of the i-th missing entry. */
  lemma PlanExactly(b: Book, missing: seq<Entry>, local: set<Address>, now: int, i: nat)
    requires Distinct(missing) && i < |missing|
    ensures var plan, e := PlanFor(b, missing, local, now), missing[i];
            var free := e !in b.probing && e.addr !in local;
            var suspect := b.Burned(e) || SiblingRefused(b, missing, local, i, e);
            && (e in plan.refused <==> e !in b.probing && e.addr in local)
            && (e in plan.proved <==> free && e in b.proved)
            && (Claim(e, Speculative) in plan.claims <==> free && e !in b.proved && !suspect)
            && (Claim(e, Screened) in plan.claims <==> free && e !in b.proved && suspect && !b.Remembers(e, now))
  {
    var fates := Fates(b, local, now, missing);
    FateDecides(missing, fates, i);
    SiblingKeys(b, missing, local, i, missing[i]);
  }

  lemma InstallMembers(stale: seq<Entry>, proved: seq<Entry>, a: Action)
    ensures a in Withdrawals(stale) <==> a.Withdraw? && a.entry in stale
    ensures a in ProbedInstalls(proved) <==> a.InstallProbed? && a.entry in proved
  {
    if a.Withdraw? && a.entry in stale {
      var i :| 0 <= i < |stale| && stale[i] == a.entry;
      assert Withdrawals(stale)[i] == a;
    }
    if a.InstallProbed? && a.entry in proved {
      var i :| 0 <= i < |proved| && proved[i] == a.entry;
      assert ProbedInstalls(proved)[i] == a;
    }
  }

  /** Every action of a pass that acts, characterised. */
  lemma ActionsOfPass(b: Book, stale: seq<Entry>, missing: seq<Entry>, local: set<Address>, now: int,
                      stamps: map<Entry, int>, a: Action)
    ensures var plan := PlanFor(b, missing, local, now);
            a in ActOn(b, stale, missing, local, now, stamps).actions <==>
              match a
              case Withdraw(e) => e in stale
              case InstallProbed(e) => e in plan.proved
              case InstallSpeculative(e) => Claim(e, Speculative) in plan.claims
              case Offer(cs) => cs == plan.claims && cs != []
  {
    var plan := PlanFor(b, missing, local, now);
    InstallMembers(stale, plan.proved, a);
    SpeculativeMembers(plan.claims, a);
    var offer := if |plan.claims| > 0 then [Offer(plan.claims)] else [];
    assert ActOn(b, stale, missing, local, now, stamps).actions ==
           Withdrawals(stale) + ProbedInstalls(plan.proved) + SpeculativeInstalls(plan.claims) + offer;
  }

  /** A remembered conflict keeps its entry out of the wanted set, so no pass installs or
      offers it, and a pass that can read the table withdraws it. */
  lemma ConflictHonoured(b: Book, reading: Reading, desired: set<Entry>, local: set<Address>, now: int,
                         stamps: map<Entry, int>, stale: seq<Entry>, missing: seq<Entry>, e: Entry)
    requires Listed(Sweep(b, now), reading, desired, now, stale, missing)
    requires b.Remembers(e, now)
    ensures var acts := Pass(b, reading, desired, local, now, stamps, stale, missing).actions;
            && InstallProbed(e) !in acts
            && InstallSpeculative(e) !in acts
            && (forall cs, k :: Offer(cs) in acts ==> Claim(e, k) !in cs)
            && (reading.Readable? && e in reading.entries ==> Withdraw(e) in acts)
  {
    var swept := Sweep(b, now);
    var want := Wanted(swept, desired, now);
    assert e !in want;
    if reading.Readable? && e in reading.entries {
      assert e in reading.entries - want;
    }
    if reading.Readable? && !InSync(swept, reading, want) {
      var out := ActOn(swept, stale, missing, local, now, stamps);
      assert e !in missing by { assert e !in Range(missing); }
      PlanMembers(swept, missing, local, now);
      ActionsOfPass(swept, stale, missing, local, now, stamps, InstallProbed(e));
      ActionsOfPass(swept, stale, missing, local, now, stamps, InstallSpeculative(e));
      ActionsOfPass(swept, stale, missing, local, now, stamps, Withdraw(e));
      forall cs, k | Offer(cs) in out.actions
        ensures Claim(e, k) !in cs
      {
        ActionsOfPass(swept, stale, missing, local, now, stamps, Offer(cs));
      }
      assert e in reading.entries ==> e in Range(stale);
    }
  }

  // ----- what every pass does about an entry ------------------------------------------------

  /** A pass that cannot read the table only sweeps; one that finds nothing installed that is not
      wanted, and everything missing still in flight, takes no action either. */
  lemma PassRests(b: Book, reading: Reading, desired: set<Entry>, local: set<Address>, now: int, stamps: map<Entry, int>,
                  stale: seq<Entry>, missing: seq<Entry>)
    requires reading.Readable? ==>
               && (forall e :: e in reading.entries ==> e in desired && !(e in b.conflicts && now - b.conflicts[e] < CONFLICT_RECHECK))
               && (forall e :: e in desired && e !in reading.entries && !(e in b.conflicts && now - b.conflicts[e] < CONFLICT_RECHECK) ==>
                     e in b.probing && now < b.probing[e].deadline)
    ensures var out := Pass(b, reading, desired, local, now, stamps, stale, missing);
            && out.actions == []
            && out.book.conflicts == b.conflicts && out.book.burned == b.burned && out.book.proved == b.proved
            && (forall e :: e in out.book.probing <==> e in b.probing && now < b.probing[e].deadline)
            && forall e :: e in out.book.probing ==> out.book.probing[e] == b.probing[e]
  {
  }

  /** What a pass over a readable table does about any entry. It is withdrawn exactly when it is
      installed and not desired, or its conflict is remembered. It is dealt with exactly when it is
      desired, not remembered, not installed and in flight no more: refused when the address is one
      of the router's own, else installed as proved when it has a proof, else offered; and the
      offer comes with an install exactly when it is speculative, which it is unless the
      identifier is burned or a sibling listed before it was refused. The book says so too: what
      is offered is in flight for one give-up interval, what is installed as proved has spent its
      proof, what is refused is remembered from now on. */
  lemma PassDecides(b: Book, reading: Reading, desired: set<Entry>, local: set<Address>, now: int, stamps: map<Entry, int>,
                    stale: seq<Entry>, missing: seq<Entry>, e: Entry)
    requires reading.Readable? && Listed(Sweep(b, now), reading, desired, now, stale, missing)
    ensures var out := Pass(b, reading, desired, local, now, stamps, stale, missing);
            var remembered := e in b.conflicts && now - b.conflicts[e] < CONFLICT_RECHECK;
            var inFlight := e in b.probing && now < b.probing[e].deadline;
            var due := e in desired && !remembered && e !in reading.entries && !inFlight;
            var suspect := BurnKey(e) in b.burned || RefusedBefore(b, missing, local, now, e);
            && (Withdraw(e) in out.actions <==> e in reading.entries && (e !in desired || remembered))
            && (due && e.addr in local ==> BurnKey(e) in out.book.burned && e in out.book.conflicts && out.book.conflicts[e] == if e in stamps then stamps[e] else now)
            && (InstallProbed(e) in out.actions <==> due && e.addr !in local && e in b.proved)
            && (InstallSpeculative(e) in out.actions <==> due && e.addr !in local && e !in b.proved && !suspect)
            && (Offers(out.actions, Claim(e, Speculative)) <==> due && e.addr !in local && e !in b.proved && !suspect)
            && (Offers(out.actions, Claim(e, Screened)) <==> due && e.addr !in local && e !in b.proved && suspect)
            && (e in out.book.probing <==> inFlight || (due && e.addr !in local && e !in b.proved))
            && (e in out.book.probing ==>
                  out.book.probing[e] == if inFlight then b.probing[e] else InFlight(if suspect then Screened else Speculative, now + GIVE_UP))
            && (e in out.book.proved <==> e in b.proved && !(due && e.addr !in local))
            && (e in out.book.conflicts <==> e in b.conflicts || (due && e.addr in local))
            && (e in b.conflicts && !(due && e.addr in local) ==> out.book.conflicts[e] == b.conflicts[e])
  {
    var swept := Sweep(b, now);
    var out := Pass(b, reading, desired, local, now, stamps, stale, missing);
    assert forall x :: x in missing <==> x in Range(missing);
    assert e in stale <==> e in Range(stale);
    if Idle(swept, reading, desired, now) {
      assert e in missing ==> e in swept.probing;
    } else {
      ActionsDecide(swept, stale, missing, local, now, stamps, e);
      BookDecides(swept, stale, missing, local, now, stamps, e);
      RefusedInSweep(b, missing, local, now, e);
    }
  }

  ghost predicate Offers(acts: seq<Action>, c: Claim) {
    exists cs :: Offer(cs) in acts && c in cs
  }

  /** A missing entry listed before e, not in flight, has e's identifier and an address of the
      router's own. */
  ghost predicate RefusedBefore(b: Book, missing: seq<Entry>, local: set<Address>, now: int, e: Entry) {
    exists i, j :: 0 <= j < i < |missing| && missing[i] == e && BurnKey(missing[j]) == BurnKey(e)
      && missing[j].addr in local && !(missing[j] in b.probing && now < b.probing[missing[j]].deadline)
  }

  lemma RefusedInSweep(b: Book, missing: seq<Entry>, local: set<Address>, now: int, e: Entry)
    requires Distinct(missing)
    ensures RefusedBefore(b, missing, local, now, e) <==>
            exists i :: 0 <= i < |missing| && missing[i] == e && SiblingRefused(Sweep(b, now), missing, local, i, e)
  {
    if i, j :| 0 <= j < i < |missing| && missing[i] == e && BurnKey(missing[j]) == BurnKey(e)
               && missing[j].addr in local && !(missing[j] in b.probing && now < b.probing[missing[j]].deadline) {
      assert SiblingRefused(Sweep(b, now), missing, local, i, e);
    }
    if i :| 0 <= i < |missing| && missing[i] == e && SiblingRefused(Sweep(b, now), missing, local, i, e) {
      var j :| 0 <= j < i && missing[j] !in Sweep(b, now).probing && missing[j].addr in local && BurnKey(missing[j]) == BurnKey(e);
      assert missing[i] == e;
    }
  }

  lemma OffersOfPass(b: Book, stale: seq<Entry>, missing: seq<Entry>, local: set<Address>, now: int, stamps: map<Entry, int>, c: Claim)
    ensures Offers(ActOn(b, stale, missing, local, now, stamps).actions, c) <==> c in PlanFor(b, missing, local, now).claims
  {
    var plan, acts := PlanFor(b, missing, local, now), ActOn(b, stale, missing, local, now, stamps).actions;
    ActionsOfPass(b, stale, missing, local, now, stamps, Offer(plan.claims));
    if cs :| Offer(cs) in acts && c in cs {
      ActionsOfPass(b, stale, missing, local, now, stamps, Offer(cs));
    }
  }

  /** The same for a pass known to act. */
  lemma ActionsDecide(b: Book, stale: seq<Entry>, missing: seq<Entry>, local: set<Address>, now: int, stamps: map<Entry, int>, e: Entry)
    requires Distinct(missing) && forall x :: x in missing ==> !b.Remembers(x, now)
    ensures var acts := ActOn(b, stale, missing, local, now, stamps).actions;
            var due := e in missing && e !in b.probing;
            var suspect := b.Burned(e) || exists i :: 0 <= i < |missing| && missing[i] == e && SiblingRefused(b, missing, local, i, e);
            && (Withdraw(e) in acts <==> e in stale)
            && (InstallProbed(e) in acts <==> due && e.addr !in local && e in b.proved)
            && (InstallSpeculative(e) in acts <==> due && e.addr !in local && e !in b.proved && !suspect)
            && (Offers(acts, Claim(e, Speculative)) <==> due && e.addr !in local && e !in b.proved && !suspect)
            && (Offers(acts, Claim(e, Screened)) <==> due && e.addr !in local && e !in b.proved && suspect)
  {
    ActionsOfPass(b, stale, missing, local, now, stamps, Withdraw(e));
    ActionsOfPass(b, stale, missing, local, now, stamps, InstallProbed(e));
    ActionsOfPass(b, stale, missing, local, now, stamps, InstallSpeculative(e));
    OffersOfPass(b, stale, missing, local, now, stamps, Claim(e, Speculative));
    OffersOfPass(b, stale, missing, local, now, stamps, Claim(e, Screened));
    PlanForOne(b, missing, local, now, e);
  }

  lemma BookDecides(b: Book, stale: seq<Entry>, missing: seq<Entry>, local: set<Address>, now: int, stamps: map<Entry, int>, e: Entry)
    requires Distinct(missing) && forall x :: x in missing ==> !b.Remembers(x, now)
    ensures var book := ActOn(b, stale, missing, local, now, stamps).book;
            var due := e in missing && e !in b.probing;
            var suspect := b.Burned(e) || exists i :: 0 <= i < |missing| && missing[i] == e && SiblingRefused(b, missing, local, i, e);
            && (due && e.addr in local ==> BurnKey(e) in book.burned && e in book.conflicts && book.conflicts[e] == StampOf(stamps, now, e))
            && (e in book.probing <==> e in b.probing || (due && e.addr !in local && e !in b.proved))
            && (e in book.probing ==>
                  book.probing[e] == if e in b.probing then b.probing[e] else InFlight(if suspect then Screened else Speculative, now + GIVE_UP))
            && (e in book.proved <==> e in b.proved && !(due && e.addr !in local))
            && (e in book.conflicts <==> e in b.conflicts || (due && e.addr in local))
            && (e in b.conflicts && !(due && e.addr in local) ==> book.conflicts[e] == b.conflicts[e])
  {
    BookOfPass(b, stale, missing, local, now, stamps, e);
    PlanForOne(b, missing, local, now, e);
  }

  /** The plan's lists, for one entry. */
  lemma PlanForOne(b: Book, missing: seq<Entry>, local: set<Address>, now: int, e: Entry)
    requires Distinct(missing) && forall x :: x in missing ==> !b.Remembers(x, now)
    ensures var plan := PlanFor(b, missing, local, now);
            var due := e in missing && e !in b.probing;
            var suspect := b.Burned(e) || exists i :: 0 <= i < |missing| && missing[i] == e && SiblingRefused(b, missing, local, i, e);
            && (e in plan.refused <==> due && e.addr in local)
            && (e in plan.proved <==> due && e.addr !in local && e in b.proved)
            && (Claim(e, Speculative) in plan.claims <==> due && e.addr !in local && e !in b.proved && !suspect)
            && (Claim(e, Screened) in plan.claims <==> due && e.addr !in local && e !in b.proved && suspect)
            && (Claimed(plan.claims, e) <==> due && e.addr !in local && e !in b.proved)
            && forall kind :: Claim(e, kind) in plan.claims ==> kind == if suspect then Screened else Speculative
  {
    var plan := PlanFor(b, missing, local, now);
    if e in missing {
      var i := IndexOf(missing, e);
      PlanExactly(b, missing, local, now, i);
      ClaimedByKind(plan.claims, e);
      forall kind | Claim(e, kind) in plan.claims
        ensures kind == Speculative || kind == Screened
      {
        match kind {
          case Speculative =>
          case Screened =>
        }
      }
    } else {
      PlanMembers(b, missing, local, now);
    }
  }

  lemma ClaimedByKind(claims: seq<Claim>, e: Entry)
    ensures Claimed(claims, e) <==> Claim(e, Speculative) in claims || Claim(e, Screened) in claims
  {
    if c :| c in claims && c.entry == e {
      assert c == Claim(e, c.kind);
      match c.kind {
        case Speculative =>
        case Screened =>
      }
    }
  }

  lemma BookOfPass(b: Book, stale: seq<Entry>, missing: seq<Entry>, local: set<Address>, now: int, stamps: map<Entry, int>, e: Entry)
    ensures var out, plan := ActOn(b, stale, missing, local, now, stamps), PlanFor(b, missing, local, now);
            && out.book.burned == b.burned + Keys(plan.refused)
            && (e in out.book.conflicts <==> e in b.conflicts || e in plan.refused)
            && (e in out.book.conflicts ==> out.book.conflicts[e] == if e in plan.refused then StampOf(stamps, now, e) else b.conflicts[e])
            && (e in out.book.proved <==> e in b.proved && e !in plan.proved)
            && (e in out.book.probing <==> e in b.probing || Claimed(plan.claims, e))
            && (e in out.book.probing ==>
                  if Claimed(plan.claims, e)
                  then out.book.probing[e].deadline == now + GIVE_UP && Claim(e, out.book.probing[e].kind) in plan.claims
                  else out.book.probing[e] == b.probing[e])
  {
    var plan := PlanFor(b, missing, local, now);
    RecordAllKeeps(b, plan.refused, stamps, now);
    var noted := RecordAll(b, plan.refused, stamps, now);
    TrackKeeps(noted.(proved := noted.proved - Range(plan.proved)), plan.claims, now);
    assert e in plan.refused <==> e in Range(plan.refused);
  }

  /** Due, and an address of the router's own. */
  predicate RefusedNow(b: Book, reading: Reading, desired: set<Entry>, local: set<Address>, now: int, e: Entry)
    requires reading.Readable?
  {
    && e in desired && !(e in b.conflicts && now - b.conflicts[e] < CONFLICT_RECHECK) && e !in reading.entries
    && !(e in b.probing && now < b.probing[e].deadline) && e.addr in local
  }

  /** Exactly the keys of the refused entries are burned. */
  lemma PassBurns(b: Book, reading: Reading, desired: set<Entry>, local: set<Address>, now: int, stamps: map<Entry, int>,
                  stale: seq<Entry>, missing: seq<Entry>, key: Entry)
    requires reading.Readable? && Listed(Sweep(b, now), reading, desired, now, stale, missing)
    ensures var out := Pass(b, reading, desired, local, now, stamps, stale, missing);
            key in out.book.burned <==> key in b.burned || exists e :: BurnKey(e) == key && RefusedNow(b, reading, desired, local, now, e)
  {
    var swept := Sweep(b, now);
    if Idle(swept, reading, desired, now) {
      forall e
        ensures !RefusedNow(b, reading, desired, local, now, e)
      {
        assert e in Wanted(swept, desired, now) - reading.entries ==> e in swept.probing;
      }
    } else {
      var plan := PlanFor(swept, missing, local, now);
      RecordAllKeeps(swept, plan.refused, stamps, now);
      var noted := RecordAll(swept, plan.refused, stamps, now);
      TrackKeeps(noted.(proved := noted.proved - Range(plan.proved)), plan.claims, now);
      forall e
        ensures e in plan.refused <==> RefusedNow(b, reading, desired, local, now, e)
      {
        RefusedIn(swept, missing, local, now, e);
        assert e in missing <==> e in Range(missing);
      }
    }
  }

  lemma RefusedIn(b: Book, missing: seq<Entry>, local: set<Address>, now: int, e: Entry)
    ensures e in PlanFor(b, missing, local, now).refused <==> e in missing && e !in b.probing && e.addr in local
  {
    PickMembers(missing, Fates(b, local, now, missing), Refused, e);
    if e in missing {
      assert missing[IndexOf(missing, e)] == e;
    }
  }
}
