/** One health monitor: a counter with two thresholds, and a report repeated until it lands. */
module HealthMonitor {
  import opened Common

  datatype Standing = Healthy | Failed

  datatype Counter = Counter(st: Standing, consecutive: nat)

  datatype Thresholds = Thresholds(unhealthy: int, healthy: int)
  {
    function Fall(): (n: nat)
      ensures n >= 1 && (n == unhealthy || (unhealthy < 1 && n == 3))
    {
      if unhealthy <= 0 then 3 else unhealthy
    }

    function Rise(): (n: nat)
      ensures n >= 1 && (n == healthy || (healthy < 1 && n == 5))
    {
      if healthy <= 0 then 5 else healthy
    }
  }

  const Fresh := Counter(Healthy, 0)

  function FoldOne(t: Thresholds, c: Counter, pass: bool): Counter {
    match c.st
    case Healthy =>
      if pass then Counter(Healthy, 0)
      else if c.consecutive + 1 >= t.Fall() then Counter(Failed, 0)
      else Counter(Healthy, c.consecutive + 1)
    case Failed =>
      if !pass then Counter(Failed, 0)
      else if c.consecutive + 1 >= t.Rise() then Fresh
      else Counter(Failed, c.consecutive + 1)
  }

  /** The counter after a whole history of probe results. */
  function FoldAll(t: Thresholds, probes: seq<bool>): Counter {
    if probes == [] then Fresh
    else FoldOne(t, FoldAll(t, probes[..|probes| - 1]), probes[|probes| - 1])
  }

  // ----- what the counter means ------------------------------------------------------

  /** Probes i, ..., j - 1 all came out as given. */
  ghost predicate RunOf(probes: seq<bool>, i: nat, j: nat, pass: bool) {
    && i <= j <= |probes|
    && forall k :: i <= k < j ==> probes[k] == pass
  }

  /** From j on no run of successes is long enough to recover. */
  ghost predicate NoRecovery(t: Thresholds, probes: seq<bool>, j: nat) {
    forall a: nat, b: nat :: j <= a && RunOf(probes, a, b, true) ==> b - a < t.Rise()
  }

  ghost predicate Outage(t: Thresholds, probes: seq<bool>, i: nat, j: nat) {
    RunOf(probes, i, j, false) && j - i >= t.Fall() && NoRecovery(t, probes, j)
  }

  /** Some long enough run of failures has not been followed by a long enough run of successes. */
  ghost predicate Down(t: Thresholds, probes: seq<bool>) {
    exists i: nat, j: nat :: Outage(t, probes, i, j)
  }

  function Trailing(probes: seq<bool>, pass: bool): nat {
    if probes == [] || probes[|probes| - 1] != pass then 0
    else 1 + Trailing(probes[..|probes| - 1], pass)
  }

  lemma {:induction false} TrailingIsARun(probes: seq<bool>, pass: bool)
    ensures var n := Trailing(probes, pass);
            && n <= |probes|
            && RunOf(probes, |probes| - n, |probes|, pass)
            && forall i: nat :: RunOf(probes, i, |probes|, pass) ==> |probes| - i <= n
  {
    if probes != [] && probes[|probes| - 1] == pass {
      var shorter := probes[..|probes| - 1];
      TrailingIsARun(shorter, pass);
      forall i: nat | RunOf(probes, i, |probes|, pass)
        ensures |probes| - i <= Trailing(probes, pass)
      {
        if i < |probes| {
          assert RunOf(shorter, i, |shorter|, pass);
        }
      }
    }
  }

  lemma StaysUp(t: Thresholds, h: seq<bool>, pass: bool)
    requires !Down(t, h)
    requires pass || Trailing(h, false) + 1 < t.Fall()
    ensures !Down(t, h + [pass])
  {
    var g := h + [pass];
    TrailingIsARun(g, false);
    assert g[..|g| - 1] == h;
    forall i: nat, j: nat
      ensures !Outage(t, g, i, j)
    {
      if j <= |h| && RunOf(h, i, j, false) && j - i >= t.Fall() {
        assert !NoRecovery(t, h, j) by { assert !Outage(t, h, i, j); }
        var a: nat, b: nat :| j <= a && RunOf(h, a, b, true) && b - a >= t.Rise();
        assert RunOf(g, a, b, true);
      }
    }
  }

  lemma GoesDown(t: Thresholds, h: seq<bool>)
    requires Trailing(h, false) + 1 >= t.Fall()
    ensures Down(t, h + [false])
  {
    var g := h + [false];
    TrailingIsARun(g, false);
    assert g[..|g| - 1] == h;
    assert Outage(t, g, |g| - Trailing(g, false), |g|);
  }

  lemma StaysDown(t: Thresholds, h: seq<bool>, pass: bool)
    requires Down(t, h)
    requires !pass || Trailing(h, true) + 1 < t.Rise()
    ensures Down(t, h + [pass])
  {
    var g := h + [pass];
    var i: nat, j: nat :| Outage(t, h, i, j);
    forall a: nat, b: nat | j <= a && RunOf(g, a, b, true)
      ensures b - a < t.Rise()
    {
      if b == |g| {
        TrailingIsARun(g, true);
        assert g[..|g| - 1] == h;
      } else {
        forall k | a <= k < b ensures h[k] { assert g[k]; }
        assert RunOf(h, a, b, true);
      }
    }
    assert Outage(t, g, i, j);
  }

  lemma ComesUp(t: Thresholds, h: seq<bool>)
    requires Trailing(h, true) + 1 >= t.Rise()
    ensures !Down(t, h + [true])
  {
    var g := h + [true];
    TrailingIsARun(g, true);
    assert g[..|g| - 1] == h;
    var a := |g| - Trailing(g, true);
    forall i: nat, j: nat
      ensures !Outage(t, g, i, j)
    {
      if RunOf(g, i, j, false) && j - i >= t.Fall() {
        assert !g[j - 1];
        assert j <= a && RunOf(g, a, |g|, true);
      }
    }
  }

  /** The counter refines the declarative reading over every probe history: failed exactly
      when down, and counting exactly the trailing run that opposes the present standing. */
  lemma {:induction false} CounterIsRight(t: Thresholds, probes: seq<bool>)
    ensures var c := FoldAll(t, probes);
            && (c.st == Failed <==> Down(t, probes))
            && c.consecutive == Trailing(probes, c.st == Failed)
            && c.consecutive < if c.st == Failed then t.Rise() else t.Fall()
  {
    if probes == [] {
      forall i: nat, j: nat ensures !Outage(t, probes, i, j) {}
    } else {
      var h, pass := probes[..|probes| - 1], probes[|probes| - 1];
      assert probes == h + [pass];
      CounterIsRight(t, h);
      var c := FoldAll(t, h);
      if c.st == Healthy {
        if pass || c.consecutive + 1 < t.Fall() {
          StaysUp(t, h, pass);
        } else {
          GoesDown(t, h);
        }
      } else if !pass || c.consecutive + 1 < t.Rise() {
        StaysDown(t, h, pass);
      } else {
        ComesUp(t, h);
      }
    }
  }

  // ----- the monitor's own fields, updated in place ------------------------------------

  class Monitor {
    const id: nat
    const thresholds: Thresholds
    var st: Standing
    var consecutive: nat
    var sent: Standing

    constructor (id: nat, thresholds: Thresholds)
      ensures this.id == id && this.thresholds == thresholds
      ensures Counter(st, consecutive) == Fresh && sent == Healthy
    {
      this.id := id;
      this.thresholds := thresholds;
      st, consecutive, sent := Healthy, 0, Healthy;
    }

    method Fold(pass: bool)
      modifies this`st, this`consecutive
      ensures Counter(st, consecutive) == FoldOne(thresholds, old(Counter(st, consecutive)), pass)
    {
      if st == Healthy {
        if pass {
          consecutive := 0;
          return;
        }
        consecutive := consecutive + 1;
        if consecutive >= thresholds.Fall() {
          st := Failed;
          consecutive := 0;
        }
      } else {
        if !pass {
          consecutive := 0;
          return;
        }
        consecutive := consecutive + 1;
        if consecutive >= thresholds.Rise() {
          st := Healthy;
          consecutive := 0;
        }
      }
    }

    /** One tick. The report is due while the last delivered verdict differs from the
        standing, and counts as delivered only if the mailbox had room. */
    method Step(pass: bool, room: bool) returns (report: Option<Standing>)
      modifies this
      ensures Counter(st, consecutive) == FoldOne(thresholds, old(Counter(st, consecutive)), pass)
      ensures report == if old(sent) == st then None else Some(st)
      ensures sent == if room then st else old(sent)
    {
      Fold(pass);
      if sent == st {
        return None;
      }
      report := Some(st);
      if room {
        sent := st;
      }
    }
  }
}

/** The reconciler's side, and the agreement between it and its monitors. */
module HealthProtocol {
  import opened Common
  import opened HealthMonitor
  import opened Text

  datatype Key = Key(ifName: string, family: Fam)

  /** The nexthop address as printed; None for a point-to-point link. */
  datatype Target = Target(family: Fam, gatewayIP: Option<string>, ifName: string, ifIndex: nat)

  datatype Running = Running(id: nat, target: Target)

  /** A monitor that was created, whether or not the reconciler still runs it. */
  datatype Child = Child(key: Key, thresholds: Thresholds, counter: Counter, sent: Standing)

  datatype Event = HealthChanged(id: nat, key: Key, healthy: bool) | OtherEvent

  /** A mailbox of any depth; the source's holds 256 events. */
  const EVENT_DEPTH: nat

  // ----- choosing what to probe ---------------------------------------------------------

  function KeyOf(t: Target): Key {
    Key(t.ifName, t.family)
  }

  /** A nexthop address beats none; otherwise the smaller text wins. */
  predicate Prefer(a: Target, b: Target) {
    if a.gatewayIP.Some? != b.gatewayIP.Some? then a.gatewayIP.Some?
    else a.gatewayIP.Some? && Less(a.gatewayIP.value, b.gatewayIP.value)
  }

  lemma PreferChains(a: Target, b: Target, c: Target)
    requires Prefer(a, b) && !Prefer(c, b)
    ensures !Prefer(c, a)
  {
    if c.gatewayIP.Some? && a.gatewayIP.Some? {
      LessIsStrict(c.gatewayIP.value, a.gatewayIP.value);
      if Less(c.gatewayIP.value, a.gatewayIP.value) && b.gatewayIP.Some? {
        LessIsTransitive(c.gatewayIP.value, a.gatewayIP.value, b.gatewayIP.value);
      }
    }
  }

  /** targets holds, for every link and family that has a candidate, one that beats all others:
      with a nexthop address if any has one, and then the smallest in text. */
  ghost predicate BestTargets(candidates: set<Target>, targets: map<Key, Target>) {
    && (forall c :: c in candidates ==> Key(c.ifName, c.family) in targets)
    && forall k :: k in targets ==>
         && targets[k] in candidates && targets[k].ifName == k.ifName && targets[k].family == k.family
         && forall c :: c in candidates && c.ifName == k.ifName && c.family == k.family && c.gatewayIP.Some? ==>
              && targets[k].gatewayIP.Some?
              && (c.gatewayIP.value == targets[k].gatewayIP.value || Less(targets[k].gatewayIP.value, c.gatewayIP.value))
  }

  ghost predicate Unbeaten(candidates: set<Target>, targets: map<Key, Target>) {
    && (forall c :: c in candidates ==> KeyOf(c) in targets)
    && forall k :: k in targets ==>
         && targets[k] in candidates && KeyOf(targets[k]) == k
         && forall c :: c in candidates && KeyOf(c) == k ==> !Prefer(c, targets[k])
  }

  lemma UnbeatenIsBest(candidates: set<Target>, targets: map<Key, Target>)
    ensures Unbeaten(candidates, targets) <==> BestTargets(candidates, targets)
  {
    forall c, d: Target
      ensures KeyOf(c) == Key(d.ifName, d.family) <==> c.ifName == d.ifName && c.family == d.family
      ensures !Prefer(c, d) <==>
              (c.gatewayIP.Some? ==> d.gatewayIP.Some? && (c.gatewayIP.value == d.gatewayIP.value || Less(d.gatewayIP.value, c.gatewayIP.value)))
    {
      if c.gatewayIP.Some? && d.gatewayIP.Some? {
        LessIsTotal(c.gatewayIP.value, d.gatewayIP.value);
        LessIsStrict(c.gatewayIP.value, d.gatewayIP.value);
      }
    }
    forall c, k
      ensures KeyOf(c) == k <==> c.ifName == k.ifName && c.family == k.family
    {
    }
  }

  function Candidates(gateways: seq<Target>, probed: set<Key>): set<Target> {
    set g | g in gateways && KeyOf(g) in probed
  }

  /** Gateways in any order; probed says whether the configuration runs a probe for a key. */
  method ProbeTargets(gateways: seq<Target>, probed: set<Key>) returns (targets: map<Key, Target>)
    ensures BestTargets((set g | g in gateways && Key(g.ifName, g.family) in probed), targets)
  {
    targets := map[];
    for i := 0 to |gateways|
      invariant Unbeaten(Candidates(gateways[..i], probed), targets)
    {
      var candidate := gateways[i];
      var key := KeyOf(candidate);
      ghost var seen := Candidates(gateways[..i], probed);
      ghost var now := Candidates(gateways[..i + 1], probed);
      assert gateways[..i + 1] == gateways[..i] + [candidate];
      assert now == if key in probed then seen + {candidate} else seen;
      if key !in probed {
        continue;
      }
      if key in targets && !Prefer(candidate, targets[key]) {
        continue;
      }
      if key in targets {
        forall c | c in seen && KeyOf(c) == key
          ensures !Prefer(c, candidate)
        {
          PreferChains(candidate, targets[key], c);
        }
      }
      assert !Prefer(candidate, candidate) by {
        if candidate.gatewayIP.Some? {
          LessIsStrict(candidate.gatewayIP.value, candidate.gatewayIP.value);
        }
      }
      targets := targets[key := candidate];
    }
    assert gateways[..|gateways|] == gateways;
    assert Candidates(gateways, probed) == set g | g in gateways && Key(g.ifName, g.family) in probed;
    UnbeatenIsBest(Candidates(gateways, probed), targets);
  }

  /** The choice does not depend on the order the gateways were visited in. */
  lemma BestTargetsAreUnique(candidates: set<Target>, a: map<Key, Target>, b: map<Key, Target>)
    requires BestTargets(candidates, a) && BestTargets(candidates, b)
    requires forall c, d ::
               c in candidates && d in candidates && c.ifName == d.ifName && c.family == d.family && c.gatewayIP == d.gatewayIP ==> c == d
    ensures a == b
  {
    UnbeatenIsBest(candidates, a);
    UnbeatenIsBest(candidates, b);
    assert a.Keys == b.Keys by {
      forall k ensures k in a <==> k in b {
        if k in a { assert a[k] in candidates; }
        if k in b { assert b[k] in candidates; }
      }
    }
    forall k | k in a
      ensures a[k] == b[k]
    {
      assert !Prefer(a[k], b[k]) && !Prefer(b[k], a[k]);
      if a[k].gatewayIP.Some? && b[k].gatewayIP.Some? {
        LessIsTotal(a[k].gatewayIP.value, b[k].gatewayIP.value);
      }
    }
  }

  // ----- the reconciler's own maps, updated in place --------------------------------------

  function Judged(running: map<Key, Running>, unhealthy: set<Key>, ev: Event): set<Key> {
    if ev.OtherEvent? || ev.key !in running || running[ev.key].id != ev.id then unhealthy
    else if ev.healthy then unhealthy - {ev.key}
    else unhealthy + {ev.key}
  }

  /** Same target, still wanted: the monitor is left alone. */
  function Kept(running: map<Key, Running>, want: map<Key, Target>): map<Key, Running> {
    map k | k in running && k in want && want[k] == running[k].target :: running[k]
  }

  /** Monitors for the listed keys, numbered on from seqNo in that order. */
  function Started(kept: map<Key, Running>, seqNo: nat, order: seq<Key>, want: map<Key, Target>): map<Key, Running>
    requires Range(order) <= want.Keys
  {
    map k | k in kept.Keys + Range(order) ::
      if k in Range(order) then Running(seqNo + 1 + IndexOf(order, k), want[k]) else kept[k]
  }

  /** Whoever is not kept has a number of its own, after all numbers given before. */
  lemma StartedAre(kept: map<Key, Running>, seqNo: nat, order: seq<Key>, want: map<Key, Target>)
    requires Enumerates(order, want.Keys - kept.Keys)
    ensures var r := Started(kept, seqNo, order, want);
            && r.Keys == kept.Keys + want.Keys
            && (forall k :: k in kept ==> r[k] == kept[k])
            && (forall k :: k in want && k !in kept ==> r[k].target == want[k] && seqNo < r[k].id <= seqNo + |order|)
            && forall k, l :: k in want && l in want && k !in kept && l !in kept && k != l ==> r[k].id != r[l].id
  {
  }

  class HealthBook {
    var running: map<Key, Running>
    var unhealthy: set<Key>
    var monSeq: nat

    constructor ()
      ensures running == map[] && unhealthy == {} && monSeq == 0
    {
      running, unhealthy, monSeq := map[], {}, 0;
    }

    method HandleHealthEvent(ev: Event)
      modifies this`unhealthy
      ensures unhealthy == Judged(running, old(unhealthy), ev)
    {
      if ev.OtherEvent? || ev.key !in running || running[ev.key].id != ev.id {
        return;
      }
      if ev.healthy {
        unhealthy := unhealthy - {ev.key};
      } else {
        unhealthy := unhealthy + {ev.key};
      }
    }

    method StopMonitor(key: Key)
      modifies this`running, this`unhealthy
      ensures running == old(running) - {key} && unhealthy == old(unhealthy) - {key}
    {
      running := running - {key};
      unhealthy := unhealthy - {key};
    }

    method StartMonitor(key: Key, target: Target)
      modifies this`running, this`monSeq
      ensures monSeq == old(monSeq) + 1
      ensures running == old(running)[key := Running(monSeq, target)]
    {
      monSeq := monSeq + 1;
      running := running[key := Running(monSeq, target)];
    }

    method StopUnwanted(want: map<Key, Target>)
      requires unhealthy <= running.Keys
      modifies this`running, this`unhealthy
      ensures running == Kept(old(running), want)
      ensures unhealthy == old(unhealthy) * running.Keys
    {
      ghost var before := running;
      var todo := running.Keys;
      while todo != {}
        invariant todo <= before.Keys
        invariant running == map k | k in before && (k in todo || k in Kept(before, want)) :: before[k]
        invariant unhealthy == old(unhealthy) * running.Keys
        decreases |todo|
      {
        var k :| k in todo;
        todo := todo - {k};
        if k in want && want[k] == running[k].target {
          continue;
        }
        StopMonitor(k);
      }
    }

    method StartMissing(want: map<Key, Target>) returns (order: seq<Key>)
      modifies this`running, this`monSeq
      ensures Enumerates(order, want.Keys - old(running).Keys)
      ensures running == Started(old(running), old(monSeq), order, want)
      ensures monSeq == old(monSeq) + |order|
    {
      ghost var kept := running;
      order := Enumerate(want.Keys - running.Keys);
      ghost var all := Started(kept, monSeq, order, want);
      for i := 0 to |order|
        invariant running.Keys == kept.Keys + Range(order[..i])
        invariant forall k :: k in running ==> k in all && running[k] == all[k]
        invariant monSeq == old(monSeq) + i
      {
        assert order[..i + 1] == order[..i] + [order[i]];
        assert order[i] in Range(order) && IndexOf(order, order[i]) == i;
        StartMonitor(order[i], want[order[i]]);
      }
      assert order[..|order|] == order;
      assert running.Keys == all.Keys;
    }

    /** Stops what is no longer wanted or has changed target, then starts what is missing. */
    method SyncMonitors(want: map<Key, Target>) returns (order: seq<Key>)
      requires unhealthy <= running.Keys
      modifies this
      ensures Enumerates(order, want.Keys - Kept(old(running), want).Keys)
      ensures running == Started(Kept(old(running), want), old(monSeq), order, want)
      ensures unhealthy == old(unhealthy) * Kept(old(running), want).Keys
      ensures monSeq == old(monSeq) + |order|
      ensures running.Keys == want.Keys && forall k :: k in running ==> running[k].target == want[k]
      ensures forall k :: k in running ==>
                if k in old(running) && old(running)[k].target == want[k] then running[k].id == old(running)[k].id
                else old(monSeq) < running[k].id <= monSeq
      ensures forall k, l :: k in running && l in running && k != l
                && (k !in old(running) || old(running)[k].target != want[k]) && (l !in old(running) || old(running)[l].target != want[l])
                ==> running[k].id != running[l].id
      ensures forall k :: k in unhealthy <==> k in old(unhealthy) && k in want && old(running)[k].target == want[k]
    {
      StopUnwanted(want);
      order := StartMissing(want);
      StartedAre(Kept(old(running), want), old(monSeq), order, want);
    }
  }

  // ----- reconciler, monitors and mailbox as one transition system ---------------------------

  /** What was wanted last is history: nothing in a transition depends on it. */
  datatype System = System(
    seqNo: nat,
    running: map<Key, Running>,
    unhealthy: set<Key>,
    children: map<nat, Child>,
    events: seq<Event>,
    wanted: map<Key, Target>)

  /** A monitor ticks even after the reconciler has let go of it. */
  datatype Step =
    | OtherArrives
    | Handle
    | TickMonitor(id: nat, pass: bool)
    | Sync(want: map<Key, Target>, order: seq<Key>, thresholds: map<Key, Thresholds>)

  ghost predicate Initial(s: System) {
    s == System(0, map[], {}, map[], [], map[])
  }

  ghost predicate Enabled(s: System, step: Step) {
    match step
    case OtherArrives => |s.events| < EVENT_DEPTH
    case Handle => s.events != []
    case TickMonitor(id, _) => id in s.children
    case Sync(want, order, thresholds) =>
      && (forall k :: k in want ==> KeyOf(want[k]) == k)
      && Enumerates(order, want.Keys - Kept(s.running, want).Keys)
      && Range(order) <= thresholds.Keys
  }

  function AfterTick(s: System, id: nat, pass: bool): System
    requires id in s.children
  {
    var c := s.children[id];
    var counter := FoldOne(c.thresholds, c.counter, pass);
    var due, room := c.sent != counter.st, |s.events| < EVENT_DEPTH;
    s.(children := s.children[id := c.(counter := counter, sent := if room then counter.st else c.sent)],
       events := if due && room then s.events + [HealthChanged(id, c.key, counter.st == Healthy)] else s.events)
  }

  /** The identifiers after seqNo, as many as were started. */
  function Numbers(seqNo: nat, count: nat): (ids: set<nat>)
    ensures forall n :: n in ids <==> seqNo < n <= seqNo + count
  {
    if count == 0 then {} else Numbers(seqNo, count - 1) + {seqNo + count}
  }

  function Born(children: map<nat, Child>, seqNo: nat, order: seq<Key>, thresholds: map<Key, Thresholds>): map<nat, Child>
    requires Range(order) <= thresholds.Keys
  {
    children + map n | n in Numbers(seqNo, |order|) ::
      var k := order[n - seqNo - 1];
      assert k in Range(order);
      Child(k, thresholds[k], Fresh, Healthy)
  }

  function AfterSync(s: System, want: map<Key, Target>, order: seq<Key>, thresholds: map<Key, Thresholds>): System
    requires Range(order) <= want.Keys && Range(order) <= thresholds.Keys
  {
    var kept := Kept(s.running, want);
    s.(seqNo := s.seqNo + |order|,
       running := Started(kept, s.seqNo, order, want),
       unhealthy := s.unhealthy * kept.Keys,
       children := Born(s.children, s.seqNo, order, thresholds),
       wanted := want)
  }

  function Apply(s: System, step: Step): System
    requires Enabled(s, step)
  {
    match step
    case OtherArrives => s.(events := s.events + [OtherEvent])
    case Handle => s.(events := s.events[1..], unhealthy := Judged(s.running, s.unhealthy, s.events[0]))
    case TickMonitor(id, pass) => AfterTick(s, id, pass)
    case Sync(want, order, thresholds) => AfterSync(s, want, order, thresholds)
  }

  ghost predicate Next(s: System, t: System) {
    exists step :: Enabled(s, step) && t == Apply(s, step)
  }

  ghost predicate Run(tr: seq<System>) {
    && |tr| > 0
    && Initial(tr[0])
    && forall i, j {:trigger Next(tr[i], tr[j])} :: 0 <= i < j < |tr| && j == i + 1 ==> Next(tr[i], tr[j])
  }

  /** The view the reconciler will hold once it has handled everything queued. */
  function Drained(running: map<Key, Running>, unhealthy: set<Key>, events: seq<Event>): set<Key> {
    if events == [] then unhealthy
    else
      var n := |events| - 1;
      Judged(running, Drained(running, unhealthy, events[..n]), events[n])
  }

  ghost predicate Agreement(s: System) {
    forall k :: k in s.running && s.running[k].id in s.children ==>
      (k in Drained(s.running, s.unhealthy, s.events) <==> s.children[s.running[k].id].sent == Failed)
  }

  ghost predicate Inv(s: System) {
    && s.unhealthy <= s.running.Keys
    && (forall n :: n in s.children ==> n <= s.seqNo)
    && (forall k :: k in s.running ==>
          s.running[k].id in s.children && s.children[s.running[k].id].key == k)
    && (forall i :: 0 <= i < |s.events| && s.events[i].HealthChanged? ==>
          s.events[i].id in s.children && s.children[s.events[i].id].key == s.events[i].key)
    && |s.events| <= EVENT_DEPTH
    && Agreement(s)
  }

  lemma {:induction false} DrainsFromTheFront(running: map<Key, Running>, unhealthy: set<Key>, events: seq<Event>)
    requires events != []
    ensures Drained(running, unhealthy, events) ==
            Drained(running, Judged(running, unhealthy, events[0]), events[1..])
  {
    var n := |events| - 1;
    if n > 0 {
      DrainsFromTheFront(running, unhealthy, events[..n]);
      assert events[..n][1..] == events[1..][..n - 1];
    } else {
      assert events[1..] == [];
    }
  }

  /** Whether a key ends up unhealthy depends on its own monitor and nothing else. */
  lemma {:induction false} DrainedIsLocal(r: map<Key, Running>, u: set<Key>, r': map<Key, Running>, u': set<Key>,
                                          events: seq<Event>, k: Key)
    requires k in r && k in r' && r[k].id == r'[k].id && (k in u <==> k in u')
    ensures k in Drained(r, u, events) <==> k in Drained(r', u', events)
  {
    if events != [] {
      DrainedIsLocal(r, u, r', u', events[..|events| - 1], k);
    }
  }

  /** No queued event carries this key's id: the view of the key does not move. */
  lemma {:induction false} DrainedIgnores(r: map<Key, Running>, u: set<Key>, events: seq<Event>, k: Key)
    requires k in r
    requires forall i :: 0 <= i < |events| && events[i].HealthChanged? ==> events[i].id != r[k].id
    ensures k in Drained(r, u, events) <==> k in u
  {
    if events != [] {
      DrainedIgnores(r, u, events[..|events| - 1], k);
    }
  }

  ghost predicate Agrees(s: System, k: Key) {
    && k in s.running && s.running[k].id in s.children && s.children[s.running[k].id].key == k
    && (k in Drained(s.running, s.unhealthy, s.events) <==> s.children[s.running[k].id].sent == Failed)
  }

  lemma KeptAgrees(s: System, t: System, k: Key)
    requires Agrees(s, k) && k in t.running && t.running[k] == s.running[k]
    requires (k in s.unhealthy <==> k in t.unhealthy) && t.events == s.events
    requires s.running[k].id in t.children && t.children[s.running[k].id] == s.children[s.running[k].id]
    ensures Agrees(t, k)
  {
    DrainedIsLocal(s.running, s.unhealthy, t.running, t.unhealthy, s.events, k);
  }

  lemma NewAgrees(t: System, k: Key, thresholds: Thresholds)
    requires k in t.running && k !in t.unhealthy && t.running[k].id in t.children
    requires t.children[t.running[k].id] == Child(k, thresholds, Fresh, Healthy)
    requires forall i :: 0 <= i < |t.events| && t.events[i].HealthChanged? ==> t.events[i].id < t.running[k].id
    ensures Agrees(t, k)
  {
    DrainedIgnores(t.running, t.unhealthy, t.events, k);
  }

  lemma BornIs(children: map<nat, Child>, seqNo: nat, order: seq<Key>, thresholds: map<Key, Thresholds>, k: Key)
    requires Range(order) <= thresholds.Keys && k in Range(order)
    ensures var born, id := Born(children, seqNo, order, thresholds), seqNo + 1 + IndexOf(order, k);
            id in born && born[id] == Child(k, thresholds[k], Counter(Healthy, 0), Healthy)
  {
  }

  lemma KeptStillAgrees(s: System, want: map<Key, Target>, order: seq<Key>, thresholds: map<Key, Thresholds>, k: Key)
    requires Inv(s) && Enabled(s, Sync(want, order, thresholds)) && k in Kept(s.running, want)
    ensures Agrees(AfterSync(s, want, order, thresholds), k)
  {
    assert k !in Range(order);
    assert Agrees(s, k);
    KeptAgrees(s, AfterSync(s, want, order, thresholds), k);
  }

  lemma StartedAgrees(s: System, want: map<Key, Target>, order: seq<Key>, thresholds: map<Key, Thresholds>, k: Key)
    requires Inv(s) && Enabled(s, Sync(want, order, thresholds)) && k in Range(order)
    ensures Agrees(AfterSync(s, want, order, thresholds), k)
  {
    BornIs(s.children, s.seqNo, order, thresholds, k);
    NewAgrees(AfterSync(s, want, order, thresholds), k, thresholds[k]);
  }

  lemma SyncAgrees(s: System, want: map<Key, Target>, order: seq<Key>, thresholds: map<Key, Thresholds>, k: Key)
    requires Inv(s) && Enabled(s, Sync(want, order, thresholds))
    requires k in AfterSync(s, want, order, thresholds).running
    ensures Agrees(AfterSync(s, want, order, thresholds), k)
  {
    if k in Kept(s.running, want) {
      KeptStillAgrees(s, want, order, thresholds, k);
    } else {
      StartedAgrees(s, want, order, thresholds, k);
    }
  }

  lemma SyncKeeps(s: System, want: map<Key, Target>, order: seq<Key>, thresholds: map<Key, Thresholds>)
    requires Inv(s) && Enabled(s, Sync(want, order, thresholds))
    ensures Inv(AfterSync(s, want, order, thresholds))
  {
    var t := AfterSync(s, want, order, thresholds);
    forall k | k in t.running
      ensures Agrees(t, k)
    {
      SyncAgrees(s, want, order, thresholds, k);
    }
  }

  /** A tick: the counter takes the result, and a verdict that differs from the last one delivered is
      posted, and counts as delivered, exactly when the mailbox has room. */
  lemma TickReports(s: System, id: nat, pass: bool)
    requires Enabled(s, TickMonitor(id, pass))
    ensures var t, c := Apply(s, TickMonitor(id, pass)), s.children[id];
            var standing := FoldOne(c.thresholds, c.counter, pass).st;
            && id in t.children && t.children[id].counter == FoldOne(c.thresholds, c.counter, pass)
            && (if standing != c.sent && |s.events| < EVENT_DEPTH
                then t.events == s.events + [HealthChanged(id, c.key, standing == Healthy)] && t.children[id].sent == standing
                else t.events == s.events && t.children[id].sent == c.sent)
            && t.running == s.running && t.unhealthy == s.unhealthy
  {
  }

  lemma TickAgrees(s: System, id: nat, pass: bool, k: Key)
    requires Inv(s) && id in s.children && k in s.running
    ensures Agrees(AfterTick(s, id, pass), k)
  {
    var t := AfterTick(s, id, pass);
    assert Agrees(s, k);
    if |t.events| > |s.events| {
      assert t.events[..|t.events| - 1] == s.events;
    }
  }

  lemma TickKeeps(s: System, id: nat, pass: bool)
    requires Inv(s) && id in s.children
    ensures Inv(AfterTick(s, id, pass))
  {
    forall k | k in s.running
      ensures Agrees(AfterTick(s, id, pass), k)
    {
      TickAgrees(s, id, pass, k);
    }
  }

  lemma StepKeepsInv(s: System, step: Step)
    requires Inv(s) && Enabled(s, step)
    ensures Inv(Apply(s, step))
  {
    match step {
      case OtherArrives => assert Apply(s, step).events[..|s.events|] == s.events;
      case Handle => DrainsFromTheFront(s.running, s.unhealthy, s.events);
      case TickMonitor(id, pass) => TickKeeps(s, id, pass);
      case Sync(want, order, thresholds) => SyncKeeps(s, want, order, thresholds);
    }
  }

  /** In every reachable state each running monitor and the drained view agree on the last
      verdict delivered, and only monitored keys are unhealthy: full mailboxes, stops and
      restarts under the same key included. */
  lemma {:induction false} AgreementOnEveryRun(tr: seq<System>, k: nat)
    requires Run(tr) && k < |tr|
    ensures Inv(tr[k])
  {
    if k > 0 {
      AgreementOnEveryRun(tr, k - 1);
      assert Next(tr[k - 1], tr[k]);
      var step :| Enabled(tr[k - 1], step) && tr[k] == Apply(tr[k - 1], step);
      StepKeepsInv(tr[k - 1], step);
    }
  }

  /** A sync in the transition system: exactly what is wanted runs, with the wanted target; under its
      old number and verdict if it ran with that target before, else under a new number, healthy. */
  lemma SyncExactly(s: System, want: map<Key, Target>, order: seq<Key>, thresholds: map<Key, Thresholds>)
    requires Enabled(s, Sync(want, order, thresholds))
    ensures var t := Apply(s, Sync(want, order, thresholds));
            && t.running.Keys == want.Keys
            && forall k :: k in want ==>
                 && t.running[k].target == want[k]
                 && if k in s.running && s.running[k].target == want[k]
                    then t.running[k] == s.running[k] && (k in t.unhealthy <==> k in s.unhealthy)
                    else s.seqNo < t.running[k].id <= t.seqNo && k !in t.unhealthy
  {
    StartedAre(Kept(s.running, want), s.seqNo, order, want);
  }

  /** And a monitor under a new number starts from scratch. */
  lemma SyncStartsFresh(s: System, want: map<Key, Target>, order: seq<Key>, thresholds: map<Key, Thresholds>, k: Key)
    requires Enabled(s, Sync(want, order, thresholds)) && k in want && (k !in s.running || s.running[k].target != want[k])
    ensures var t := Apply(s, Sync(want, order, thresholds));
            && k in t.running && k in thresholds && t.running[k].id in t.children
            && t.children[t.running[k].id] == Child(k, thresholds[k], Counter(Healthy, 0), Healthy)
  {
    assert k in Range(order);
    BornIs(s.children, s.seqNo, order, thresholds, k);
  }

  ghost predicate WantedRun(s: System) {
    s.running.Keys == s.wanted.Keys && forall k :: k in s.running ==> s.running[k].target == s.wanted[k]
  }

  lemma NextKeepsWanted(s: System, t: System)
    requires Next(s, t) && WantedRun(s)
    ensures WantedRun(t)
  {
    var step :| Enabled(s, step) && t == Apply(s, step);
    if step.Sync? {
      SyncExactly(s, step.want, step.order, step.thresholds);
    }
  }

  /** In every reachable state exactly what was wanted last is monitored, with the target wanted. */
  lemma {:induction false} WantedOnEveryRun(tr: seq<System>, k: nat)
    requires Run(tr) && k < |tr|
    ensures WantedRun(tr[k])
  {
    if k > 0 {
      WantedOnEveryRun(tr, k - 1);
      assert Next(tr[k - 1], tr[k]);
      NextKeepsWanted(tr[k - 1], tr[k]);
    }
  }

  predicate Runs(s: System, id: nat) {
    exists k :: k in s.running && s.running[k].id == id
  }

  lemma StepNeverRevives(s: System, step: Step, id: nat)
    requires Inv(s) && Enabled(s, step) && id <= s.seqNo && !Runs(s, id)
    ensures !Runs(Apply(s, step), id) && id <= Apply(s, step).seqNo
  {
  }

  lemma NextNeverRevives(s: System, t: System, id: nat)
    requires Inv(s) && Next(s, t) && id <= s.seqNo && !Runs(s, id)
    ensures !Runs(t, id) && id <= t.seqNo
  {
    var step :| Enabled(s, step) && t == Apply(s, step);
    StepNeverRevives(s, step, id);
  }

  lemma NobodyListens(s: System, ev: Event)
    requires ev.HealthChanged? && !Runs(s, ev.id)
    ensures Judged(s.running, s.unhealthy, ev) == s.unhealthy
  {
  }

  /** Identifiers are never reused, so once a monitor has been stopped no event of it, queued
      or yet to come, ever changes the view. */
  lemma {:induction false} StoppedMonitorsAreMute(tr: seq<System>, i: nat, j: nat, ev: Event)
    requires Run(tr) && i <= j < |tr|
    requires ev.HealthChanged? && ev.id <= tr[i].seqNo && !Runs(tr[i], ev.id)
    ensures !Runs(tr[j], ev.id) && ev.id <= tr[j].seqNo
    ensures Judged(tr[j].running, tr[j].unhealthy, ev) == tr[j].unhealthy
  {
    if i < j {
      StoppedMonitorsAreMute(tr, i, j - 1, ev);
      AgreementOnEveryRun(tr, j - 1);
      assert Next(tr[j - 1], tr[j]);
      NextNeverRevives(tr[j - 1], tr[j], ev.id);
    }
    NobodyListens(tr[j], ev);
  }
}
