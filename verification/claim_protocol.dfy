/** The prober's side of the claim protocol. */
module ClaimProber {
  import opened Common
  import opened Claims

  datatype Pending = Pending(claim: Claim, started: int)

  datatype Ruling = Ruling(claim: Claim, contested: bool)

  /** Claims for entries not already pending start now; nothing else changes. */
  function Admit(pending: map<Entry, Pending>, claims: seq<Claim>, now: int): map<Entry, Pending> {
    if claims == [] then pending
    else
      var n := |claims| - 1;
      var c := claims[n];
      var prior := Admit(pending, claims[..n], now);
      if c.entry in pending then prior else prior[c.entry := Pending(c, now)]
  }

  function Contested(pending: map<Entry, Pending>, seen: set<Entry>): set<Entry> {
    pending.Keys * seen
  }

  function Free(pending: map<Entry, Pending>, seen: set<Entry>, now: int): set<Entry> {
    set e | e in pending && e !in seen && now - pending[e].started >= PROBE_TIMEOUT
  }

  lemma {:induction false} AdmitKeeps(pending: map<Entry, Pending>, claims: seq<Claim>, now: int)
    ensures var r := Admit(pending, claims, now);
            && pending.Keys <= r.Keys
            && (forall e :: e in pending ==> r[e] == pending[e])
            && (forall c :: c in claims ==> c.entry in r)
            && forall e :: e in r && e !in pending ==>
                 r[e].started == now && r[e].claim in claims && r[e].claim.entry == e
  {
    if claims != [] {
      var n := |claims| - 1;
      assert claims == claims[..n] + [claims[n]];
      AdmitKeeps(pending, claims[..n], now);
    }
  }

  class Prober {
    var pending: map<Entry, Pending>

    constructor ()
      ensures pending == map[]
    {
      pending := map[];
    }

    /** Stale cached neighbours of the batch are purged before anything is solicited. */
    method AdmitBatch(claims: seq<Claim>, cached: set<Entry>, now: int)
      returns (purged: set<Entry>, solicited: set<Entry>)
      modifies this
      ensures pending == Admit(old(pending), claims, now)
      ensures forall e :: e in pending <==> e in old(pending) || exists c :: c in claims && c.entry == e
      ensures forall e :: e in pending ==>
                if e in old(pending) then pending[e] == old(pending)[e]
                else pending[e].started == now && pending[e].claim in claims && pending[e].claim.entry == e
      ensures solicited == (set c | c in claims && c.entry !in old(pending) :: c.entry)
      ensures purged == solicited * cached
    {
      ghost var before := pending;
      purged, solicited := {}, {};
      var known := pending.Keys;
      for i := 0 to |claims|
        invariant pending == Admit(before, claims[..i], now)
        invariant solicited == set c | c in claims[..i] && c.entry !in before :: c.entry
        invariant purged == solicited * cached
      {
        var c := claims[i];
        assert claims[..i + 1] == claims[..i] + [c];
        assert claims[..i + 1][..i] == claims[..i];
        if c.entry !in known {
          pending := pending[c.entry := Pending(c, now)];
          solicited := solicited + {c.entry};
          if c.entry in cached {
            purged := purged + {c.entry};
          }
        }
      }
      assert claims[..|claims|] == claims;
      AdmitKeeps(before, claims, now);
    }

    /** A solicitation that could not be sent takes its claim out again. */
    method Unsent(e: Entry)
      modifies this
      ensures pending == old(pending) - {e}
    {
      pending := pending - {e};
    }

    method Sift(seen: set<Entry>, now: int) returns (contested: set<Entry>, free: set<Entry>)
      ensures contested == Contested(pending, seen)
      ensures free == Free(pending, seen, now)
    {
      contested, free := {}, {};
      var todo := pending.Keys;
      while todo != {}
        invariant todo <= pending.Keys
        invariant contested == Contested(pending, seen) - todo
        invariant free == Free(pending, seen, now) - todo
        decreases |todo|
      {
        var e :| e in todo;
        todo := todo - {e};
        if e in seen {
          contested := contested + {e};
        } else if now - pending[e].started >= PROBE_TIMEOUT {
          free := free + {e};
        }
      }
    }

    /** Takes each listed claim out and rules on it. */
    method RuleOn(order: seq<Entry>, contested: bool) returns (rulings: seq<Ruling>)
      requires Distinct(order) && Range(order) <= pending.Keys
      modifies this
      ensures |rulings| == |order|
      ensures forall i :: 0 <= i < |order| ==>
                order[i] in old(pending) && rulings[i] == Ruling(old(pending)[order[i]].claim, contested)
      ensures pending == old(pending) - Range(order)
    {
      rulings := [];
      for i := 0 to |order|
        invariant |rulings| == i
        invariant forall k :: 0 <= k < i ==>
                    order[k] in old(pending) && rulings[k] == Ruling(old(pending)[order[k]].claim, contested)
        invariant pending == old(pending) - Range(order[..i])
      {
        assert order[..i + 1] == order[..i] + [order[i]];
        assert order[i] in Range(order);
        assert order[i] !in Range(order[..i]);
        rulings := rulings + [Ruling(pending[order[i]].claim, contested)];
        pending := pending - {order[i]};
      }
      assert order[..|order|] == order;
    }

    /** Contested claims are ruled on first, then those whose window has run out. */
    method PollOnce(seen: set<Entry>, now: int)
      returns (first: seq<Entry>, refused: seq<Ruling>, second: seq<Entry>, granted: seq<Ruling>)
      modifies this
      ensures Enumerates(first, Contested(old(pending), seen)) && |refused| == |first|
      ensures Enumerates(second, Free(old(pending), seen, now)) && |granted| == |second|
      ensures forall i :: 0 <= i < |first| ==>
                first[i] in old(pending) && refused[i] == Ruling(old(pending)[first[i]].claim, true)
      ensures forall i :: 0 <= i < |second| ==>
                second[i] in old(pending) && granted[i] == Ruling(old(pending)[second[i]].claim, false)
      ensures pending == old(pending) - Contested(old(pending), seen) - Free(old(pending), seen, now)
      ensures Distinct(first) && forall e :: e in first <==> e in old(pending) && e in seen
      ensures Distinct(second) && forall e :: e in second <==> e in old(pending) && e !in seen && now - old(pending)[e].started >= PROBE_TIMEOUT
      ensures forall e :: e in pending <==> e in old(pending) && e !in seen && now - old(pending)[e].started < PROBE_TIMEOUT
      ensures forall e :: e in pending ==> pending[e] == old(pending)[e]
    {
      var contested, free := Sift(seen, now);
      first := Enumerate(contested);
      second := Enumerate(free);
      refused := RuleOn(first, true);
      assert free <= pending.Keys;
      granted := RuleOn(second, false);
      assert forall e :: e in first <==> e in Range(first);
      assert forall e :: e in second <==> e in Range(second);
    }
  }
}

/** Reconciler, prober, clock and the two bounded mailboxes between them, as one
    transition system that keeps a history of what happened. */
module ClaimProtocol {
  import opened Common
  import opened Claims
  import opened ClaimProber

  /** Mailboxes of any depth; the source's hold 64 offers and 256 events. */
  const OFFER_DEPTH: nat
  const EVENT_DEPTH: nat

  /** The serial is history: nothing in a transition depends on it. */
  datatype Message = Verdict(claim: Claim, contested: bool, serial: nat) | OtherEvent

  datatype Probe = Batch(claims: seq<Claim>) | PollTick

  datatype Sighting = Sighting(at: int, seen: set<Entry>)

  /** One verdict the prober issued: the claim was pending while the sightings numbered
      first, ..., last - 1 were made. */
  datatype Record = Record(claim: Claim, contested: bool, started: int, decided: int, first: nat, last: nat)

  datatype Install = BySpeculation(entry: Entry) | ByProof(entry: Entry, serial: nat)

  datatype History = History(
    verdicts: seq<Record>,
    sightings: seq<Sighting>,
    since: map<Entry, nat>,
    provedBy: map<Entry, nat>,
    accepted: set<nat>,
    claims: seq<Claim>,
    installs: seq<Install>)

  datatype System = System(
    clock: int,
    lastPass: int,
    stopped: bool,
    book: Book,
    pending: map<Entry, Pending>,
    offers: seq<Probe>,
    events: seq<Message>,
    past: History)

  datatype Step =
    | Advance(to: int)
    | OtherArrives
    | Tick
    | Handle
    | PassOnce(to: int, reading: Reading, desired: set<Entry>, local: set<Address>,
               stamps: map<Entry, int>, stale: seq<Entry>, missing: seq<Entry>)
    | AdmitOffer(unsent: set<Entry>)
    | Poll(seen: set<Entry>, order: seq<Entry>, split: nat)
    | Stop

  ghost predicate Initial(s: System) {
    && s.lastPass <= s.clock && !s.stopped
    && s.book == EmptyBook && s.pending == map[]
    && s.offers == [] && s.events == []
    && s.past == History([], [], map[], map[], {}, [], [])
  }

  ghost predicate Enabled(s: System, step: Step) {
    match step
    case Advance(to) => s.clock <= to
    case OtherArrives => |s.events| < EVENT_DEPTH
    case Tick => true
    case Handle => !s.stopped && s.events != []
    case PassOnce(to, reading, desired, local, stamps, stale, missing) =>
      && !s.stopped && s.clock <= to
      && (forall e :: e in stamps ==> s.clock <= stamps[e] <= to)
      && Listed(Sweep(s.book, s.clock), reading, desired, s.clock, stale, missing)
    case AdmitOffer(unsent) => s.offers != [] && s.offers[0].Batch? && unsent !! s.pending.Keys
    case Poll(seen, order, split) =>
      && s.offers != [] && s.offers[0].PollTick?
      && split <= |order|
      && Enumerates(order[..split], Contested(s.pending, seen))
      && Enumerates(order[split..], Free(s.pending, seen, s.clock))
    case Stop => !s.stopped
  }

  // ----- effects ---------------------------------------------------------------------

  function Offered(offers: seq<Probe>, p: Probe): seq<Probe> {
    if |offers| < OFFER_DEPTH then offers + [p] else offers
  }

  function Posted(events: seq<Message>, m: Message): seq<Message> {
    if |events| < EVENT_DEPTH then events + [m] else events
  }

  function AfterHandle(s: System): System
    requires s.events != []
  {
    var m, rest := s.events[0], s.events[1..];
    if m.OtherEvent? then s.(events := rest)
    else
      var e := m.claim.entry;
      var book := Judge(s.book, e, m.claim.kind, m.contested, s.clock);
      var counts := e in s.book.probing && s.book.probing[e].kind == m.claim.kind;
      var past :=
        if !counts then s.past
        else if !m.contested && m.claim.kind == Screened then
          s.past.(accepted := s.past.accepted + {m.serial}, provedBy := s.past.provedBy[e := m.serial])
        else s.past.(accepted := s.past.accepted + {m.serial});
      s.(events := rest, book := book, past := past)
  }

  function SerialOf(provedBy: map<Entry, nat>, e: Entry): nat {
    if e in provedBy then provedBy[e] else 0
  }

  function Proofs(proved: seq<Entry>, provedBy: map<Entry, nat>): seq<Install> {
    seq(|proved|, i requires 0 <= i < |proved| => ByProof(proved[i], SerialOf(provedBy, proved[i])))
  }

  function Speculations(claims: seq<Claim>): seq<Install> {
    if claims == [] then []
    else
      var n := |claims| - 1;
      Speculations(claims[..n]) + if claims[n].kind == Speculative then [BySpeculation(claims[n].entry)] else []
  }

  /** The plan a pass acts on; an idle pass acts on none. */
  function PlanIn(s: System, step: Step): Plan
    requires step.PassOnce?
  {
    var swept := Sweep(s.book, s.clock);
    if Idle(swept, step.reading, step.desired, s.clock) then Plan([], [], [])
    else PlanFor(swept, step.missing, step.local, s.clock)
  }

  function AfterPass(s: System, step: Step): System
    requires step.PassOnce?
  {
    var out := Pass(s.book, step.reading, step.desired, step.local, s.clock, step.stamps, step.stale, step.missing);
    var plan := PlanIn(s, step);
    s.(clock := step.to, lastPass := s.clock, book := out.book,
       offers := if plan.claims == [] then s.offers else Offered(s.offers, Batch(plan.claims)),
       past := s.past.(
         provedBy := s.past.provedBy - Range(plan.proved),
         claims := s.past.claims + plan.claims,
         installs := s.past.installs + Proofs(plan.proved, s.past.provedBy) + Speculations(plan.claims)))
  }

  function AfterAdmit(s: System, unsent: set<Entry>): System
    requires s.offers != [] && s.offers[0].Batch?
  {
    var pending := Admit(s.pending, s.offers[0].claims, s.clock) - unsent;
    s.(offers := s.offers[1..], pending := pending,
       past := s.past.(since := map e | e in pending ::
                         if e in s.pending && e in s.past.since then s.past.since[e] else |s.past.sightings|))
  }

  /** One ruling. A report that meets a full mailbox is lost. */
  function RuleOne(s: System, e: Entry, contested: bool): System {
    if e !in s.pending || e !in s.past.since then s
    else
      var p := s.pending[e];
      var r := Record(p.claim, contested, p.started, s.clock, s.past.since[e], |s.past.sightings|);
      s.(pending := s.pending - {e},
         events := Posted(s.events, Verdict(p.claim, contested, |s.past.verdicts|)),
         past := s.past.(verdicts := s.past.verdicts + [r], since := s.past.since - {e}))
  }

  /** Rules on the listed entries one by one: contested before the split, free after it. */
  function Rule(s: System, order: seq<Entry>, split: nat): System {
    if order == [] then s
    else
      var n := |order| - 1;
      RuleOne(Rule(s, order[..n], split), order[n], n < split)
  }

  function AfterPoll(s: System, seen: set<Entry>, order: seq<Entry>, split: nat): System
    requires s.offers != []
  {
    var looked := s.(offers := s.offers[1..],
                     past := s.past.(sightings := s.past.sightings + [Sighting(s.clock, seen)]));
    Rule(looked, order, split)
  }

  function Apply(s: System, step: Step): System
    requires Enabled(s, step)
  {
    match step
    case Advance(to) => s.(clock := to)
    case OtherArrives => s.(events := s.events + [OtherEvent])
    case Tick => s.(offers := Offered(s.offers, PollTick))
    case Handle => AfterHandle(s)
    case PassOnce(_, _, _, _, _, _, _) => AfterPass(s, step)
    case AdmitOffer(unsent) => AfterAdmit(s, unsent)
    case Poll(seen, order, split) => AfterPoll(s, seen, order, split)
    case Stop => s.(stopped := true, book := Shutdown(s.book), past := s.past.(provedBy := map[]))
  }

  ghost predicate Next(s: System, t: System) {
    exists step :: Enabled(s, step) && t == Apply(s, step)
  }

  ghost predicate Run(tr: seq<System>) {
    && |tr| > 0
    && Initial(tr[0])
    && forall i, j {:trigger Next(tr[i], tr[j])} :: 0 <= i < j < |tr| && j == i + 1 ==> Next(tr[i], tr[j])
  }

  // ----- the invariant ---------------------------------------------------------------

  /** Bookkeeping: in flight and proved exclude each other, deadlines are near, times are past. */
  ghost predicate Tidy(s: System) {
    && s.book.probing.Keys !! s.book.proved
    && (forall e :: e in s.book.probing ==> s.book.probing[e].deadline <= s.lastPass + GIVE_UP)
    && (forall e :: e in s.book.conflicts ==> s.book.conflicts[e] <= s.clock)
    && s.lastPass <= s.clock
    && |s.offers| <= OFFER_DEPTH && |s.events| <= EVENT_DEPTH
  }

  ghost predicate Unseen(h: History, e: Entry, first: nat, last: nat) {
    && first <= last <= |h.sightings|
    && forall k :: first <= k < last ==> e !in h.sightings[k].seen
  }

  /** The first n sightings were made by time t, the others no earlier. */
  ghost predicate Splits(sightings: seq<Sighting>, n: nat, t: int) {
    && n <= |sightings|
    && (forall k :: 0 <= k < n ==> sightings[k].at <= t)
    && forall k :: n <= k < |sightings| ==> t <= sightings[k].at
  }

  /** History runs along the clock. */
  ghost predicate Timed(s: System) {
    && (forall k :: 0 <= k < |s.past.sightings| ==> s.past.sightings[k].at <= s.clock)
    && (forall k, l :: 0 <= k < l < |s.past.sightings| ==> s.past.sightings[k].at <= s.past.sightings[l].at)
    && forall r :: r in s.past.verdicts ==> r.decided <= s.clock
  }

  ghost predicate PendingSound(s: System) {
    && s.past.since.Keys == s.pending.Keys
    && forall e :: e in s.pending ==>
         && s.pending[e].claim.entry == e
         && s.pending[e].started <= s.clock
         && Splits(s.past.sightings, s.past.since[e], s.pending[e].started)
         && Unseen(s.past, e, s.past.since[e], |s.past.sightings|)
  }

  /** The claim was pending from started to decided, which is what the numbers of the sightings
      say; a free verdict means the whole window passed, no poll in it saw the address, and the
      poll that decided did not either. */
  ghost predicate RecordSound(h: History, r: Record) {
    && r.started <= r.decided
    && Splits(h.sightings, r.first, r.started)
    && Splits(h.sightings, r.last, r.decided)
    && (!r.contested ==>
          && r.decided - r.started >= PROBE_TIMEOUT
          && r.first < r.last && h.sightings[r.last - 1].at == r.decided
          && Unseen(h, r.claim.entry, r.first, r.last))
  }

  ghost predicate Issued(h: History, serial: nat, claim: Claim, contested: bool) {
    && serial < |h.verdicts|
    && h.verdicts[serial].claim == claim
    && h.verdicts[serial].contested == contested
  }

  /** The verdict with this serial is an accepted "free" for a screened claim on e. */
  ghost predicate Proof(h: History, e: Entry, serial: nat) {
    Issued(h, serial, Claim(e, Screened), false) && serial in h.accepted
  }

  ghost predicate EventsSound(s: System) {
    && (forall i :: 0 <= i < |s.events| && s.events[i].Verdict? ==>
         && Issued(s.past, s.events[i].serial, s.events[i].claim, s.events[i].contested)
         && s.events[i].serial !in s.past.accepted)
    && forall i, j :: 0 <= i < j < |s.events| && s.events[i].Verdict? && s.events[j].Verdict? ==>
         s.events[i].serial != s.events[j].serial
  }

  ghost predicate ProofsSound(h: History, proved: set<Entry>) {
    && h.provedBy.Keys == proved
    && (forall e :: e in h.provedBy ==> Proof(h, e, h.provedBy[e]))
    && forall n :: n in h.accepted ==> n < |h.verdicts|
  }

  /** Every proved install has a proof nobody else used or still holds. */
  ghost predicate InstallsSound(h: History) {
    && (forall i :: 0 <= i < |h.installs| && h.installs[i].ByProof? ==>
         && Proof(h, h.installs[i].entry, h.installs[i].serial)
         && h.installs[i].serial !in h.provedBy.Values)
    && forall i, j :: 0 <= i < j < |h.installs| && h.installs[i].ByProof? && h.installs[j].ByProof? ==>
         h.installs[i].serial != h.installs[j].serial
  }

  ghost predicate Inv(s: System) {
    && Tidy(s)
    && Timed(s)
    && PendingSound(s)
    && (forall r :: r in s.past.verdicts ==> RecordSound(s.past, r))
    && EventsSound(s)
    && ProofsSound(s.past, s.book.proved)
    && InstallsSound(s.past)
  }
}
