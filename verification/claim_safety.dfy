/** Safety of the claim protocol over all runs. */
module ClaimSafety {
  import opened Common
  import opened Claims
  import opened ClaimProber
  import opened ClaimProtocol

  lemma HandleKeepsEvents(s: System)
    requires Inv(s) && s.events != []
    ensures Tidy(AfterHandle(s)) && EventsSound(AfterHandle(s))
  {
    HandleKeepsTidy(s);
    var t := AfterHandle(s);
    forall i | 0 <= i < |t.events| && t.events[i].Verdict?
      ensures Issued(t.past, t.events[i].serial, t.events[i].claim, t.events[i].contested)
      ensures t.events[i].serial !in t.past.accepted
    {
      assert t.events[i] == s.events[i + 1];
      assert s.events[0].Verdict? ==> s.events[0].serial != s.events[i + 1].serial;
    }
    forall i, j | 0 <= i < j < |t.events| && t.events[i].Verdict? && t.events[j].Verdict?
      ensures t.events[i].serial != t.events[j].serial
    {
      assert t.events[i] == s.events[i + 1] && t.events[j] == s.events[j + 1];
    }
  }

  lemma HandleKeepsTidy(s: System)
    requires Tidy(s) && s.events != []
    ensures Tidy(AfterHandle(s))
  {
  }

  lemma AcceptKeeps(h: History, proved: set<Entry>, serial: nat)
    requires ProofsSound(h, proved) && InstallsSound(h) && serial < |h.verdicts|
    ensures var g := h.(accepted := h.accepted + {serial}); ProofsSound(g, proved) && InstallsSound(g)
  {
    var g := h.(accepted := h.accepted + {serial});
    forall x | x in g.provedBy
      ensures Proof(g, x, g.provedBy[x])
    {
      assert Proof(h, x, h.provedBy[x]);
    }
    forall i | 0 <= i < |g.installs| && g.installs[i].ByProof?
      ensures Proof(g, g.installs[i].entry, g.installs[i].serial)
    {
      assert Proof(h, h.installs[i].entry, h.installs[i].serial);
    }
  }

  lemma ProveKeeps(h: History, proved: set<Entry>, e: Entry, serial: nat)
    requires ProofsSound(h, proved) && InstallsSound(h)
    requires Proof(h, e, serial)
    requires forall i :: 0 <= i < |h.installs| && h.installs[i].ByProof? ==> h.installs[i].serial != serial
    ensures var g := h.(provedBy := h.provedBy[e := serial]); ProofsSound(g, proved + {e}) && InstallsSound(g)
  {
    var g := h.(provedBy := h.provedBy[e := serial]);
    forall x | x in g.provedBy
      ensures Proof(g, x, g.provedBy[x])
    {
      assert x != e ==> Proof(h, x, h.provedBy[x]);
      assert Proof(h, e, serial);
    }
    forall i | 0 <= i < |g.installs| && g.installs[i].ByProof?
      ensures Proof(g, g.installs[i].entry, g.installs[i].serial)
      ensures g.installs[i].serial !in g.provedBy.Values
    {
      assert Proof(h, h.installs[i].entry, h.installs[i].serial);
      assert h.installs[i].serial !in h.provedBy.Values;
    }
  }

  lemma HandleKeepsProofs(s: System)
    requires Inv(s) && s.events != []
    ensures var t := AfterHandle(s); ProofsSound(t.past, t.book.proved) && InstallsSound(t.past)
  {
    var m := s.events[0];
    if m.Verdict? {
      assert Issued(s.past, m.serial, m.claim, m.contested) && m.serial !in s.past.accepted;
      AcceptKeeps(s.past, s.book.proved, m.serial);
      var g := s.past.(accepted := s.past.accepted + {m.serial});
      forall i | 0 <= i < |g.installs| && g.installs[i].ByProof?
        ensures g.installs[i].serial != m.serial
      {
        assert Proof(s.past, s.past.installs[i].entry, s.past.installs[i].serial);
      }
      if !m.contested && m.claim.kind == Screened {
        assert m.claim == Claim(m.claim.entry, Screened);
        assert Proof(g, m.claim.entry, m.serial);
        ProveKeeps(g, s.book.proved, m.claim.entry, m.serial);
      }
    }
  }

  /** The prober's part of the invariant survives a step that leaves the prober alone. */
  lemma ProberUntouched(s: System, t: System)
    requires Timed(s) && PendingSound(s) && forall r :: r in s.past.verdicts ==> RecordSound(s.past, r)
    requires s.clock <= t.clock && t.pending == s.pending
    requires t.past.sightings == s.past.sightings && t.past.verdicts == s.past.verdicts && t.past.since == s.past.since
    ensures Timed(t) && PendingSound(t) && forall r :: r in t.past.verdicts ==> RecordSound(t.past, r)
  {
    forall e | e in t.pending
      ensures Unseen(t.past, e, t.past.since[e], |t.past.sightings|)
    {
      assert Unseen(s.past, e, s.past.since[e], |s.past.sightings|);
    }
    forall r | r in t.past.verdicts
      ensures RecordSound(t.past, r)
    {
      assert RecordSound(s.past, r);
    }
  }

  lemma HandleLeavesProber(s: System)
    requires s.events != []
    ensures var t := AfterHandle(s);
            && t.clock == s.clock && t.pending == s.pending && t.past.sightings == s.past.sightings
            && t.past.verdicts == s.past.verdicts && t.past.since == s.past.since
  {
  }

  lemma HandleKeeps(s: System)
    requires Inv(s) && s.events != []
    ensures Inv(AfterHandle(s))
  {
    HandleLeavesProber(s);
    HandleKeepsEvents(s);
    HandleKeepsProofs(s);
    ProberUntouched(s, AfterHandle(s));
  }

  // ----- a pass ------------------------------------------------------------------------

  lemma {:induction false} SpeculationMembers(claims: seq<Claim>)
    ensures forall i :: i in Speculations(claims) <==> i.BySpeculation? && Claim(i.entry, Speculative) in claims
  {
    if claims != [] {
      var n := |claims| - 1;
      SpeculationMembers(claims[..n]);
      assert claims == claims[..n] + [claims[n]];
    }
  }

  /** What a pass that acts does to the book. */
  lemma PassBook(s: System, step: Step)
    requires step.PassOnce? && Enabled(s, step)
    ensures var t, plan, swept := AfterPass(s, step), PlanIn(s, step), Sweep(s.book, s.clock);
            && t.book.proved == s.book.proved - Range(plan.proved)
            && Range(plan.proved) <= s.book.proved
            && Distinct(plan.proved)
            && t.book.burned == s.book.burned + Keys(plan.refused)
            && (forall e :: e in t.book.probing <==> e in swept.probing || Claimed(plan.claims, e))
            && (forall e :: e in t.book.probing && Claimed(plan.claims, e) ==>
                  t.book.probing[e].deadline == s.clock + GIVE_UP)
            && (forall e :: e in t.book.probing && !Claimed(plan.claims, e) ==>
                  t.book.probing[e] == swept.probing[e])
            && (forall c :: c in plan.claims ==> c.entry !in s.book.proved && c.entry !in swept.probing)
            && (forall e :: e in t.book.conflicts ==>
                  || (e in s.book.conflicts && t.book.conflicts[e] == s.book.conflicts[e])
                  || t.book.conflicts[e] <= step.to)
            && (forall c :: c in plan.claims && c.kind == Speculative ==> !s.book.Burned(c.entry))
  {
    var plan, swept := PlanIn(s, step), Sweep(s.book, s.clock);
    if !Idle(swept, step.reading, step.desired, s.clock) {
      assert plan == PlanFor(swept, step.missing, step.local, s.clock);
      var noted := RecordAll(swept, plan.refused, step.stamps, s.clock);
      RecordAllKeeps(swept, plan.refused, step.stamps, s.clock);
      TrackKeeps(noted.(proved := noted.proved - Range(plan.proved)), plan.claims, s.clock);
      PlanMembers(swept, step.missing, step.local, s.clock);
    }
  }

  lemma PassKeepsTidy(s: System, step: Step)
    requires Inv(s) && step.PassOnce? && Enabled(s, step)
    ensures Tidy(AfterPass(s, step))
  {
    PassBook(s, step);
    var t, plan := AfterPass(s, step), PlanIn(s, step);
    forall e | e in t.book.probing
      ensures t.book.probing[e].deadline <= t.lastPass + GIVE_UP && e !in t.book.proved
    {
      if Claimed(plan.claims, e) {
      } else {
        assert e in Sweep(s.book, s.clock).probing;
      }
    }
  }

  lemma PassKeepsProofs(s: System, step: Step)
    requires Inv(s) && step.PassOnce? && Enabled(s, step)
    ensures ProofsSound(AfterPass(s, step).past, AfterPass(s, step).book.proved)
  {
    PassBook(s, step);
    var t := AfterPass(s, step);
    forall e | e in t.past.provedBy
      ensures Proof(t.past, e, t.past.provedBy[e])
    {
      assert Proof(s.past, e, s.past.provedBy[e]);
    }
  }

  /** Spending proofs: each goes to one install and is held no longer. */
  lemma SpendKeeps(h: History, held: set<Entry>, proved: seq<Entry>)
    requires ProofsSound(h, held) && InstallsSound(h)
    requires Distinct(proved) && Range(proved) <= held
    ensures InstallsSound(h.(provedBy := h.provedBy - Range(proved),
                             installs := h.installs + Proofs(proved, h.provedBy)))
  {
    var g := h.(provedBy := h.provedBy - Range(proved), installs := h.installs + Proofs(proved, h.provedBy));
    var n := |h.installs|;
    forall i | 0 <= i < |g.installs| && g.installs[i].ByProof?
      ensures Proof(g, g.installs[i].entry, g.installs[i].serial)
      ensures g.installs[i].serial !in g.provedBy.Values
    {
      if i < n {
        assert Proof(h, h.installs[i].entry, h.installs[i].serial);
      } else {
        var e := proved[i - n];
        assert e in Range(proved) && Proof(h, e, h.provedBy[e]);
        forall x | x in g.provedBy
          ensures g.provedBy[x] != h.provedBy[e]
        {
          assert Proof(h, x, h.provedBy[x]);
        }
      }
    }
    forall i, j | 0 <= i < j < |g.installs| && g.installs[i].ByProof? && g.installs[j].ByProof?
      ensures g.installs[i].serial != g.installs[j].serial
    {
      if n <= j {
        var e := proved[j - n];
        assert e in Range(proved) && Proof(h, e, h.provedBy[e]) && h.provedBy[e] in h.provedBy.Values;
        if n <= i {
          var x := proved[i - n];
          assert x in Range(proved) && Proof(h, x, h.provedBy[x]) && x != e;
        }
      }
    }
  }

  lemma GuessesKeep(h: History, guesses: seq<Install>)
    requires InstallsSound(h) && forall i :: i in guesses ==> i.BySpeculation?
    ensures InstallsSound(h.(installs := h.installs + guesses))
  {
    var g := h.(installs := h.installs + guesses);
    forall i | |h.installs| <= i < |g.installs|
      ensures g.installs[i].BySpeculation?
    {
      assert g.installs[i] in guesses;
    }
    forall i | 0 <= i < |g.installs| && g.installs[i].ByProof?
      ensures Proof(g, g.installs[i].entry, g.installs[i].serial)
    {
      assert Proof(h, h.installs[i].entry, h.installs[i].serial);
    }
  }

  lemma SameInstallsSound(h: History, g: History)
    requires InstallsSound(h)
    requires h.installs == g.installs && h.provedBy == g.provedBy
    requires h.verdicts == g.verdicts && h.accepted == g.accepted
    ensures InstallsSound(g)
  {
    forall i | 0 <= i < |g.installs| && g.installs[i].ByProof?
      ensures Proof(g, g.installs[i].entry, g.installs[i].serial)
    {
      assert Proof(h, h.installs[i].entry, h.installs[i].serial);
    }
  }

  lemma PassKeepsInstalls(s: System, step: Step)
    requires Inv(s) && step.PassOnce? && Enabled(s, step)
    ensures InstallsSound(AfterPass(s, step).past)
  {
    PassBook(s, step);
    var plan := PlanIn(s, step);
    SpendKeeps(s.past, s.book.proved, plan.proved);
    var spent := s.past.(provedBy := s.past.provedBy - Range(plan.proved),
                         installs := s.past.installs + Proofs(plan.proved, s.past.provedBy));
    SpeculationMembers(plan.claims);
    GuessesKeep(spent, Speculations(plan.claims));
    SameInstallsSound(spent.(installs := spent.installs + Speculations(plan.claims)), AfterPass(s, step).past);
  }

  lemma PassKeepsRest(s: System, step: Step)
    requires Inv(s) && step.PassOnce? && Enabled(s, step)
    ensures var t := AfterPass(s, step);
            Timed(t) && PendingSound(t) && EventsSound(t) && forall r :: r in t.past.verdicts ==> RecordSound(t.past, r)
  {
    var t := AfterPass(s, step);
    ProberUntouched(s, t);
    forall i | 0 <= i < |t.events| && t.events[i].Verdict?
      ensures Issued(t.past, t.events[i].serial, t.events[i].claim, t.events[i].contested)
    {
      assert Issued(s.past, s.events[i].serial, s.events[i].claim, s.events[i].contested);
    }
  }

  // ----- the prober --------------------------------------------------------------------

  lemma AdmitKeepsInv(s: System, unsent: set<Entry>)
    requires Inv(s) && Enabled(s, AdmitOffer(unsent))
    ensures Inv(AfterAdmit(s, unsent))
  {
    var t := AfterAdmit(s, unsent);
    AdmitKeeps(s.pending, s.offers[0].claims, s.clock);
    assert |t.offers| <= OFFER_DEPTH;
    forall e | e in t.pending
      ensures && t.pending[e].claim.entry == e && t.pending[e].started <= t.clock
              && Unseen(t.past, e, t.past.since[e], |t.past.sightings|)
    {
      if e in s.pending {
        assert Unseen(s.past, e, s.past.since[e], |s.past.sightings|);
      }
    }
    SamePastKeeps(s, t);
  }

  /** Everything that looks only at verdicts, sightings and the reconciler survives a step
      that leaves those alone. */
  lemma SamePastKeeps(s: System, t: System)
    requires Inv(s)
    requires t.past.(since := map[]) == s.past.(since := map[])
    requires t.events == s.events && t.book == s.book
    ensures EventsSound(t) && ProofsSound(t.past, t.book.proved) && InstallsSound(t.past)
    ensures forall r :: r in t.past.verdicts ==> RecordSound(t.past, r)
  {
    assert && t.past.verdicts == s.past.verdicts && t.past.sightings == s.past.sightings
           && t.past.provedBy == s.past.provedBy && t.past.accepted == s.past.accepted
           && t.past.installs == s.past.installs;
    forall i | 0 <= i < |t.events| && t.events[i].Verdict?
      ensures Issued(t.past, t.events[i].serial, t.events[i].claim, t.events[i].contested)
    {
      assert Issued(s.past, s.events[i].serial, s.events[i].claim, s.events[i].contested);
    }
    forall e | e in t.past.provedBy
      ensures Proof(t.past, e, t.past.provedBy[e])
    {
      assert Proof(s.past, e, s.past.provedBy[e]);
    }
    forall i | 0 <= i < |t.past.installs| && t.past.installs[i].ByProof?
      ensures Proof(t.past, t.past.installs[i].entry, t.past.installs[i].serial)
    {
      assert Proof(s.past, s.past.installs[i].entry, s.past.installs[i].serial);
    }
    forall r | r in t.past.verdicts
      ensures RecordSound(t.past, r)
    {
      assert RecordSound(s.past, r);
    }
  }

  /** Mid-poll: everything holds except that pending entries the poll saw are still there. */
  ghost predicate MidPoll(s: System, seen: set<Entry>, now: int) {
    var last := |s.past.sightings| - 1;
    && last >= 0 && s.past.sightings[last] == Sighting(now, seen) && s.clock == now
    && Tidy(s) && Timed(s)
    && s.past.since.Keys == s.pending.Keys
    && (forall e :: e in s.pending ==>
         && s.pending[e].claim.entry == e && s.pending[e].started <= now
         && Splits(s.past.sightings, s.past.since[e], s.pending[e].started) && s.past.since[e] <= last
         && Unseen(s.past, e, s.past.since[e], last))
    && (forall r :: r in s.past.verdicts ==> RecordSound(s.past, r))
    && EventsSound(s) && ProofsSound(s.past, s.book.proved) && InstallsSound(s.past)
  }

  lemma LookKeeps(s: System, seen: set<Entry>)
    requires Inv(s) && s.offers != []
    ensures MidPoll(s.(offers := s.offers[1..],
                       past := s.past.(sightings := s.past.sightings + [Sighting(s.clock, seen)])), seen, s.clock)
  {
    var t := s.(offers := s.offers[1..], past := s.past.(sightings := s.past.sightings + [Sighting(s.clock, seen)]));
    forall e | e in t.pending
      ensures Unseen(t.past, e, t.past.since[e], |s.past.sightings|)
    {
      assert Unseen(s.past, e, s.past.since[e], |s.past.sightings|);
    }
    forall r | r in t.past.verdicts
      ensures RecordSound(t.past, r)
    {
      assert RecordSound(s.past, r);
    }
    forall i | 0 <= i < |t.events| && t.events[i].Verdict?
      ensures Issued(t.past, t.events[i].serial, t.events[i].claim, t.events[i].contested)
    {
      assert Issued(s.past, s.events[i].serial, s.events[i].claim, s.events[i].contested);
    }
    forall e | e in t.past.provedBy
      ensures Proof(t.past, e, t.past.provedBy[e])
    {
      assert Proof(s.past, e, s.past.provedBy[e]);
    }
    forall i | 0 <= i < |t.past.installs| && t.past.installs[i].ByProof?
      ensures Proof(t.past, t.past.installs[i].entry, t.past.installs[i].serial)
    {
      assert Proof(s.past, s.past.installs[i].entry, s.past.installs[i].serial);
    }
  }

  /** A ruling of this poll is a sound record. */
  lemma RulingIsSound(s: System, e: Entry, contested: bool, seen: set<Entry>, now: int)
    requires MidPoll(s, seen, now) && e in s.pending
    requires !contested ==> e !in seen && now - s.pending[e].started >= PROBE_TIMEOUT
    ensures var t := RuleOne(s, e, contested);
            Timed(t) && forall q :: q in t.past.verdicts ==> RecordSound(t.past, q)
  {
    var t := RuleOne(s, e, contested);
    assert Unseen(s.past, e, s.past.since[e], |s.past.sightings| - 1);
    forall q | q in t.past.verdicts
      ensures RecordSound(t.past, q) && q.decided <= t.clock
    {
      if q in s.past.verdicts {
        assert RecordSound(s.past, q);
      } else {
        assert q == Record(s.pending[e].claim, contested, s.pending[e].started, now, s.past.since[e], |s.past.sightings|);
        assert Splits(s.past.sightings, q.last, q.decided);
      }
    }
  }

  /** What a ruling leaves pending is as it was. */
  lemma RestStaysPending(s: System, e: Entry, contested: bool, seen: set<Entry>, now: int)
    requires MidPoll(s, seen, now) && e in s.pending
    ensures var t := RuleOne(s, e, contested);
            && t.past.since.Keys == t.pending.Keys
            && forall x :: x in t.pending ==>
                 && t.pending[x].claim.entry == x && t.pending[x].started <= now
                 && Splits(t.past.sightings, t.past.since[x], t.pending[x].started) && t.past.since[x] <= |t.past.sightings| - 1
                 && Unseen(t.past, x, t.past.since[x], |t.past.sightings| - 1)
  {
    var t := RuleOne(s, e, contested);
    forall x | x in t.pending
      ensures Unseen(t.past, x, t.past.since[x], |t.past.sightings| - 1)
    {
      assert Unseen(s.past, x, s.past.since[x], |s.past.sightings| - 1);
    }
  }

  lemma RulingKeepsProofs(s: System, e: Entry, contested: bool, seen: set<Entry>, now: int)
    requires MidPoll(s, seen, now) && e in s.pending
    ensures var t := RuleOne(s, e, contested);
            EventsSound(t) && ProofsSound(t.past, t.book.proved) && InstallsSound(t.past)
  {
    var t := RuleOne(s, e, contested);
    forall i | 0 <= i < |t.events| && t.events[i].Verdict?
      ensures Issued(t.past, t.events[i].serial, t.events[i].claim, t.events[i].contested)
      ensures t.events[i].serial !in t.past.accepted
      ensures i < |s.events| ==> t.events[i].serial < |s.past.verdicts|
    {
      if i < |s.events| {
        assert Issued(s.past, s.events[i].serial, s.events[i].claim, s.events[i].contested);
      }
    }
    forall x | x in t.past.provedBy
      ensures Proof(t.past, x, t.past.provedBy[x])
    {
      assert Proof(s.past, x, s.past.provedBy[x]);
    }
    forall i | 0 <= i < |t.past.installs| && t.past.installs[i].ByProof?
      ensures Proof(t.past, t.past.installs[i].entry, t.past.installs[i].serial)
    {
      assert Proof(s.past, s.past.installs[i].entry, s.past.installs[i].serial);
    }
  }

  /** One ruling: contested if the poll saw the address, free if it did not and time is up. */
  lemma RuleOneKeeps(s: System, e: Entry, contested: bool, seen: set<Entry>, now: int)
    requires MidPoll(s, seen, now) && e in s.pending
    requires !contested ==> e !in seen && now - s.pending[e].started >= PROBE_TIMEOUT
    ensures MidPoll(RuleOne(s, e, contested), seen, now)
  {
    RulingIsSound(s, e, contested, seen, now);
    RestStaysPending(s, e, contested, seen, now);
    RulingKeepsProofs(s, e, contested, seen, now);
  }

  lemma {:induction false} RulePending(s: System, order: seq<Entry>, split: nat)
    requires s.past.since.Keys == s.pending.Keys
    requires Distinct(order) && Range(order) <= s.pending.Keys
    ensures var t := Rule(s, order, split);
            && t.pending == s.pending - Range(order)
            && t.past.since.Keys == t.pending.Keys
            && t.clock == s.clock
  {
    if order != [] {
      var n := |order| - 1;
      assert order == order[..n] + [order[n]];
      assert order[n] in Range(order) && order[n] !in Range(order[..n]);
      RulePending(s, order[..n], split);
    }
  }

  lemma {:induction false} RuleKeeps(s: System, seen: set<Entry>, order: seq<Entry>, split: nat)
    requires MidPoll(s, seen, s.clock)
    requires Distinct(order) && Range(order) <= s.pending.Keys
    requires forall i :: 0 <= i < |order| && split <= i ==>
               order[i] !in seen && s.clock - s.pending[order[i]].started >= PROBE_TIMEOUT
    ensures MidPoll(Rule(s, order, split), seen, s.clock)
  {
    if order != [] {
      var n := |order| - 1;
      assert order == order[..n] + [order[n]];
      assert order[n] in Range(order) && order[n] !in Range(order[..n]);
      RulePending(s, order[..n], split);
      RuleKeeps(s, seen, order[..n], split);
      RuleOneKeeps(Rule(s, order[..n], split), order[n], n < split, seen, s.clock);
    }
  }

  lemma PollOrder(s: System, seen: set<Entry>, order: seq<Entry>, split: nat)
    requires Enabled(s, Poll(seen, order, split))
    ensures Distinct(order) && Range(order) <= s.pending.Keys
    ensures forall i :: 0 <= i < |order| && split <= i ==>
              order[i] !in seen && s.clock - s.pending[order[i]].started >= PROBE_TIMEOUT
    ensures forall e :: e in s.pending && e in seen ==> e in Range(order)
  {
    var first, second := order[..split], order[split..];
    forall i | 0 <= i < |order|
      ensures order[i] in s.pending
      ensures split <= i ==> order[i] in Free(s.pending, seen, s.clock)
      ensures i < split ==> order[i] in seen
    {
      if i < split {
        assert first[i] in Range(first);
      } else {
        assert second[i - split] in Range(second);
      }
    }
    forall i, j | 0 <= i < j < |order|
      ensures order[i] != order[j]
    {
      if j < split {
        assert first[i] != first[j];
      } else if i >= split {
        assert second[i - split] != second[j - split];
      }
    }
    forall e | e in s.pending && e in seen
      ensures e in Range(order)
    {
      assert e in Range(first);
      assert order == first + second;
    }
  }

  lemma MidPollEnds(s: System, seen: set<Entry>)
    requires MidPoll(s, seen, s.clock)
    requires s.pending.Keys !! seen
    ensures Inv(s)
  {
    forall e | e in s.pending
      ensures Unseen(s.past, e, s.past.since[e], |s.past.sightings|)
    {
      assert Unseen(s.past, e, s.past.since[e], |s.past.sightings| - 1);
    }
  }

  lemma PollKeeps(s: System, seen: set<Entry>, order: seq<Entry>, split: nat)
    requires Inv(s) && Enabled(s, Poll(seen, order, split))
    ensures Inv(AfterPoll(s, seen, order, split))
  {
    var looked := s.(offers := s.offers[1..],
                     past := s.past.(sightings := s.past.sightings + [Sighting(s.clock, seen)]));
    LookKeeps(s, seen);
    PollOrder(s, seen, order, split);
    RuleKeeps(looked, seen, order, split);
    RulePending(looked, order, split);
    MidPollEnds(Rule(looked, order, split), seen);
  }

  // ----- every run ---------------------------------------------------------------------

  lemma StepKeepsInv(s: System, step: Step)
    requires Inv(s) && Enabled(s, step)
    ensures Inv(Apply(s, step))
  {
    match step {
      case Advance(_) => SamePastKeeps(s, Apply(s, step)); ProberUntouched(s, Apply(s, step));
      case Tick => SamePastKeeps(s, Apply(s, step)); ProberUntouched(s, Apply(s, step));
      case OtherArrives => ProberUntouched(s, Apply(s, step));
      case Handle => HandleKeeps(s);
      case PassOnce(_, _, _, _, _, _, _) =>
        PassKeepsTidy(s, step);
        PassKeepsProofs(s, step);
        PassKeepsInstalls(s, step);
        PassKeepsRest(s, step);
      case AdmitOffer(unsent) => AdmitKeepsInv(s, unsent);
      case Poll(seen, order, split) => PollKeeps(s, seen, order, split);
      case Stop => StopKeeps(s);
    }
  }

  lemma StopKeeps(s: System)
    requires Inv(s) && !s.stopped
    ensures Inv(Apply(s, Stop))
  {
    var t := Apply(s, Stop);
    forall i | 0 <= i < |t.past.installs| && t.past.installs[i].ByProof?
      ensures Proof(t.past, t.past.installs[i].entry, t.past.installs[i].serial)
    {
      assert Proof(s.past, s.past.installs[i].entry, s.past.installs[i].serial);
    }
    ProberUntouched(s, t);
  }

  /** In every reachable state the whole invariant holds. */
  lemma {:induction false} InvOnEveryRun(tr: seq<System>, k: nat)
    requires Run(tr) && k < |tr|
    ensures Inv(tr[k])
  {
    if k > 0 {
      InvOnEveryRun(tr, k - 1);
      assert Next(tr[k - 1], tr[k]);
      var step :| Enabled(tr[k - 1], step) && tr[k] == Apply(tr[k - 1], step);
      StepKeepsInv(tr[k - 1], step);
    }
  }

  // ----- what the other steps do ------------------------------------------------------------

  lemma OrderHas(s: System, seen: set<Entry>, order: seq<Entry>, split: nat, e: Entry)
    requires Enabled(s, Poll(seen, order, split))
    ensures e in Range(order) <==> e in s.pending && (e in seen || s.clock - s.pending[e].started >= PROBE_TIMEOUT)
  {
    assert order == order[..split] + order[split..];
    assert e in Range(order) <==> e in Range(order[..split]) || e in Range(order[split..]);
  }

  lemma PollLeaves(s: System, seen: set<Entry>, order: seq<Entry>, split: nat)
    requires s.past.since.Keys == s.pending.Keys && Distinct(order) && Range(order) <= s.pending.Keys && s.offers != []
    ensures var t := AfterPoll(s, seen, order, split);
            && t.pending == s.pending - Range(order)
            && |t.past.verdicts| == |s.past.verdicts| + |order|
            && t.offers == s.offers[1..]
  {
    var looked := s.(offers := s.offers[1..],
                     past := s.past.(sightings := s.past.sightings + [Sighting(s.clock, seen)]));
    RulePending(looked, order, split);
    RuleRecords(looked, order, split);
  }

  /** A poll rules on every pending claim that was seen, or whose whole window has passed, and on no
      other; each ruling is recorded. */
  lemma PollDecides(s: System, step: Step, e: Entry)
    requires Inv(s) && Enabled(s, step) && step.Poll?
    ensures var t := Apply(s, step);
            && (e in t.pending <==> e in s.pending && e !in step.seen && s.clock - s.pending[e].started < PROBE_TIMEOUT)
            && (e in t.pending ==> t.pending[e] == s.pending[e])
            && |t.past.verdicts| == |s.past.verdicts| + |step.order|
            && t.offers == s.offers[1..]
  {
    PollOrder(s, step.seen, step.order, step.split);
    PollLeaves(s, step.seen, step.order, step.split);
    OrderHas(s, step.seen, step.order, step.split, e);
  }

  lemma {:induction false} RuleRecords(s: System, order: seq<Entry>, split: nat)
    requires s.past.since.Keys == s.pending.Keys && Distinct(order) && Range(order) <= s.pending.Keys
    ensures var t := Rule(s, order, split);
            |t.past.verdicts| == |s.past.verdicts| + |order| && t.offers == s.offers && t.pending.Keys <= s.pending.Keys
            && forall e :: e in t.pending ==> t.pending[e] == s.pending[e]
  {
    if order != [] {
      var n := |order| - 1;
      assert order == order[..n] + [order[n]];
      assert order[n] in Range(order) && order[n] !in Range(order[..n]);
      RulePending(s, order[..n], split);
      RuleRecords(s, order[..n], split);
    }
  }

  /** One ruling: the claim's verdict is recorded, and posted if there is room. */
  lemma RulingIsReported(s: System, e: Entry, contested: bool)
    requires Inv(s) && e in s.pending
    ensures var t := RuleOne(s, e, contested);
            && t.pending == s.pending - {e}
            && |t.past.verdicts| == |s.past.verdicts| + 1
            && t.past.verdicts[|s.past.verdicts|].claim == s.pending[e].claim && t.past.verdicts[|s.past.verdicts|].contested == contested
            && t.events == s.events + if |s.events| < EVENT_DEPTH then [Verdict(s.pending[e].claim, contested, |s.past.verdicts|)] else []
  {
  }

  /** A pass offers its claims, a tick a poll, if the prober's mailbox has room; a batch taken from it
      makes every claim in it pending that could be solicited and was not pending yet. */
  lemma OffersArrive(s: System, step: Step)
    requires Enabled(s, step)
    ensures step.PassOnce? ==>
              var out := Pass(s.book, step.reading, step.desired, step.local, s.clock, step.stamps, step.stale, step.missing);
              && Apply(s, step).book == out.book
              && forall cs :: Offer(cs) in out.actions ==>
                   Apply(s, step).offers == s.offers + if |s.offers| < OFFER_DEPTH then [Batch(cs)] else []
    ensures step.Tick? ==> Apply(s, step).offers == s.offers + if |s.offers| < OFFER_DEPTH then [PollTick] else []
    ensures step.AdmitOffer? ==>
              var t := Apply(s, step);
              && t.offers == s.offers[1..]
              && (forall e :: e in t.pending <==>
                    (e in s.pending || exists c :: c in s.offers[0].claims && c.entry == e) && e !in step.unsent)
              && forall e :: e in t.pending ==>
                   if e in s.pending then t.pending[e] == s.pending[e]
                   else t.pending[e].started == s.clock && t.pending[e].claim in s.offers[0].claims && t.pending[e].claim.entry == e
  {
    if step.PassOnce? {
      var swept := Sweep(s.book, s.clock);
      var acts := Pass(s.book, step.reading, step.desired, step.local, s.clock, step.stamps, step.stale, step.missing).actions;
      forall cs | Offer(cs) in acts
        ensures cs == PlanIn(s, step).claims && cs != []
      {
        ActionsOfPass(swept, step.stale, step.missing, step.local, s.clock, step.stamps, Offer(cs));
      }
    } else if step.AdmitOffer? {
      AdmitKeeps(s.pending, s.offers[0].claims, s.clock);
    }
  }

  /** Stopping forgets conflicts, claims and proofs, but no burn. */
  lemma StopForgets(s: System)
    requires Enabled(s, Stop)
    ensures var book := Apply(s, Stop).book;
            book.conflicts == map[] && book.probing == map[] && book.proved == {} && book.burned == s.book.burned
  {
  }

  // ----- burns -------------------------------------------------------------------------

  lemma {:induction false} RuleKeepsReconciler(s: System, order: seq<Entry>, split: nat)
    ensures var t := Rule(s, order, split);
            && t.book == s.book && t.lastPass == s.lastPass
            && t.past.claims == s.past.claims && t.past.installs == s.past.installs
  {
    if order != [] {
      RuleKeepsReconciler(s, order[..|order| - 1], split);
    }
  }

  /** No step takes a burn back, and only a pass makes claims or installs. */
  lemma StepGrows(s: System, step: Step)
    requires Enabled(s, step)
    ensures var t := Apply(s, step);
            && s.book.burned <= t.book.burned
            && s.past.claims <= t.past.claims && s.past.installs <= t.past.installs
            && (!step.PassOnce? ==> t.past.claims == s.past.claims && t.past.installs == s.past.installs)
  {
    if step.Poll? {
      var looked := s.(offers := s.offers[1..],
                       past := s.past.(sightings := s.past.sightings + [Sighting(s.clock, step.seen)]));
      RuleKeepsReconciler(looked, step.order, step.split);
    } else if step.PassOnce? {
      PassBook(s, step);
    }
  }

  lemma {:induction false} BurnsLast(tr: seq<System>, i: nat, j: nat)
    requires Run(tr) && i <= j < |tr|
    ensures tr[i].book.burned <= tr[j].book.burned
  {
    if i < j {
      BurnsLast(tr, i, j - 1);
      assert Next(tr[j - 1], tr[j]);
      var step :| Enabled(tr[j - 1], step) && tr[j] == Apply(tr[j - 1], step);
      StepGrows(tr[j - 1], step);
    }
  }

  /** What handling a verdict does to the book. It counts exactly while the claim is in flight with
      the same kind; then the claim is settled, and a contested one is remembered and burns its
      identifier, a free screened one leaves a proof and clears the conflict. */
  lemma VerdictSettles(s: System)
    requires Enabled(s, Handle) && s.events[0].Verdict?
    ensures var t, m, e := Apply(s, Handle), s.events[0], s.events[0].claim.entry;
            if e in s.book.probing && s.book.probing[e].kind == m.claim.kind then
              && t.book.probing == s.book.probing - {e}
              && t.book.burned == s.book.burned + (if m.contested then {BurnKey(e)} else {})
              && t.book.conflicts == (if m.contested then s.book.conflicts[e := s.clock]
                                      else if m.claim.kind == Screened then s.book.conflicts - {e} else s.book.conflicts)
              && t.book.proved == s.book.proved + (if !m.contested && m.claim.kind == Screened then {e} else {})
              && t.past.accepted == s.past.accepted + {m.serial}
            else t.book == s.book && t.past == s.past
  {
  }

  /** Every verdict that counted and was contested has burned its identifier. */
  ghost predicate ContestedAreBurned(s: System) {
    forall n :: n in s.past.accepted ==>
      n < |s.past.verdicts| && (s.past.verdicts[n].contested ==> BurnKey(s.past.verdicts[n].claim.entry) in s.book.burned)
  }

  lemma {:induction false} RuleKeepsVerdicts(s: System, order: seq<Entry>, split: nat)
    ensures var t := Rule(s, order, split); s.past.verdicts <= t.past.verdicts && t.past.accepted == s.past.accepted
  {
    if order != [] {
      RuleKeepsVerdicts(s, order[..|order| - 1], split);
    }
  }

  lemma StepKeepsVerdicts(s: System, step: Step)
    requires Enabled(s, step)
    ensures var t := Apply(s, step);
            s.past.verdicts <= t.past.verdicts && (!step.Handle? ==> t.past.accepted == s.past.accepted)
  {
    if step.Poll? {
      RuleKeepsVerdicts(s.(offers := s.offers[1..],
                           past := s.past.(sightings := s.past.sightings + [Sighting(s.clock, step.seen)])), step.order, step.split);
    }
  }

  lemma StepKeepsBurned(s: System, step: Step)
    requires Inv(s) && Enabled(s, step) && ContestedAreBurned(s)
    ensures ContestedAreBurned(Apply(s, step))
  {
    StepGrows(s, step);
    StepKeepsVerdicts(s, step);
    if step.Handle? && s.events[0].Verdict? {
      VerdictSettles(s);
      assert Issued(s.past, s.events[0].serial, s.events[0].claim, s.events[0].contested);
    }
  }

  lemma {:induction false} BurnedOnEveryRun(tr: seq<System>, k: nat)
    requires Run(tr) && k < |tr|
    ensures ContestedAreBurned(tr[k])
  {
    if k > 0 {
      BurnedOnEveryRun(tr, k - 1);
      InvOnEveryRun(tr, k - 1);
      assert Next(tr[k - 1], tr[k]);
      var step :| Enabled(tr[k - 1], step) && tr[k] == Apply(tr[k - 1], step);
      StepKeepsBurned(tr[k - 1], step);
    }
  }

  /** From the moment a contested verdict counts, in every later state, its identifier is burned. */
  lemma ContestedBurnsForGood(tr: seq<System>, i: nat, j: nat, n: nat)
    requires Run(tr) && i <= j < |tr| && n in tr[i].past.accepted
    ensures n < |tr[i].past.verdicts|
    ensures tr[i].past.verdicts[n].contested ==> BurnKey(tr[i].past.verdicts[n].claim.entry) in tr[j].book.burned
  {
    BurnedOnEveryRun(tr, i);
    BurnsLast(tr, i, j);
  }

  /** Once a host identifier is burned on an uplink, no later step claims any address with
      that identifier there speculatively, whatever its network half has become. */
  lemma BurnedIsNeverSpeculated(tr: seq<System>, i: nat, j: nat, n: nat)
    requires Run(tr) && i <= j < |tr| - 1
    requires |tr[j].past.claims| <= n < |tr[j + 1].past.claims|
    requires BurnKey(tr[j + 1].past.claims[n].entry) in tr[i].book.burned
    ensures tr[j + 1].past.claims[n].kind == Screened
  {
    BurnsLast(tr, i, j);
    assert Next(tr[j], tr[j + 1]);
    var step :| Enabled(tr[j], step) && tr[j + 1] == Apply(tr[j], step);
    StepGrows(tr[j], step);
    PassBook(tr[j], step);
    var plan := PlanIn(tr[j], step);
    assert tr[j + 1].past.claims[n] == plan.claims[n - |tr[j].past.claims|];
  }

  lemma PassInstalls(s: System, step: Step, n: nat)
    requires step.PassOnce? && Enabled(s, step)
    requires |s.past.installs| <= n < |AfterPass(s, step).past.installs|
    ensures var it := AfterPass(s, step).past.installs[n]; it.ByProof? || !s.book.Burned(it.entry)
  {
    PassBook(s, step);
    var plan := PlanIn(s, step);
    SpeculationMembers(plan.claims);
    var proofs, guesses := Proofs(plan.proved, s.past.provedBy), Speculations(plan.claims);
    var it := AfterPass(s, step).past.installs[n];
    assert it in proofs + guesses;
    if it in guesses {
      assert Claim(it.entry, Speculative) in plan.claims;
    }
  }

  /** Each later install of such an address spends a proof of its own: an accepted "free"
      for a screened claim on exactly that entry, pending for at least the whole window, while no
      poll made between its start and the decision saw the address, nor did the poll that
      decided; and used by no other install of the run. */
  lemma BurnedInstallIsEarned(tr: seq<System>, i: nat, j: nat, n: nat)
    requires Run(tr) && i <= j < |tr| - 1
    requires |tr[j].past.installs| <= n < |tr[j + 1].past.installs|
    requires BurnKey(tr[j + 1].past.installs[n].entry) in tr[i].book.burned
    ensures var h := tr[j + 1].past;
            var it := h.installs[n];
            && it.ByProof?
            && Proof(h, it.entry, it.serial)
            && (var r := h.verdicts[it.serial];
                && r.claim == Claim(it.entry, Screened) && !r.contested
                && r.decided - r.started >= PROBE_TIMEOUT
                && (forall k :: 0 <= k < |h.sightings| && r.started < h.sightings[k].at < r.decided ==>
                      it.entry !in h.sightings[k].seen)
                && exists k :: 0 <= k < |h.sightings| && h.sightings[k].at == r.decided && it.entry !in h.sightings[k].seen)
            && forall m :: 0 <= m < |h.installs| && m != n && h.installs[m].ByProof? ==>
                 h.installs[m].serial != it.serial
  {
    BurnsLast(tr, i, j);
    InvOnEveryRun(tr, j + 1);
    assert Next(tr[j], tr[j + 1]);
    var step :| Enabled(tr[j], step) && tr[j + 1] == Apply(tr[j], step);
    StepGrows(tr[j], step);
    PassInstalls(tr[j], step, n);
    var h := tr[j + 1].past;
    var it := h.installs[n];
    assert Proof(h, it.entry, it.serial);
    assert h.verdicts[it.serial] in h.verdicts;
    FreeMeansUnseen(h, h.verdicts[it.serial]);
  }

  /** What the numbers say about a free verdict, said in times: every poll made between start
      and decision, and the one that decided, did not see the address. */
  lemma FreeMeansUnseen(h: History, r: Record)
    requires RecordSound(h, r) && !r.contested
    ensures forall k :: 0 <= k < |h.sightings| && r.started < h.sightings[k].at < r.decided ==> r.claim.entry !in h.sightings[k].seen
    ensures exists k :: 0 <= k < |h.sightings| && h.sightings[k].at == r.decided && r.claim.entry !in h.sightings[k].seen
  {
    forall k | 0 <= k < |h.sightings| && r.started < h.sightings[k].at < r.decided
      ensures r.claim.entry !in h.sightings[k].seen
    {
      assert r.first <= k < r.last;
    }
    assert r.claim.entry !in h.sightings[r.last - 1].seen;
  }

  /** A lost offer or verdict blocks no entry longer than one give-up interval: a pass that
      late finds nothing in flight. */
  lemma LostClaimsLapse(tr: seq<System>, k: nat, now: int)
    requires Run(tr) && k < |tr| && tr[k].lastPass + GIVE_UP <= now
    ensures Sweep(tr[k].book, now).probing == map[]
  {
    InvOnEveryRun(tr, k);
    var swept := Sweep(tr[k].book, now).probing;
    forall e | e in tr[k].book.probing
      ensures e !in swept
    {
      assert tr[k].book.probing[e].deadline <= now;
    }
  }

  /** The order within one call matters: of two entries with one host identifier, the one
      looked at before its refused sibling is still claimed speculatively. */
  lemma SiblingLookedAtFirst(first: Entry, second: Entry, now: int)
    requires first.addr != second.addr && BurnKey(first) == BurnKey(second)
    ensures PlanFor(EmptyBook, [first, second], {second.addr}, now).claims == [Claim(first, Speculative)]
    ensures PlanFor(EmptyBook, [second, first], {second.addr}, now).claims == [Claim(first, Screened)]
  {
    var local := {second.addr};
    var fates := Fates(EmptyBook, local, now, [first, second]);
    assert fates == [Speculated, Refused];
    assert [first, second][..1] == [first] && fates[..1] == [Speculated];
    assert ClaimsOf([first], [Speculated]) == ClaimsOf([], []) + [Claim(first, Speculative)];
    var setaf := Fates(EmptyBook, local, now, [second, first]);
    assert [second, first][..1] == [second];
    assert second in [second] && BurnKey(second) in BurnedHere(EmptyBook, local, [second]);
    assert setaf == [Refused, Probed];
    assert setaf[..1] == [Refused];
    assert ClaimsOf([second], [Refused]) == ClaimsOf([], []) + [];
  }
}
