/** Actions carry a rank; a batch runs in a stable order of ranks. */
module Command {

  datatype Act<T> = Act(order: int, op: T)

  const MONITOR_STOP := -1
  const MONITOR_START := 1
  const MANGLE_CHAIN := 5
  const TABLE_ROUTES := 10
  const TABLE_RULE := 20
  const FWMARK_RULE := 30
  const ECMP_ROUTE := 40
  const NFT_TABLE := 50
  const PROXY_KNOB := 55
  const PROXY_ENTRY := 60

  function Teardown(order: int): int {
    -order
  }

  /** Every rank an action is given outside a cleanup phase. */
  predicate Ranked<T>(acts: seq<Act<T>>) {
    forall i :: 0 <= i < |acts| ==> -PROXY_ENTRY <= acts[i].order <= PROXY_ENTRY
  }

  // ----- the stable order -----------------------------------------------------------------

  predicate InOrder<T>(s: seq<Act<T>>) {
    forall i, j :: 0 <= i < j < |s| ==> s[i].order <= s[j].order
  }

  /** The actions of one rank, as they stand. */
  function OfRank<T>(s: seq<Act<T>>, rank: int): seq<Act<T>> {
    if s == [] then []
    else
      var n := |s| - 1;
      OfRank(s[..n], rank) + OneOfRank(s[n], rank)
  }

  function OneOfRank<T>(a: Act<T>, rank: int): seq<Act<T>> {
    if a.order == rank then [a] else []
  }

  /** After everything of the same or a lower rank. */
  function Insert<T>(s: seq<Act<T>>, a: Act<T>): seq<Act<T>> {
    if s == [] then [a]
    else
      var n := |s| - 1;
      if s[n].order <= a.order then s + [a] else Insert(s[..n], a) + [s[n]]
  }

  function Sorted<T>(s: seq<Act<T>>): seq<Act<T>> {
    if s == [] then []
    else
      var n := |s| - 1;
      Insert(Sorted(s[..n]), s[n])
  }

  /** Moves the action at i down past every action of a higher rank. */
  method Sink<T>(acts: array<Act<T>>, i: nat)
    requires i < acts.Length
    modifies acts
    ensures acts[..i + 1] == Insert(old(acts[..i]), old(acts[i]))
    ensures acts[i + 1..] == old(acts[i + 1..])
  {
    ghost var was := acts[..i];
    var x := acts[i];
    var j := i;
    while j > 0 && acts[j - 1].order > x.order
      invariant 0 <= j <= i
      invariant forall k :: 0 <= k < j ==> acts[k] == was[k]
      invariant acts[j] == x
      invariant forall k :: j < k <= i ==> acts[k] == was[k - 1]
      invariant forall k :: j <= k < i ==> was[k].order > x.order
      invariant forall k :: i < k < acts.Length ==> acts[k] == old(acts[k])
    {
      acts[j - 1], acts[j] := acts[j], acts[j - 1];
      j := j - 1;
    }
    InsertedAt(was, j, x);
  }

  /** Sorts in place; actions of one rank keep their order. */
  method Ordered<T>(acts: array<Act<T>>)
    modifies acts
    ensures acts[..] == Sorted(old(acts[..]))
  {
    ghost var was := acts[..];
    for i := 0 to acts.Length
      invariant acts[..i] == Sorted(was[..i])
      invariant acts[i..] == was[i..]
    {
      assert acts[i] == acts[i..][0] == was[i..][0] == was[i];
      assert acts[i + 1..] == acts[i..][1..] && was[i + 1..] == was[i..][1..];
      assert was[..i + 1][..i] == was[..i];
      Sink(acts, i);
    }
    assert acts[..acts.Length] == acts[..] && was[..acts.Length] == was;
  }

  lemma {:induction false} InsertedAt<T>(s: seq<Act<T>>, j: nat, a: Act<T>)
    requires j <= |s| && (j > 0 ==> s[j - 1].order <= a.order)
    requires forall k :: j <= k < |s| ==> s[k].order > a.order
    ensures Insert(s, a) == s[..j] + [a] + s[j..]
  {
    if j < |s| {
      var n := |s| - 1;
      InsertedAt(s[..n], j, a);
      assert s[..n][..j] == s[..j] && s[..n][j..] + [s[n]] == s[j..];
    }
  }

  // ----- what the stable order is -----------------------------------------------------------

  lemma RankOfNext<T>(s: seq<Act<T>>, a: Act<T>, rank: int)
    ensures OfRank(s + [a], rank) == OfRank(s, rank) + OneOfRank(a, rank)
  {
    assert (s + [a])[..|s|] == s;
  }

  predicate AtMost<T>(s: seq<Act<T>>, order: int) {
    forall i :: 0 <= i < |s| ==> s[i].order <= order
  }

  lemma {:induction false} InsertKeepsOrder<T>(s: seq<Act<T>>, a: Act<T>, most: int)
    requires InOrder(s)
    ensures InOrder(Insert(s, a))
    ensures AtMost(s, most) && a.order <= most ==> AtMost(Insert(s, a), most)
  {
    if s != [] {
      var n := |s| - 1;
      if s[n].order > a.order {
        InsertKeepsOrder(s[..n], a, most);
        InsertKeepsOrder(s[..n], a, s[n].order);
      }
    }
  }

  lemma {:induction false} InsertIsStable<T>(s: seq<Act<T>>, a: Act<T>, rank: int)
    ensures OfRank(Insert(s, a), rank) == OfRank(s, rank) + OneOfRank(a, rank)
  {
    if s == [] {
      RankOfNext([], a, rank);
      assert [] + [a] == [a];
    } else if s[|s| - 1].order <= a.order {
      RankOfNext(s, a, rank);
    } else {
      var n := |s| - 1;
      InsertIsStable(s[..n], a, rank);
      RankOfNext(Insert(s[..n], a), s[n], rank);
      SwapEmpty(OfRank(s[..n], rank), OneOfRank(a, rank), OneOfRank(s[n], rank));
    }
  }

  lemma SwapEmpty<T>(before: seq<T>, x: seq<T>, y: seq<T>)
    requires x == [] || y == []
    ensures before + x + y == before + y + x
  {
    if x == [] {
      assert before + x == before && before + y + x == before + y;
    } else {
      assert before + y == before && before + x + y == before + x;
    }
  }

  lemma {:induction false} InsertPermutes<T>(s: seq<Act<T>>, a: Act<T>)
    ensures multiset(Insert(s, a)) == multiset(s) + multiset{a}
  {
    if s != [] {
      var n := |s| - 1;
      assert s == s[..n] + [s[n]];
      if s[n].order > a.order {
        InsertPermutes(s[..n], a);
      }
    }
  }

  lemma {:induction false} SortedInOrder<T>(s: seq<Act<T>>)
    ensures InOrder(Sorted(s))
  {
    if s != [] {
      var n := |s| - 1;
      SortedInOrder(s[..n]);
      InsertKeepsOrder(Sorted(s[..n]), s[n], s[n].order);
    }
  }

  lemma OneMore<T>(s: seq<Act<T>>)
    requires s != []
    ensures multiset(s) == multiset(s[..|s| - 1]) + multiset{s[|s| - 1]}
  {
    assert s == s[..|s| - 1] + [s[|s| - 1]];
  }

  lemma {:induction false} SortedPermutes<T>(s: seq<Act<T>>)
    ensures multiset(Sorted(s)) == multiset(s)
  {
    if s != [] {
      var n := |s| - 1;
      SortedPermutes(s[..n]);
      InsertPermutes(Sorted(s[..n]), s[n]);
      OneMore(s);
    }
  }

  /** The actions of each rank stay as they were. */
  lemma {:induction false} SortedIsStable<T>(s: seq<Act<T>>, rank: int)
    ensures OfRank(Sorted(s), rank) == OfRank(s, rank)
  {
    if s != [] {
      var n := |s| - 1;
      SortedIsStable(s[..n], rank);
      InsertIsStable(Sorted(s[..n]), s[n], rank);
    }
  }

  lemma {:induction false} RankMembers<T>(s: seq<Act<T>>, rank: int)
    ensures OfRank(s, rank) != [] <==> exists i :: 0 <= i < |s| && s[i].order == rank
    ensures s != [] && s[|s| - 1].order == rank ==> OfRank(s, rank)[|OfRank(s, rank)| - 1] == s[|s| - 1]
  {
    if s != [] {
      var n := |s| - 1;
      RankMembers(s[..n], rank);
      if i :| 0 <= i < |s| && s[i].order == rank {
        assert i < n ==> s[..n][i].order == rank;
      }
    }
  }

  ghost predicate SameRanks<T>(t: seq<Act<T>>, u: seq<Act<T>>) {
    forall rank :: OfRank(t, rank) == OfRank(u, rank)
  }

  lemma OrderReached<T>(t: seq<Act<T>>, u: seq<Act<T>>)
    requires InOrder(u) && t != [] && SameRanks(t, u)
    ensures u != [] && t[|t| - 1].order <= u[|u| - 1].order
  {
    var order := t[|t| - 1].order;
    RankMembers(t, order);
    assert OfRank(t, order) == OfRank(u, order);
    RankMembers(u, order);
  }

  lemma SameLast<T>(t: seq<Act<T>>, u: seq<Act<T>>)
    requires InOrder(t) && InOrder(u) && t != [] && SameRanks(t, u)
    ensures u != [] && t[|t| - 1] == u[|u| - 1]
    ensures SameRanks(t[..|t| - 1], u[..|u| - 1])
  {
    OrderReached(t, u);
    OrderReached(u, t);
    var m, n := |t| - 1, |u| - 1;
    var order := t[m].order;
    RankMembers(t, order);
    RankMembers(u, order);
    assert OfRank(t, order) == OfRank(u, order);
    forall rank
      ensures OfRank(t[..m], rank) == OfRank(u[..n], rank)
    {
      assert OfRank(t, rank) == OfRank(u, rank);
      Shorter(t, rank);
      Shorter(u, rank);
    }
  }

  lemma Shorter<T>(t: seq<Act<T>>, rank: int)
    requires t != []
    ensures var all, m := OfRank(t, rank), |t| - 1;
            OfRank(t[..m], rank) == if t[m].order == rank then all[..|all| - 1] else all
  {
  }

  /** Order and stability leave one result: any stable sort gives Sorted(s). */
  lemma {:induction false} StableOrderIsUnique<T>(t: seq<Act<T>>, u: seq<Act<T>>)
    requires InOrder(t) && InOrder(u) && SameRanks(t, u)
    ensures t == u
    decreases |t|
  {
    if t != [] {
      SameLast(t, u);
      StableOrderIsUnique(t[..|t| - 1], u[..|u| - 1]);
      assert t == t[..|t| - 1] + [t[|t| - 1]] && u == u[..|u| - 1] + [u[|u| - 1]];
    } else if u != [] {
      OrderReached(u, t);
    }
  }

  // ----- batches in phases ---------------------------------------------------------------------

  lemma {:induction false} RankOfConcat<T>(a: seq<Act<T>>, b: seq<Act<T>>, rank: int)
    ensures OfRank(a + b, rank) == OfRank(a, rank) + OfRank(b, rank)
  {
    if b == [] {
      assert a + b == a;
    } else {
      var n := |b| - 1;
      assert (a + b)[..|a + b| - 1] == a + b[..n];
      RankOfConcat(a, b[..n], rank);
    }
  }

  lemma SortedMembers<T>(s: seq<Act<T>>, x: Act<T>)
    ensures x in Sorted(s) <==> x in s
  {
    SortedPermutes(s);
    assert x in Sorted(s) <==> x in multiset(Sorted(s));
    assert x in s <==> x in multiset(s);
  }

  /** A batch whose first part ranks below its second sorts part by part. */
  lemma SortedInParts<T>(a: seq<Act<T>>, b: seq<Act<T>>)
    requires forall x, y :: x in a && y in b ==> x.order <= y.order
    ensures Sorted(a + b) == Sorted(a) + Sorted(b)
  {
    forall rank
      ensures OfRank(Sorted(a + b), rank) == OfRank(Sorted(a) + Sorted(b), rank)
    {
      SortedIsStable(a + b, rank);
      SortedIsStable(a, rank);
      SortedIsStable(b, rank);
      RankOfConcat(a, b, rank);
      RankOfConcat(Sorted(a), Sorted(b), rank);
    }
    SortedInOrder(a + b);
    SortedInOrder(a);
    SortedInOrder(b);
    forall i, j | 0 <= i < |Sorted(a)| && 0 <= j < |Sorted(b)|
      ensures Sorted(a)[i].order <= Sorted(b)[j].order
    {
      SortedMembers(a, Sorted(a)[i]);
      SortedMembers(b, Sorted(b)[j]);
    }
    StableOrderIsUnique(Sorted(a + b), Sorted(a) + Sorted(b));
  }

  function Shifted<T>(acts: seq<Act<T>>, phase: int): seq<Act<T>> {
    seq(|acts|, i requires 0 <= i < |acts| => acts[i].(order := acts[i].order + phase))
  }

  method InCleanupPhase<T>(phase: int, acts: seq<Act<T>>) returns (out: seq<Act<T>>)
    ensures out == Shifted(acts, phase)
  {
    out := [];
    for i := 0 to |acts|
      invariant out == Shifted(acts[..i], phase)
    {
      var a := acts[i];
      a := a.(order := a.order + phase);
      out := out + [a];
    }
    assert acts[..|acts|] == acts;
  }

  lemma {:induction false} InsertShifted<T>(s: seq<Act<T>>, a: Act<T>, phase: int)
    ensures Insert(Shifted(s, phase), a.(order := a.order + phase)) == Shifted(Insert(s, a), phase)
  {
    if s != [] {
      var n := |s| - 1;
      InsertShifted(s[..n], a, phase);
      assert Shifted(s, phase)[..n] == Shifted(s[..n], phase);
    }
  }

  lemma {:induction false} SortedShifted<T>(s: seq<Act<T>>, phase: int)
    ensures Sorted(Shifted(s, phase)) == Shifted(Sorted(s), phase)
  {
    if s != [] {
      var n := |s| - 1;
      SortedShifted(s[..n], phase);
      assert Shifted(s, phase)[..n] == Shifted(s[..n], phase);
      InsertShifted(Sorted(s[..n]), s[n], phase);
    }
  }

  /** Phase k + 1 is shifted by 1000 * (k + 1). */
  function Phased<T>(phases: seq<seq<Act<T>>>): seq<Act<T>> {
    if phases == [] then []
    else
      var n := |phases| - 1;
      Phased(phases[..n]) + Shifted(phases[n], 1000 * (n + 1))
  }

  function PhaseByPhase<T>(phases: seq<seq<Act<T>>>): seq<Act<T>> {
    if phases == [] then []
    else
      var n := |phases| - 1;
      PhaseByPhase(phases[..n]) + Shifted(Sorted(phases[n]), 1000 * (n + 1))
  }

  method PlanShutdown<T>(phases: seq<seq<Act<T>>>) returns (acts: seq<Act<T>>)
    ensures acts == Phased(phases)
  {
    acts := [];
    for k := 0 to |phases|
      invariant acts == Phased(phases[..k])
    {
      assert phases[..k + 1][..k] == phases[..k];
      var part := InCleanupPhase(1000 * (k + 1), phases[k]);
      acts := acts + part;
    }
    assert phases[..|phases|] == phases;
  }

  lemma {:induction false} PhasedRanks<T>(phases: seq<seq<Act<T>>>, x: Act<T>)
    requires x in Phased(phases) && forall k :: 0 <= k < |phases| ==> Ranked(phases[k])
    ensures x.order <= 1000 * |phases| + PROXY_ENTRY
  {
    var n := |phases| - 1;
    if x in Phased(phases[..n]) {
      PhasedRanks(phases[..n], x);
    } else {
      var i :| 0 <= i < |phases[n]| && x == Shifted(phases[n], 1000 * (n + 1))[i];
      assert Ranked(phases[n]);
    }
  }

  /** A shutdown batch runs phase by phase, each phase as if it were a batch of its own. */
  lemma {:induction false} ShutdownRunsInPhases<T>(phases: seq<seq<Act<T>>>)
    requires forall k :: 0 <= k < |phases| ==> Ranked(phases[k])
    ensures Sorted(Phased(phases)) == PhaseByPhase(phases)
  {
    if phases != [] {
      var n := |phases| - 1;
      ShutdownRunsInPhases(phases[..n]);
      var last := Shifted(phases[n], 1000 * (n + 1));
      forall x, y | x in Phased(phases[..n]) && y in last
        ensures x.order <= y.order
      {
        PhasedRanks(phases[..n], x);
        var i :| 0 <= i < |phases[n]| && y == last[i];
        assert Ranked(phases[n]);
      }
      SortedInParts(Phased(phases[..n]), last);
      SortedShifted(phases[n], 1000 * (n + 1));
    }
  }
}
