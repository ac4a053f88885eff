/** The part of the kernel the daemon reads and writes, and what each action does to it. */
module Kernel {
  import opened Common
  import opened Tokens
  import opened Numbers
  import opened Routes
  import opened Command
  import Firewall

  datatype Rule = Rule(prio: nat, rest: Fields)

  /** A rule as listed: its priority, then selector and target. */
  function RuleLine(r: Rule): Fields {
    [Itoa(r.prio) + ":"] + r.rest
  }

  datatype TableKey = TableKey(fam: Fam, table: nat)

  datatype NftName = NftName(family: string, name: string)

  /** Default routes of the main table are split into everyone else's, as listed, and the one
      with the daemon's protocol and metric. */
  datatype Kernel = Kernel(
    foreign: Both<seq<Fields>>,
    own: Both<Option<seq<Nexthop>>>,
    rules: Both<seq<Rule>>,
    tables: map<TableKey, seq<Fields>>,
    nft: map<NftName, seq<Line>>,
    ipt: Firewall.IptState)

  datatype Op =
    | RuleAdd(fam: Fam, rule: Rule)
    | RuleDel(fam: Fam, prio: int)
    | Flush(fam: Fam, table: nat)
    | RouteReplace(fam: Fam, table: nat, line: Fields)
    | EcmpPut(fam: Fam, metric: nat, nexthops: seq<Nexthop>, replace: bool)
    | EcmpDel(fam: Fam)
    | NftDelete(name: NftName)
    | NftWrite(name: NftName, lines: seq<Line>)
    | Ipt(chain: string, cmd: Firewall.IptCommand)

  function MetricOf(line: Fields): int {
    var m := Atoi(TextOf(FieldAfter(line, "metric")));
    if m.Some? then m.value else 0
  }

  /** Somebody else's default route has the metric. */
  predicate Blocked(k: Kernel, fam: Fam, metric: nat) {
    exists i :: 0 <= i < |k.foreign.Of(fam)| && MetricOf(k.foreign.Of(fam)[i]) == metric
  }

  /** After the rules of the same or a lower priority number. */
  function AddRule(rules: seq<Rule>, r: Rule): seq<Rule> {
    if rules == [] then [r]
    else
      var n := |rules| - 1;
      if rules[n].prio <= r.prio then rules + [r] else AddRule(rules[..n], r) + [rules[n]]
  }

  /** Without the first rule of the priority. */
  function DelRule(rules: seq<Rule>, prio: int): seq<Rule> {
    if rules == [] then []
    else if rules[0].prio == prio then rules[1..]
    else [rules[0]] + DelRule(rules[1..], prio)
  }

  predicate SameRoute(a: Fields, b: Fields) {
    a != [] && b != [] && a[0] == b[0] && FieldAfter(a, "metric") == FieldAfter(b, "metric")
  }

  function WithoutRoute(lines: seq<Fields>, line: Fields): seq<Fields> {
    if lines == [] then []
    else
      var n := |lines| - 1;
      WithoutRoute(lines[..n], line) + if SameRoute(lines[n], line) then [] else [lines[n]]
  }

  function Contents(k: Kernel, key: TableKey): seq<Fields> {
    if key in k.tables then k.tables[key] else []
  }

  /** An action that finds what it would add, or misses what it would remove, changes nothing.
      Writing an nft table replaces it: the daemon deletes it in the same batch or the same
      transaction. */
  function Apply(k: Kernel, op: Op): Kernel {
    match op
    case RuleAdd(fam, r) =>
      if r in k.rules.Of(fam) then k else k.(rules := k.rules.With(fam, AddRule(k.rules.Of(fam), r)))
    case RuleDel(fam, prio) => k.(rules := k.rules.With(fam, DelRule(k.rules.Of(fam), prio)))
    case Flush(fam, table) => k.(tables := k.tables - {TableKey(fam, table)})
    case RouteReplace(fam, table, line) =>
      var key := TableKey(fam, table);
      k.(tables := k.tables[key := WithoutRoute(Contents(k, key), line) + [line]])
    case EcmpPut(fam, metric, nexthops, replace) =>
      if Blocked(k, fam, metric) || (!replace && k.own.Of(fam).Some?) then k
      else k.(own := k.own.With(fam, Some(nexthops)))
    case EcmpDel(fam) => k.(own := k.own.With(fam, None))
    case NftDelete(name) => k.(nft := k.nft - {name})
    case NftWrite(name, lines) => k.(nft := k.nft[name := lines])
    case Ipt(chain, cmd) => k.(ipt := Firewall.IptStep(chain, cmd, k.ipt))
  }

  type Batch = seq<Act<Op>>

  function Run(k: Kernel, acts: Batch): Kernel {
    if acts == [] then k
    else Apply(Run(k, acts[..|acts| - 1]), acts[|acts| - 1].op)
  }

  // ----- reasoning about ordered batches -----------------------------------------------------

  ghost predicate Keeps(p: Kernel -> bool, op: Op) {
    forall k: Kernel :: p(k) ==> p(Apply(k, op))
  }

  lemma {:induction false} RunKeeps(k: Kernel, acts: Batch, p: Kernel -> bool)
    requires p(k) && forall a :: a in acts ==> Keeps(p, a.op)
    ensures p(Run(k, acts))
  {
    if acts != [] {
      var n := |acts| - 1;
      assert acts == acts[..n] + [acts[n]];
      RunKeeps(k, acts[..n], p);
      assert acts[n] in acts;
    }
  }

  lemma {:induction false} RunOn(k: Kernel, a: Batch, b: Batch)
    ensures Run(k, a + b) == Run(Run(k, a), b)
  {
    if b == [] {
      assert a + b == a;
    } else {
      assert (a + b)[..|a + b| - 1] == a + b[..|b| - 1];
      RunOn(k, a, b[..|b| - 1]);
    }
  }

  lemma OrderAround(acts: Batch, i: nat)
    requires InOrder(acts) && i < |acts|
    ensures acts == acts[..i] + [acts[i]] + acts[i + 1..]
    ensures forall a :: a in acts[..i] ==> a in acts && a.order <= acts[i].order
    ensures forall a :: a in acts[i + 1..] ==> a in acts && a.order >= acts[i].order
  {
  }

  ghost predicate Turns(before: Kernel -> bool, op: Op, after: Kernel -> bool) {
    forall k: Kernel :: before(k) ==> after(Apply(k, op))
  }

  /** In a batch that runs in order: what holds until x runs, and is turned by x into
      something that nothing of x's rank or later destroys, holds at the end. */
  lemma Establishes(k: Kernel, acts: Batch, x: Act<Op>, before: Kernel -> bool, after: Kernel -> bool)
    requires InOrder(acts) && x in acts && before(k)
    requires forall a :: a in acts && a.order <= x.order && a != x ==> Keeps(before, a.op)
    requires Turns(before, x.op, after)
    requires forall a :: a in acts && a.order >= x.order ==> Keeps(after, a.op)
    ensures after(Run(k, acts))
  {
    var i := IndexOf(acts, x);
    var pre, post := acts[..i], acts[i + 1..];
    FirstIndex(acts, x);
    OrderAround(acts, i);
    RunKeeps(k, pre, before);
    RunKeeps(Apply(Run(k, pre), x.op), post, after);
    RunInParts(k, pre, x, post);
  }

  lemma RunInParts(k: Kernel, pre: Batch, x: Act<Op>, post: Batch)
    ensures Run(k, pre + [x] + post) == Run(Apply(Run(k, pre), x.op), post)
  {
    assert (pre + [x])[..|pre|] == pre;
    RunOn(k, pre + [x], post);
  }

  lemma {:induction false} FirstIndex<T>(s: seq<T>, x: T)
    requires x in s
    ensures x !in s[..IndexOf(s, x)]
  {
    if s[0] != x {
      FirstIndex(s[1..], x);
      assert s[..IndexOf(s, x)] == [s[0]] + s[1..][..IndexOf(s[1..], x)];
    }
  }

  // ----- rules ---------------------------------------------------------------------------------

  lemma {:induction false} AddRuleMembers(rules: seq<Rule>, r: Rule, s: Rule)
    ensures s in AddRule(rules, r) <==> s in rules || s == r
  {
    if rules != [] {
      var n := |rules| - 1;
      assert rules == rules[..n] + [rules[n]];
      AddRuleMembers(rules[..n], r, s);
    }
  }

  lemma {:induction false} DelRuleMembers(rules: seq<Rule>, prio: int, s: Rule)
    ensures s in DelRule(rules, prio) ==> s in rules
    ensures s in rules && s.prio != prio ==> s in DelRule(rules, prio)
  {
    if rules != [] {
      assert rules == [rules[0]] + rules[1..];
      DelRuleMembers(rules[1..], prio, s);
    }
  }

  ghost predicate UniquePriorities(rules: seq<Rule>) {
    forall i, j :: 0 <= i < j < |rules| ==> rules[i].prio != rules[j].prio
  }

  lemma {:induction false} DelRuleRemoves(rules: seq<Rule>, prio: int)
    requires UniquePriorities(rules)
    ensures UniquePriorities(DelRule(rules, prio))
    ensures forall s :: s in DelRule(rules, prio) ==> s.prio != prio
  {
    if rules != [] {
      assert rules == [rules[0]] + rules[1..];
      DelRuleRemoves(rules[1..], prio);
      var rest := DelRule(rules[1..], prio);
      if rules[0].prio == prio {
        forall s | s in rules[1..]
          ensures s.prio != prio
        {
        }
      } else {
        forall i | 0 <= i < |rest|
          ensures rest[i].prio != rules[0].prio
        {
          DelRuleMembers(rules[1..], prio, rest[i]);
        }
      }
    }
  }

  lemma {:induction false} ReplaceKeeps(lines: seq<Fields>, line: Fields, l: Fields)
    requires l in lines && !SameRoute(l, line)
    ensures l in WithoutRoute(lines, line)
  {
    var n := |lines| - 1;
    assert lines == lines[..n] + [lines[n]];
    if l in lines[..n] {
      ReplaceKeeps(lines[..n], line, l);
    }
  }
}
