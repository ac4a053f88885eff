/** The translation table: which rules it holds, what they do to packets, and how the
    printed table is read back. */
module Translation {
  import opened Common
  import opened Assign
  import opened Tokens

  datatype Rule =
    | Snat(match_: Block, oif: string, to: Block)
    | Dnat(match_: Block, iif: string, to: Block)
    | DropIn(match_: Block, iif: string)
    | DropOut(match_: Block, oif: string)

  /** One table; a chain without rules is left out, except the two NAT chains. */
  datatype Table = Table(prerouting: seq<Rule>, postrouting: seq<Rule>, inbound: seq<Rule>, guard: seq<Rule>)

  predicate Translates(list: seq<Assignment>, uplink: string) {
    exists i :: 0 <= i < |list| && list[i].uplink == uplink
  }

  predicate AllowsInbound(o: Options, uplink: string) {
    var u := UplinkNamed(o.uplinks, uplink);
    u.Some? && u.value.allowInbound
  }

  /** The uplinks, in order, that map nothing; none without leak protection. */
  function GuardsAmong(uplinks: seq<Uplink>, list: seq<Assignment>): seq<string> {
    if uplinks == [] then []
    else
      var n := |uplinks| - 1;
      GuardsAmong(uplinks[..n], list) +
      if Translates(list, uplinks[n].name) then [] else [uplinks[n].name]
  }

  function Guards(o: Options, list: seq<Assignment>): seq<string> {
    if !o.leakProtection || o.internal.None? then [] else GuardsAmong(o.uplinks, list)
  }

  method GuardUplinks(o: Options, list: seq<Assignment>) returns (guards: seq<string>)
    ensures guards == Guards(o, list)
  {
    guards := [];
    if !o.leakProtection || o.internal.None? {
      return;
    }
    var translating: set<string> := {};
    for i := 0 to |list|
      invariant forall u :: u in translating <==> exists k :: 0 <= k < i && list[k].uplink == u
    {
      translating := translating + {list[i].uplink};
    }
    for i := 0 to |o.uplinks|
      invariant guards == GuardsAmong(o.uplinks[..i], list)
    {
      assert o.uplinks[..i + 1][..i] == o.uplinks[..i];
      if o.uplinks[i].name !in translating {
        guards := guards + [o.uplinks[i].name];
      }
    }
    assert o.uplinks[..|o.uplinks|] == o.uplinks;
  }

  // ----- the rules of a table --------------------------------------------------------------

  function SourceRule(a: Assignment): Rule {
    Snat(a.internal, a.uplink, a.external)
  }

  function InboundRule(o: Options, a: Assignment): Rule {
    if AllowsInbound(o, a.uplink) then Dnat(a.external, a.uplink, a.internal) else DropIn(a.external, a.uplink)
  }

  function SourceRules(list: seq<Assignment>): seq<Rule> {
    seq(|list|, i requires 0 <= i < |list| => SourceRule(list[i]))
  }

  function InboundRules(o: Options, list: seq<Assignment>, open: bool): seq<Rule> {
    if list == [] then []
    else
      var n := |list| - 1;
      InboundRules(o, list[..n], open) +
      if AllowsInbound(o, list[n].uplink) == open then [InboundRule(o, list[n])] else []
  }

  function GuardRules(internal: Block, guards: seq<string>): seq<Rule> {
    seq(|guards|, i requires 0 <= i < |guards| => DropOut(internal, guards[i]))
  }

  /** The table for a list of assignments; nothing to say means no table at all. */
  function TableFor(o: Options, list: seq<Assignment>): Option<Table> {
    var guards := Guards(o, list);
    if list == [] && guards == [] then None
    else Some(Table(InboundRules(o, list, true), SourceRules(list), InboundRules(o, list, false),
                    if o.internal.Some? then GuardRules(o.internal.value, guards) else []))
  }

  method Ruleset(o: Options, list: seq<Assignment>) returns (table: Option<Table>)
    ensures table == TableFor(o, list)
  {
    var guards := GuardUplinks(o, list);
    if |list| == 0 && |guards| == 0 {
      return None;
    }
    var pre, post, guard, closed := [], [], [], [];
    for i := 0 to |list|
      invariant post == SourceRules(list[..i])
      invariant pre == InboundRules(o, list[..i], true)
      invariant closed == InboundRules(o, list[..i], false)
    {
      var a := list[i];
      assert list[..i + 1][..i] == list[..i];
      post := post + [Snat(a.internal, a.uplink, a.external)];
      if AllowsInbound(o, a.uplink) {
        pre := pre + [Dnat(a.external, a.uplink, a.internal)];
        continue;
      }
      closed := closed + [DropIn(a.external, a.uplink)];
    }
    assert list[..|list|] == list;
    if o.internal.Some? {
      for i := 0 to |guards|
        invariant guard == GuardRules(o.internal.value, guards[..i])
      {
        guard := guard + [DropOut(o.internal.value, guards[i])];
      }
      assert guards[..|guards|] == guards;
    }
    return Some(Table(pre, post, closed, guard));
  }

  // ----- printing and reading back -----------------------------------------------------------

  /** One printed rule, before its comment. */
  function RuleFields(r: Rule): Line {
    match r
    case Snat(m, oif, to) =>
      [Word("ip6"), Word("saddr"), Cidr(m), Word("oifname"), Quoted(oif),
       Word("snat"), Word("ip6"), Word("prefix"), Word("to"), Cidr(to)]
    case Dnat(m, iif, to) =>
      [Word("ip6"), Word("daddr"), Cidr(m), Word("iifname"), Quoted(iif),
       Word("dnat"), Word("ip6"), Word("prefix"), Word("to"), Cidr(to)]
    case DropIn(m, iif) =>
      [Word("ip6"), Word("daddr"), Cidr(m), Word("iifname"), Quoted(iif),
       Word("ct"), Word("state"), Word("new"), Word("counter"), Word("drop")]
    case DropOut(m, oif) =>
      [Word("ip6"), Word("saddr"), Cidr(m), Word("oifname"), Quoted(oif), Word("drop")]
  }

  /** The words of a comment may be anything, but there is at least one. */
  function RuleLine(r: Rule, comment: Line): Line {
    RuleFields(r) + [Word("comment")] + comment
  }

  const VERBS := {"snat", "dnat", "drop"}

  datatype Key = Key(dir: string, target: Option<Token>, match_: Token, iface: Token)

  function KeyOf(r: Rule): Key {
    match r
    case Snat(m, oif, to) => Key("snat", Some(Cidr(to)), Cidr(m), Word(oif))
    case Dnat(m, iif, to) => Key("dnat", Some(Cidr(to)), Cidr(m), Word(iif))
    case DropIn(m, iif) => Key("drop-in", None, Cidr(m), Word(iif))
    case DropOut(m, oif) => Key("drop-out", None, Cidr(m), Word(oif))
  }

  /** What parseRules makes of one line. */
  function ParseLine(line: Line): Option<Key> {
    var fields := CutComment(line);
    var match_ := FirstOf(fields, Word("saddr"), Word("daddr"));
    var iface := Unquoted(FirstOf(fields, Word("iifname"), Word("oifname")));
    var target := FieldAfter(fields, Word("to"));
    var verb := VerbOf(fields, VERBS);
    if verb.None? || match_.None? || iface.None? then None
    else if verb.value == "drop" then
      Some(Key(if FieldAfter(fields, Word("daddr")).Some? then "drop-in" else "drop-out", target, match_.value, iface.value))
    else if target.None? then None
    else Some(Key(verb.value, target, match_.value, iface.value))
  }

  function KeysIn(lines: seq<Line>): set<Key> {
    set l | l in lines && ParseLine(l).Some? :: ParseLine(l).value
  }

  method ParseRules(lines: seq<Line>) returns (got: set<Key>)
    ensures got == KeysIn(lines)
  {
    got := {};
    for i := 0 to |lines|
      invariant got == KeysIn(lines[..i])
    {
      assert lines[..i + 1] == lines[..i] + [lines[i]];
      var k := ParseLine(lines[i]);
      if k.Some? {
        got := got + {k.value};
      }
    }
    assert lines[..|lines|] == lines;
  }

  function SourceKeys(list: seq<Assignment>): set<Key> {
    set a | a in list :: KeyOf(SourceRule(a))
  }

  function InboundKeys(o: Options, list: seq<Assignment>): set<Key> {
    set a | a in list :: KeyOf(InboundRule(o, a))
  }

  function GuardKeys(internal: Block, guards: seq<string>): set<Key> {
    set u | u in guards :: KeyOf(DropOut(internal, u))
  }

  /** What the table should hold, read off the assignments. */
  function KeysFor(o: Options, list: seq<Assignment>): set<Key> {
    SourceKeys(list) + InboundKeys(o, list) +
    if o.internal.None? then {} else GuardKeys(o.internal.value, Guards(o, list))
  }

  lemma KeysOneMore(o: Options, list: seq<Assignment>, i: nat)
    requires i < |list|
    ensures SourceKeys(list[..i + 1]) == SourceKeys(list[..i]) + {KeyOf(SourceRule(list[i]))}
    ensures InboundKeys(o, list[..i + 1]) == InboundKeys(o, list[..i]) + {KeyOf(InboundRule(o, list[i]))}
  {
    assert list[..i + 1] == list[..i] + [list[i]];
  }

  method DesiredRules(o: Options, list: seq<Assignment>) returns (want: set<Key>)
    ensures want == KeysFor(o, list)
  {
    want := {};
    for i := 0 to |list|
      invariant want == SourceKeys(list[..i]) + InboundKeys(o, list[..i])
    {
      var a := list[i];
      KeysOneMore(o, list, i);
      want := want + {KeyOf(Snat(a.internal, a.uplink, a.external))};
      if AllowsInbound(o, a.uplink) {
        want := want + {KeyOf(Dnat(a.external, a.uplink, a.internal))};
        continue;
      }
      want := want + {KeyOf(DropIn(a.external, a.uplink))};
    }
    assert list[..|list|] == list;
    ghost var mapped := want;
    var guards := GuardUplinks(o, list);
    if o.internal.Some? {
      for i := 0 to |guards|
        invariant want == mapped + GuardKeys(o.internal.value, guards[..i])
      {
        assert guards[..i + 1] == guards[..i] + [guards[i]];
        want := want + {KeyOf(DropOut(o.internal.value, guards[i]))};
      }
      assert guards[..|guards|] == guards;
    }
  }

  /** A comment for every rule of a chain, each of at least one word. */
  predicate Commented(rules: seq<Rule>, comments: seq<Line>) {
    |comments| == |rules| && forall c :: c in comments ==> c != []
  }

  function RuleLines(rules: seq<Rule>, comments: seq<Line>): seq<Line>
    requires Commented(rules, comments)
  {
    seq(|rules|, i requires 0 <= i < |rules| => RuleLine(rules[i], comments[i]))
  }

  function ChainLines(name: string, head: Line, rules: seq<Rule>, comments: seq<Line>): seq<Line>
    requires Commented(rules, comments)
  {
    [[Word("chain"), Word(name), Word("{")], head] + RuleLines(rules, comments) + [[Word("}")], []]
  }

  datatype Comments = Comments(prerouting: seq<Line>, postrouting: seq<Line>, inbound: seq<Line>, guard: seq<Line>)
  {
    predicate For(t: Table) {
      && Commented(t.prerouting, prerouting) && Commented(t.postrouting, postrouting)
      && Commented(t.inbound, inbound) && Commented(t.guard, guard)
    }
  }

  const PREROUTING: Line := [Word("type"), Word("nat"), Word("hook"), Word("prerouting"), Word("priority"),
                             Word("dstnat;"), Word("policy"), Word("accept;")]
  const POSTROUTING: Line := [Word("type"), Word("nat"), Word("hook"), Word("postrouting"), Word("priority"),
                              Word("srcnat;"), Word("policy"), Word("accept;")]
  const INBOUND: Line := [Word("type"), Word("filter"), Word("hook"), Word("prerouting"), Word("priority"),
                          Word("dstnat"), Word("-"), Word("10;"), Word("policy"), Word("accept;")]
  const GUARD: Line := [Word("type"), Word("filter"), Word("hook"), Word("postrouting"), Word("priority"),
                        Word("srcnat"), Word("+"), Word("10;"), Word("policy"), Word("accept;")]

  function HeadLines(name: string): seq<Line> {
    [[Word("table"), Word("ip6"), Word(name), Word("{"), Word("}")],
     [Word("delete"), Word("table"), Word("ip6"), Word(name)],
     [Word("table"), Word("ip6"), Word(name), Word("{")]]
  }

  /** A filter chain is printed only when it has rules. */
  function FilterLines(name: string, head: Line, rules: seq<Rule>, comments: seq<Line>): seq<Line>
    requires Commented(rules, comments)
  {
    if rules == [] then [] else ChainLines(name, head, rules, comments)
  }

  /** The whole printed table. */
  function TableLines(name: string, t: Table, c: Comments): seq<Line>
    requires c.For(t)
  {
    HeadLines(name) +
    ChainLines("prerouting", PREROUTING, t.prerouting, c.prerouting) +
    ChainLines("postrouting", POSTROUTING, t.postrouting, c.postrouting) +
    FilterLines("inbound", INBOUND, t.inbound, c.inbound) +
    FilterLines("guard", GUARD, t.guard, c.guard) +
    [[Word("}")]]
  }

  // ----- agreement of printer and parser -------------------------------------------------------

  predicate NamesUplink(r: Rule) {
    match r
    case Snat(_, oif, _) => oif != ""
    case Dnat(_, iif, _) => iif != ""
    case DropIn(_, iif) => iif != ""
    case DropOut(_, oif) => oif != ""
  }

  lemma {:induction false} VerbAt(fields: Line, verbs: set<string>, i: nat)
    requires i < |fields| && fields[i].Word? && fields[i].text in verbs
    requires forall k :: 0 <= k < i ==> !(fields[k].Word? && fields[k].text in verbs)
    ensures VerbOf(fields, verbs) == Some(fields[i].text)
  {
    if i > 0 {
      VerbAt(fields[1..], verbs, i - 1);
    }
  }

  /** What the four field lookups of parseRules find in a printed rule. */
  ghost predicate Reads(fields: Line, match_: Token, iface: string, target: Option<Token>, verb: string, inward: bool) {
    && FirstOf(fields, Word("saddr"), Word("daddr")) == Some(match_)
    && FirstOf(fields, Word("iifname"), Word("oifname")) == Some(Quoted(iface))
    && FieldAfter(fields, Word("to")) == target
    && VerbOf(fields, VERBS) == Some(verb)
    && (FieldAfter(fields, Word("daddr")).Some? <==> inward)
  }

  lemma SourceOrDestination()
    ensures "saddr" != "daddr"
  {
    assert "saddr"[0] != "daddr"[0];
  }

  lemma InOrOut()
    ensures "iifname" != "oifname"
  {
    assert "iifname"[0] != "oifname"[0];
  }

  lemma SnatMatch(r: Rule)
    requires r.Snat?
    ensures FirstOf(RuleFields(r), Word("saddr"), Word("daddr")) == Some(Cidr(r.match_))
    ensures FieldAfter(RuleFields(r), Word("daddr")) == None
  {
    SourceOrDestination();
    FieldAt(RuleFields(r), Word("saddr"), 1);
    NoFieldAfter(RuleFields(r), Word("daddr"));
  }

  lemma SnatInterface(r: Rule)
    requires r.Snat?
    ensures FirstOf(RuleFields(r), Word("iifname"), Word("oifname")) == Some(Quoted(r.oif))
  {
    InOrOut();
    NoFieldAfter(RuleFields(r), Word("iifname"));
    FieldAt(RuleFields(r), Word("oifname"), 3);
  }

  lemma SnatTarget(r: Rule)
    requires r.Snat?
    ensures FieldAfter(RuleFields(r), Word("to")) == Some(Cidr(r.to))
  {
    FieldAt(RuleFields(r), Word("to"), 8);
  }

  lemma SnatVerb(r: Rule)
    requires r.Snat?
    ensures VerbOf(RuleFields(r), VERBS) == Some("snat")
  {
    VerbAt(RuleFields(r), VERBS, 5);
  }

  lemma SnatReads(r: Rule)
    requires r.Snat?
    ensures Reads(RuleFields(r), Cidr(r.match_), r.oif, Some(Cidr(r.to)), "snat", false)
  {
    SnatMatch(r);
    SnatInterface(r);
    SnatTarget(r);
    SnatVerb(r);
  }

  lemma DnatMatch(r: Rule)
    requires r.Dnat?
    ensures FirstOf(RuleFields(r), Word("saddr"), Word("daddr")) == FieldAfter(RuleFields(r), Word("daddr")) == Some(Cidr(r.match_))
  {
    SourceOrDestination();
    NoFieldAfter(RuleFields(r), Word("saddr"));
    FieldAt(RuleFields(r), Word("daddr"), 1);
  }

  lemma DnatInterface(r: Rule)
    requires r.Dnat?
    ensures FirstOf(RuleFields(r), Word("iifname"), Word("oifname")) == Some(Quoted(r.iif))
  {
    FieldAt(RuleFields(r), Word("iifname"), 3);
  }

  lemma DnatTarget(r: Rule)
    requires r.Dnat?
    ensures FieldAfter(RuleFields(r), Word("to")) == Some(Cidr(r.to))
  {
    FieldAt(RuleFields(r), Word("to"), 8);
  }

  lemma DnatVerb(r: Rule)
    requires r.Dnat?
    ensures VerbOf(RuleFields(r), VERBS) == Some("dnat")
  {
    VerbAt(RuleFields(r), VERBS, 5);
  }

  lemma DnatReads(r: Rule)
    requires r.Dnat?
    ensures Reads(RuleFields(r), Cidr(r.match_), r.iif, Some(Cidr(r.to)), "dnat", true)
  {
    DnatMatch(r);
    DnatInterface(r);
    DnatTarget(r);
    DnatVerb(r);
  }

  lemma DropInMatch(r: Rule)
    requires r.DropIn?
    ensures FirstOf(RuleFields(r), Word("saddr"), Word("daddr")) == FieldAfter(RuleFields(r), Word("daddr")) == Some(Cidr(r.match_))
  {
    SourceOrDestination();
    assert "state"[1] != "saddr"[1];
    NoFieldAfter(RuleFields(r), Word("saddr"));
    FieldAt(RuleFields(r), Word("daddr"), 1);
  }

  lemma DropInInterface(r: Rule)
    requires r.DropIn?
    ensures FirstOf(RuleFields(r), Word("iifname"), Word("oifname")) == Some(Quoted(r.iif))
  {
    FieldAt(RuleFields(r), Word("iifname"), 3);
  }

  lemma DropInVerb(r: Rule)
    requires r.DropIn?
    ensures VerbOf(RuleFields(r), VERBS) == Some("drop")
  {
    VerbAt(RuleFields(r), VERBS, 9);
  }

  lemma DropInTarget(r: Rule)
    requires r.DropIn?
    ensures FieldAfter(RuleFields(r), Word("to")) == None
  {
    assert "ct"[0] != "to"[0];
    NoFieldAfter(RuleFields(r), Word("to"));
  }

  lemma DropInReads(r: Rule)
    requires r.DropIn?
    ensures Reads(RuleFields(r), Cidr(r.match_), r.iif, None, "drop", true)
  {
    DropInMatch(r);
    DropInInterface(r);
    DropInTarget(r);
    DropInVerb(r);
  }

  lemma DropOutMatch(r: Rule)
    requires r.DropOut?
    ensures FirstOf(RuleFields(r), Word("saddr"), Word("daddr")) == Some(Cidr(r.match_))
    ensures FieldAfter(RuleFields(r), Word("daddr")) == None
  {
    SourceOrDestination();
    FieldAt(RuleFields(r), Word("saddr"), 1);
    NoFieldAfter(RuleFields(r), Word("daddr"));
  }

  lemma DropOutInterface(r: Rule)
    requires r.DropOut?
    ensures FirstOf(RuleFields(r), Word("iifname"), Word("oifname")) == Some(Quoted(r.oif))
  {
    InOrOut();
    NoFieldAfter(RuleFields(r), Word("iifname"));
    FieldAt(RuleFields(r), Word("oifname"), 3);
  }

  lemma DropOutActs(r: Rule)
    requires r.DropOut?
    ensures FieldAfter(RuleFields(r), Word("to")) == None
    ensures VerbOf(RuleFields(r), VERBS) == Some("drop")
  {
    NoFieldAfter(RuleFields(r), Word("to"));
    VerbAt(RuleFields(r), VERBS, 5);
  }

  lemma DropOutReads(r: Rule)
    requires r.DropOut?
    ensures Reads(RuleFields(r), Cidr(r.match_), r.oif, None, "drop", false)
  {
    DropOutMatch(r);
    DropOutInterface(r);
    DropOutActs(r);
  }

  /** A printed rule reads back as its key, whatever the comment says. */
  lemma RuleReadsBack(r: Rule, comment: Line)
    requires NamesUplink(r) && comment != []
    ensures ParseLine(RuleLine(r, comment)) == Some(KeyOf(r))
  {
    CutAtComment(RuleFields(r), comment);
    match r {
      case Snat(_, _, _) => SnatReads(r);
      case Dnat(_, _, _) => DnatReads(r);
      case DropIn(_, _) => DropInReads(r);
      case DropOut(_, _) => DropOutReads(r);
    }
  }

  lemma {:induction false} CutKeeps(line: Line, t: Token)
    requires t !in line
    ensures t !in CutComment(line)
  {
    if |line| >= 2 {
      CutKeeps(line[1..], t);
    }
  }

  /** A line that lacks an address selector, or lacks an interface selector, is no rule. */
  lemma OtherLinesAreIgnored(line: Line)
    requires (Word("saddr") !in line && Word("daddr") !in line) || (Word("iifname") !in line && Word("oifname") !in line)
    ensures ParseLine(line) == None
  {
    var fields := CutComment(line);
    if Word("saddr") !in line && Word("daddr") !in line {
      CutKeeps(line, Word("saddr"));
      CutKeeps(line, Word("daddr"));
      NoFieldAfter(fields, Word("saddr"));
      NoFieldAfter(fields, Word("daddr"));
    } else {
      CutKeeps(line, Word("iifname"));
      CutKeeps(line, Word("oifname"));
      NoFieldAfter(fields, Word("iifname"));
      NoFieldAfter(fields, Word("oifname"));
    }
  }

  function RuleKeys(rules: seq<Rule>): set<Key> {
    set r | r in rules :: KeyOf(r)
  }

  lemma KeysOfConcat(a: seq<Line>, b: seq<Line>)
    ensures KeysIn(a + b) == KeysIn(a) + KeysIn(b)
  {
  }

  lemma RulesReadBack(rules: seq<Rule>, comments: seq<Line>)
    requires Commented(rules, comments) && forall r :: r in rules ==> NamesUplink(r)
    ensures KeysIn(RuleLines(rules, comments)) == RuleKeys(rules)
  {
    var body := RuleLines(rules, comments);
    forall i | 0 <= i < |rules|
      ensures ParseLine(body[i]) == Some(KeyOf(rules[i]))
    {
      assert rules[i] in rules && comments[i] in comments;
      RuleReadsBack(rules[i], comments[i]);
    }
    forall k
      ensures k in KeysIn(body) <==> k in RuleKeys(rules)
    {
      if k in KeysIn(body) {
        var l :| l in body && ParseLine(l) == Some(k);
        var i :| 0 <= i < |body| && body[i] == l;
        assert rules[i] in rules;
      }
      if k in RuleKeys(rules) {
        var r :| r in rules && KeyOf(r) == k;
        var i :| 0 <= i < |rules| && rules[i] == r;
        assert body[i] in body;
      }
    }
  }

  lemma NothingToRead(lines: seq<Line>)
    requires forall l :: l in lines ==>
               || (Word("saddr") !in l && Word("daddr") !in l)
               || (Word("iifname") !in l && Word("oifname") !in l)
    ensures KeysIn(lines) == {}
  {
    forall l | l in lines
      ensures ParseLine(l) == None
    {
      OtherLinesAreIgnored(l);
    }
  }

  lemma KeysOfParts(a: seq<Line>, b: seq<Line>, c: seq<Line>, d: seq<Line>, e: seq<Line>, f: seq<Line>)
    ensures KeysIn(a + b + c + d + e + f) == KeysIn(a) + KeysIn(b) + KeysIn(c) + KeysIn(d) + KeysIn(e) + KeysIn(f)
  {
    KeysOfConcat(a, b);
    KeysOfConcat(a + b, c);
    KeysOfConcat(a + b + c, d);
    KeysOfConcat(a + b + c + d, e);
    KeysOfConcat(a + b + c + d + e, f);
  }

  lemma ChainReadsBack(name: string, head: Line, rules: seq<Rule>, comments: seq<Line>)
    requires Commented(rules, comments) && forall r :: r in rules ==> NamesUplink(r)
    requires Word("saddr") !in head && Word("daddr") !in head
    requires name != "saddr" && name != "daddr"
    ensures KeysIn(ChainLines(name, head, rules, comments)) == RuleKeys(rules)
  {
    var open := [[Word("chain"), Word(name), Word("{")], head];
    var close: seq<Line> := [[Word("}")], []];
    NothingToRead(open);
    NothingToRead(close);
    RulesReadBack(rules, comments);
    KeysOfConcat(open, RuleLines(rules, comments));
    KeysOfConcat(open + RuleLines(rules, comments), close);
  }

  lemma FilterReadsBack(name: string, head: Line, rules: seq<Rule>, comments: seq<Line>)
    requires Commented(rules, comments) && forall r :: r in rules ==> NamesUplink(r)
    requires Word("saddr") !in head && Word("daddr") !in head
    requires name != "saddr" && name != "daddr"
    ensures KeysIn(FilterLines(name, head, rules, comments)) == RuleKeys(rules)
  {
    if rules == [] {
      assert FilterLines(name, head, rules, comments) == [];
    } else {
      ChainReadsBack(name, head, rules, comments);
    }
  }

  predicate AllNamed(t: Table) {
    && (forall r :: r in t.prerouting ==> NamesUplink(r))
    && (forall r :: r in t.postrouting ==> NamesUplink(r))
    && (forall r :: r in t.inbound ==> NamesUplink(r))
    && (forall r :: r in t.guard ==> NamesUplink(r))
  }

  lemma HeadIsIgnored(name: string)
    ensures KeysIn(HeadLines(name)) == {}
    ensures KeysIn([[Word("}")]]) == {}
  {
    NothingToRead(HeadLines(name));
    NothingToRead([[Word("}")]]);
  }

  /** Reading the printed table gives the keys of its rules, for any table name, even one
      that is itself a keyword, and for any comments. */
  lemma TableReadsBack(name: string, t: Table, c: Comments)
    requires c.For(t) && AllNamed(t)
    ensures KeysIn(TableLines(name, t, c)) ==
            RuleKeys(t.prerouting) + RuleKeys(t.postrouting) + RuleKeys(t.inbound) + RuleKeys(t.guard)
  {
    var l0 := HeadLines(name);
    var l1 := ChainLines("prerouting", PREROUTING, t.prerouting, c.prerouting);
    var l2 := ChainLines("postrouting", POSTROUTING, t.postrouting, c.postrouting);
    var l3 := FilterLines("inbound", INBOUND, t.inbound, c.inbound);
    var l4 := FilterLines("guard", GUARD, t.guard, c.guard);
    HeadIsIgnored(name);
    ChainReadsBack("prerouting", PREROUTING, t.prerouting, c.prerouting);
    ChainReadsBack("postrouting", POSTROUTING, t.postrouting, c.postrouting);
    FilterReadsBack("inbound", INBOUND, t.inbound, c.inbound);
    FilterReadsBack("guard", GUARD, t.guard, c.guard);
    KeysOfParts(l0, l1, l2, l3, l4, [[Word("}")]]);
  }

  // ----- drift -----------------------------------------------------------------------------------

  /** What listing the table gave: None when there is no such table. */
  type Listing = Option<seq<Line>>

  predicate NeedsRestore(want: set<Key>, installed: Option<set<Key>>) {
    match installed
    case None => want != {}
    case Some(got) => want != got
  }

  function ReadTable(listing: Listing): Option<set<Key>> {
    match listing
    case None => None
    case Some(lines) => Some(KeysIn(lines))
  }

  /** What Actions leaves behind: the written table, or none when there is nothing to write. */
  function Applied(name: string, table: Option<Table>, c: Comments): Listing
    requires table.Some? ==> c.For(table.value)
  {
    match table
    case None => None
    case Some(t) => Some(TableLines(name, t, c))
  }

  /** Uplinks have names; Resolve takes them from the keys of the configuration. */
  predicate Named(o: Options, list: seq<Assignment>) {
    && (forall u :: u in o.uplinks ==> u.name != "")
    && forall a :: a in list ==> a.uplink != ""
  }

  lemma {:induction false} GuardsAreUplinks(uplinks: seq<Uplink>, list: seq<Assignment>, u: string)
    ensures u in GuardsAmong(uplinks, list) <==>
            !Translates(list, u) && exists i :: 0 <= i < |uplinks| && uplinks[i].name == u
  {
    if uplinks != [] {
      var n := |uplinks| - 1;
      GuardsAreUplinks(uplinks[..n], list, u);
      if i :| 0 <= i < |uplinks| && uplinks[i].name == u {
        assert i < n ==> uplinks[..n][i].name == u;
      }
    }
  }

  lemma {:induction false} InboundMembers(o: Options, list: seq<Assignment>, open: bool, r: Rule)
    ensures r in InboundRules(o, list, open) <==>
            exists a :: a in list && AllowsInbound(o, a.uplink) == open && r == InboundRule(o, a)
  {
    if list != [] {
      var n := |list| - 1;
      InboundMembers(o, list[..n], open, r);
      assert list == list[..n] + [list[n]];
    }
  }

  lemma InboundRuleKeys(o: Options, list: seq<Assignment>)
    ensures RuleKeys(InboundRules(o, list, true)) + RuleKeys(InboundRules(o, list, false)) == InboundKeys(o, list)
  {
    forall open, r
      ensures r in InboundRules(o, list, open) <==>
              exists a :: a in list && AllowsInbound(o, a.uplink) == open && r == InboundRule(o, a)
    {
      InboundMembers(o, list, open, r);
    }
    forall a | a in list
      ensures InboundRule(o, a) in InboundRules(o, list, AllowsInbound(o, a.uplink))
    {
    }
  }

  lemma TableKeys(o: Options, list: seq<Assignment>)
    requires TableFor(o, list).Some?
    ensures var t := TableFor(o, list).value;
            RuleKeys(t.prerouting) + RuleKeys(t.postrouting) + RuleKeys(t.inbound) + RuleKeys(t.guard) == KeysFor(o, list)
  {
    InboundRuleKeys(o, list);
    assert RuleKeys(SourceRules(list)) == SourceKeys(list) by {
      forall i | 0 <= i < |list| ensures SourceRules(list)[i] in SourceRules(list) && list[i] in list {}
    }
    if o.internal.Some? {
      var guards := Guards(o, list);
      assert RuleKeys(GuardRules(o.internal.value, guards)) == GuardKeys(o.internal.value, guards) by {
        forall i | 0 <= i < |guards|
          ensures GuardRules(o.internal.value, guards)[i] in GuardRules(o.internal.value, guards) && guards[i] in guards
        {}
      }
    }
  }

  lemma TableIsNamed(o: Options, list: seq<Assignment>)
    requires Named(o, list) && TableFor(o, list).Some?
    ensures AllNamed(TableFor(o, list).value)
  {
    var t := TableFor(o, list).value;
    forall r | r in t.prerouting || r in t.inbound
      ensures NamesUplink(r)
    {
      InboundMembers(o, list, true, r);
      InboundMembers(o, list, false, r);
    }
    forall i | 0 <= i < |list|
      ensures NamesUplink(SourceRule(list[i]))
    {
      assert list[i] in list;
    }
    forall r | r in t.guard
      ensures NamesUplink(r)
    {
      GuardsAreUplinks(o.uplinks, list, r.oif);
      var i :| 0 <= i < |o.uplinks| && o.uplinks[i].name == r.oif;
      assert o.uplinks[i] in o.uplinks;
    }
  }

  /** A freshly applied table is never judged drifted: for every list of assignments, inbound
      setting, guard and comment, what is read back is exactly what is wanted. */
  lemma FreshTableIsInSync(o: Options, list: seq<Assignment>, c: Comments)
    requires Named(o, list) && (TableFor(o, list).Some? ==> c.For(TableFor(o, list).value))
    ensures !NeedsRestore(KeysFor(o, list), ReadTable(Applied(o.table, TableFor(o, list), c)))
    ensures TableFor(o, list).Some? ==>
              KeysIn(TableLines(o.table, TableFor(o, list).value, c)) == KeysFor(o, list)
  {
    if TableFor(o, list).Some? {
      TableIsNamed(o, list);
      TableReadsBack(o.table, TableFor(o, list).value, c);
      TableKeys(o, list);
    } else {
      assert SourceKeys(list) == {} && InboundKeys(o, list) == {};
    }
  }

  /** A key tells its rule. */
  lemma KeysTellRules(r: Rule, s: Rule)
    ensures KeyOf(r) == KeyOf(s) <==> r == s
  {
  }

  function RulesIn(t: Table): set<Rule> {
    Range(t.prerouting) + Range(t.postrouting) + Range(t.inbound) + Range(t.guard)
  }

  lemma RuleKeysTell(a: Table, b: Table)
    ensures RuleKeys(a.prerouting) + RuleKeys(a.postrouting) + RuleKeys(a.inbound) + RuleKeys(a.guard) ==
            RuleKeys(b.prerouting) + RuleKeys(b.postrouting) + RuleKeys(b.inbound) + RuleKeys(b.guard)
            <==> RulesIn(a) == RulesIn(b)
  {
    forall r, s
      ensures KeyOf(r) == KeyOf(s) <==> r == s
    {
      KeysTellRules(r, s);
    }
    KeysOfRules(a);
    KeysOfRules(b);
    var x, y := (set r | r in RulesIn(a) :: KeyOf(r)), (set r | r in RulesIn(b) :: KeyOf(r));
    if x == y {
      forall r
        ensures r in RulesIn(a) <==> r in RulesIn(b)
      {
        assert KeyOf(r) in x <==> KeyOf(r) in y;
      }
    }
  }

  lemma KeysOfRules(t: Table)
    ensures RuleKeys(t.prerouting) + RuleKeys(t.postrouting) + RuleKeys(t.inbound) + RuleKeys(t.guard) ==
            set r | r in RulesIn(t) :: KeyOf(r)
  {
    forall r
      ensures r in RulesIn(t) <==> r in t.prerouting || r in t.postrouting || r in t.inbound || r in t.guard
    {
    }
  }

  /** Exactly when a table that is there is judged drifted: when it does not hold the wanted rules,
      whatever it holds. A missing table is drifted exactly when one is wanted. */
  lemma DriftIsSeen(o: Options, list: seq<Assignment>, u: Table, c: Comments)
    requires Named(o, list) && AllNamed(u) && c.For(u) && TableFor(o, list).Some?
    ensures NeedsRestore(KeysFor(o, list), ReadTable(Some(TableLines(o.table, u, c)))) <==> RulesIn(u) != RulesIn(TableFor(o, list).value)
    ensures NeedsRestore(KeysFor(o, list), ReadTable(None))
  {
    TableReadsBack(o.table, u, c);
    TableKeys(o, list);
    RuleKeysTell(u, TableFor(o, list).value);
    SomethingIsWanted(o, list);
  }

  lemma SomethingIsWanted(o: Options, list: seq<Assignment>)
    requires TableFor(o, list).Some?
    ensures KeysFor(o, list) != {}
  {
    if list != [] {
      assert KeyOf(SourceRule(list[0])) in SourceKeys(list);
    } else {
      assert KeyOf(DropOut(o.internal.value, Guards(o, list)[0])) in GuardKeys(o.internal.value, Guards(o, list));
    }
  }

  function Spelled(words: seq<string>): Line {
    seq(|words|, i requires 0 <= i < |words| => Word(words[i]))
  }

  /** The rules as they are printed: rewriting by prefix; on a closed uplink only new connections are
      dropped. */
  lemma PrintedRules(m: Block, u: string, to: Block)
    ensures RuleFields(Snat(m, u, to)) ==
            Spelled(["ip6", "saddr"]) + [Cidr(m), Word("oifname"), Quoted(u)] + Spelled(["snat", "ip6", "prefix", "to"]) + [Cidr(to)]
    ensures RuleFields(Dnat(m, u, to)) ==
            Spelled(["ip6", "daddr"]) + [Cidr(m), Word("iifname"), Quoted(u)] + Spelled(["dnat", "ip6", "prefix", "to"]) + [Cidr(to)]
    ensures RuleFields(DropIn(m, u)) ==
            Spelled(["ip6", "daddr"]) + [Cidr(m), Word("iifname"), Quoted(u)] + Spelled(["ct", "state", "new", "counter", "drop"])
    ensures RuleFields(DropOut(m, u)) ==
            Spelled(["ip6", "saddr"]) + [Cidr(m), Word("oifname"), Quoted(u)] + Spelled(["drop"])
  {
  }

  /** The chains as they are hooked: translation at the usual priorities, the filter for new
      connections ahead of it on the way in, the guard behind it on the way out. */
  lemma HookedChains()
    ensures PREROUTING == Spelled(["type", "nat", "hook", "prerouting", "priority", "dstnat;", "policy", "accept;"])
    ensures POSTROUTING == Spelled(["type", "nat", "hook", "postrouting", "priority", "srcnat;", "policy", "accept;"])
    ensures INBOUND == Spelled(["type", "filter", "hook", "prerouting", "priority", "dstnat", "-", "10;", "policy", "accept;"])
    ensures GUARD == Spelled(["type", "filter", "hook", "postrouting", "priority", "srcnat", "+", "10;", "policy", "accept;"])
  {
  }

  function Chain(name: string, head: Line, rules: seq<Rule>, comments: seq<Line>): seq<Line>
    requires Commented(rules, comments)
  {
    [Spelled(["chain", name, "{"]), head]
    + seq(|rules|, i requires 0 <= i < |rules| => RuleFields(rules[i]) + [Word("comment")] + comments[i])
    + [Spelled(["}"]), []]
  }

  /** The table as it is written: any table of the name is replaced, in one transaction; the two
      translating chains are always there, the filters only with rules. */
  lemma TableLayout(name: string, t: Table, c: Comments)
    requires c.For(t)
    ensures TableLines(name, t, c) ==
            [Spelled(["table", "ip6", name, "{", "}"]), Spelled(["delete", "table", "ip6", name]), Spelled(["table", "ip6", name, "{"])]
            + Chain("prerouting", Spelled(["type", "nat", "hook", "prerouting", "priority", "dstnat;", "policy", "accept;"]), t.prerouting, c.prerouting)
            + Chain("postrouting", Spelled(["type", "nat", "hook", "postrouting", "priority", "srcnat;", "policy", "accept;"]), t.postrouting, c.postrouting)
            + (if t.inbound == [] then [] else
                 Chain("inbound", Spelled(["type", "filter", "hook", "prerouting", "priority", "dstnat", "-", "10;", "policy", "accept;"]), t.inbound, c.inbound))
            + (if t.guard == [] then [] else
                 Chain("guard", Spelled(["type", "filter", "hook", "postrouting", "priority", "srcnat", "+", "10;", "policy", "accept;"]), t.guard, c.guard))
            + [Spelled(["}"])]
  {
    HookedChains();
    HeadSpelled(name);
    var end: Line := [Word("}")];
    assert end == Spelled(["}"]);
    ChainSpelled("prerouting", PREROUTING, t.prerouting, c.prerouting);
    ChainSpelled("postrouting", POSTROUTING, t.postrouting, c.postrouting);
    ChainSpelled("inbound", INBOUND, t.inbound, c.inbound);
    ChainSpelled("guard", GUARD, t.guard, c.guard);
  }

  lemma HeadSpelled(name: string)
    ensures HeadLines(name) ==
            [Spelled(["table", "ip6", name, "{", "}"]), Spelled(["delete", "table", "ip6", name]), Spelled(["table", "ip6", name, "{"])]
  {
    var lines := HeadLines(name);
    assert lines[0] == Spelled(["table", "ip6", name, "{", "}"]);
    assert lines[1] == Spelled(["delete", "table", "ip6", name]);
    assert lines[2] == Spelled(["table", "ip6", name, "{"]);
  }

  lemma ChainSpelled(name: string, head: Line, rules: seq<Rule>, comments: seq<Line>)
    requires Commented(rules, comments)
    ensures ChainLines(name, head, rules, comments) == Chain(name, head, rules, comments)
  {
    var lines := seq(|rules|, i requires 0 <= i < |rules| => RuleFields(rules[i]) + [Word("comment")] + comments[i]);
    assert RuleLines(rules, comments) == lines;
    var first: Line := [Word("chain"), Word(name), Word("{")];
    var last: Line := [Word("}")];
    assert first == Spelled(["chain", name, "{"]) && last == Spelled(["}"]);
  }
}
