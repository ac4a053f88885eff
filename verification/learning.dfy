/** The table that learns which internal hosts use an uplink: printing and reading it back. */
module Learning {
  import opened Common
  import opened Assign
  import opened Tokens

  datatype LearnRule = LearnRule(internal: Block, uplink: string)

  datatype LearnKey = LearnKey(internal: Token, uplink: Token)

  function KeyOf(r: LearnRule): LearnKey {
    LearnKey(Cidr(r.internal), Word(r.uplink))
  }

  function RuleFields(r: LearnRule, timeout: string): Line {
    [Word("ip6"), Word("saddr"), Cidr(r.internal), Word("oifname"), Quoted(r.uplink), Word("update"), Word("@learned"),
     Word("{"), Word("ip6"), Word("saddr"), Word("."), Word("meta"), Word("oifname"), Word("timeout"), Word(timeout), Word("}")]
  }

  function RuleLine(r: LearnRule, timeout: string): Line {
    RuleFields(r, timeout) + [Word("comment"), Quoted("rb-ndp " + r.uplink)]
  }

  /** The line adds to the set. */
  predicate Updates(line: Line) {
    exists i :: 0 <= i < |line| - 1 && line[i] == Word("update") && line[i + 1] == Word("@learned")
  }

  function ParseLine(line: Line): Option<LearnKey> {
    if !Updates(line) then None
    else
      var fields := CutComment(line);
      var internal := FieldAfter(fields, Word("saddr"));
      var uplink := Unquoted(FieldAfter(fields, Word("oifname")));
      if internal.None? || uplink.None? then None else Some(LearnKey(internal.value, uplink.value))
  }

  function KeysIn(lines: seq<Line>): set<LearnKey> {
    set l | l in lines && ParseLine(l).Some? :: ParseLine(l).value
  }

  method ParseLearnRules(lines: seq<Line>) returns (got: set<LearnKey>)
    ensures got == KeysIn(lines)
  {
    got := {};
    for i := 0 to |lines|
      invariant got == KeysIn(lines[..i])
    {
      assert lines[..i + 1] == lines[..i] + [lines[i]];
      var k := ParseLine(lines[i]);
      if k.Some? {
        got := got + {k.value};
      }
    }
    assert lines[..|lines|] == lines;
  }

  function RuleKeys(rules: seq<LearnRule>): set<LearnKey> {
    set r | r in rules :: KeyOf(r)
  }

  function RuleLines(rules: seq<LearnRule>, timeout: string): seq<Line> {
    seq(|rules|, i requires 0 <= i < |rules| => RuleLine(rules[i], timeout))
  }

  /** The whole table; elements are what the set has learned so far. */
  function TableLines(name: string, rules: seq<LearnRule>, timeout: string, size: string, elements: seq<Line>): seq<Line> {
    [[Word("table"), Word("ip6"), Word(name), Word("{")],
     [Word("set"), Word("learned"), Word("{")],
     [Word("type"), Word("ipv6_addr"), Word("."), Word("ifname")],
     [Word("size"), Word(size)],
     [Word("flags"), Word("dynamic,timeout")],
     [Word("timeout"), Word(timeout)]] +
    elements +
    [[Word("}")], [],
     [Word("chain"), Word("learn"), Word("{")],
     [Word("type"), Word("filter"), Word("hook"), Word("forward"), Word("priority"), Word("filter;"), Word("policy"), Word("accept;")]] +
    RuleLines(rules, timeout) +
    [[Word("}")], [Word("}")]]
  }

  predicate NeedsRestore(want: set<LearnKey>, installed: Option<set<LearnKey>>) {
    want != {} && installed != Some(want)
  }

  // ----- agreement ------------------------------------------------------------------------------

  lemma RuleReadsBack(r: LearnRule, timeout: string)
    requires r.uplink != "" && timeout != "comment"
    ensures ParseLine(RuleLine(r, timeout)) == Some(KeyOf(r))
  {
    RuleIsCut(r, timeout);
    RuleSelects(r, timeout);
    RuleUpdates(r, timeout);
  }

  lemma RuleIsCut(r: LearnRule, timeout: string)
    requires timeout != "comment"
    ensures CutComment(RuleLine(r, timeout)) == RuleFields(r, timeout)
  {
    var comment := [Quoted("rb-ndp " + r.uplink)];
    CutAtComment(RuleFields(r, timeout), comment);
    assert RuleLine(r, timeout) == RuleFields(r, timeout) + [Word("comment")] + comment;
  }

  lemma RuleUpdates(r: LearnRule, timeout: string)
    ensures Updates(RuleLine(r, timeout))
  {
    var line := RuleLine(r, timeout);
    assert line[5] == Word("update") && line[6] == Word("@learned");
  }

  lemma RuleSelects(r: LearnRule, timeout: string)
    ensures FieldAfter(RuleFields(r, timeout), Word("saddr")) == Some(Cidr(r.internal))
    ensures FieldAfter(RuleFields(r, timeout), Word("oifname")) == Some(Quoted(r.uplink))
  {
    FieldAt(RuleFields(r, timeout), Word("saddr"), 1);
    FieldAt(RuleFields(r, timeout), Word("oifname"), 3);
  }

  predicate NoUpdate(lines: seq<Line>) {
    forall l :: l in lines ==> Word("update") !in l
  }

  lemma NothingToRead(lines: seq<Line>)
    requires NoUpdate(lines)
    ensures KeysIn(lines) == {}
  {
  }

  lemma KeysOfConcat(a: seq<Line>, b: seq<Line>)
    ensures KeysIn(a + b) == KeysIn(a) + KeysIn(b)
  {
  }

  lemma RulesReadBack(rules: seq<LearnRule>, timeout: string)
    requires timeout != "comment" && forall r :: r in rules ==> r.uplink != ""
    ensures KeysIn(RuleLines(rules, timeout)) == RuleKeys(rules)
  {
    var body := RuleLines(rules, timeout);
    forall i | 0 <= i < |rules|
      ensures ParseLine(body[i]) == Some(KeyOf(rules[i])) && body[i] in body && rules[i] in rules
    {
      RuleReadsBack(rules[i], timeout);
    }
    forall k | k in KeysIn(body)
      ensures k in RuleKeys(rules)
    {
      var l :| l in body && ParseLine(l) == Some(k);
      var i :| 0 <= i < |body| && body[i] == l;
    }
    forall k | k in RuleKeys(rules)
      ensures k in KeysIn(body)
    {
      var r :| r in rules && KeyOf(r) == k;
      var i :| 0 <= i < |rules| && rules[i] == r;
    }
  }

  /** The printed table reads back as its rules, whatever the set has learned. */
  lemma TableReadsBack(name: string, rules: seq<LearnRule>, timeout: string, size: string, elements: seq<Line>)
    requires name != "update" && timeout != "comment" && timeout != "update" && size != "update" && NoUpdate(elements)
    requires forall r :: r in rules ==> r.uplink != ""
    ensures KeysIn(TableLines(name, rules, timeout, size, elements)) == RuleKeys(rules)
  {
    var all := TableLines(name, rules, timeout, size, elements);
    var head, middle := all[..6], all[6 + |elements|..10 + |elements|];
    var body := RuleLines(rules, timeout);
    assert all == head + elements + middle + body + [[Word("}")], [Word("}")]];
    assert NoUpdate(head) && NoUpdate(middle);
    NothingToRead(head);
    NothingToRead(elements);
    NothingToRead(middle);
    NothingToRead([[Word("}")], [Word("}")]]);
    RulesReadBack(rules, timeout);
    KeysOfConcat(head, elements);
    KeysOfConcat(head + elements, middle);
    KeysOfConcat(head + elements + middle, body);
    KeysOfConcat(head + elements + middle + body, [[Word("}")], [Word("}")]]);
  }

  /** Exactly when a learning table that is there is judged drifted: when its rules are not the
      wanted ones. */
  lemma DriftIsSeen(want: seq<LearnRule>, name: string, rules: seq<LearnRule>, timeout: string, size: string, elements: seq<Line>)
    requires name != "update" && timeout != "comment" && timeout != "update" && size != "update" && NoUpdate(elements)
    requires (forall r :: r in rules ==> r.uplink != "") && want != []
    ensures NeedsRestore(RuleKeys(want), Some(KeysIn(TableLines(name, rules, timeout, size, elements)))) <==> Range(want) != Range(rules)
    ensures NeedsRestore(RuleKeys(want), None)
  {
    TableReadsBack(name, rules, timeout, size, elements);
    assert KeyOf(want[0]) in RuleKeys(want);
    if RuleKeys(want) == RuleKeys(rules) {
      forall r
        ensures r in Range(want) <==> r in Range(rules)
      {
        assert r in want ==> KeyOf(r) in RuleKeys(want);
        assert r in rules ==> KeyOf(r) in RuleKeys(rules);
      }
    } else {
      if Range(want) == Range(rules) {
        assert forall r :: r in want <==> r in Range(want);
        assert forall r :: r in rules <==> r in Range(rules);
      }
    }
  }

  function Spelled(words: seq<string>): Line {
    seq(|words|, i requires 0 <= i < |words| => Word(words[i]))
  }

  /** A rule as it is printed: the source address and the link of every packet forwarded from the
      prefix over the uplink are put into the set, for as long as configured. */
  lemma PrintedRule(r: LearnRule, timeout: string)
    ensures RuleLine(r, timeout) ==
            Spelled(["ip6", "saddr"]) + [Cidr(r.internal), Word("oifname"), Quoted(r.uplink)]
            + Spelled(["update", "@learned", "{", "ip6", "saddr", ".", "meta", "oifname", "timeout", timeout, "}"])
            + [Word("comment"), Quoted("rb-ndp " + r.uplink)]
  {
  }

  /** The table as it is written: the set, then one chain that forwarded packets pass. */
  lemma TableLayout(name: string, rules: seq<LearnRule>, timeout: string, size: string, elements: seq<Line>)
    ensures TableLines(name, rules, timeout, size, elements) ==
            [Spelled(["table", "ip6", name, "{"]), Spelled(["set", "learned", "{"]), Spelled(["type", "ipv6_addr", ".", "ifname"]),
             Spelled(["size", size]), Spelled(["flags", "dynamic,timeout"]), Spelled(["timeout", timeout])]
            + elements
            + [Spelled(["}"]), [], Spelled(["chain", "learn", "{"]),
               Spelled(["type", "filter", "hook", "forward", "priority", "filter;", "policy", "accept;"])]
            + seq(|rules|, i requires 0 <= i < |rules| => RuleLine(rules[i], timeout))
            + [Spelled(["}"]), Spelled(["}"])]
  {
    assert RuleLines(rules, timeout) == seq(|rules|, i requires 0 <= i < |rules| => RuleLine(rules[i], timeout));
    HeadSpelled(name, timeout, size);
    var end: Line := [Word("}")];
    var chain: Line := [Word("chain"), Word("learn"), Word("{")];
    var hook: Line :=
      [Word("type"), Word("filter"), Word("hook"), Word("forward"), Word("priority"), Word("filter;"), Word("policy"), Word("accept;")];
    assert end == Spelled(["}"]) && chain == Spelled(["chain", "learn", "{"]);
    assert hook == Spelled(["type", "filter", "hook", "forward", "priority", "filter;", "policy", "accept;"]);
  }

  lemma HeadSpelled(name: string, timeout: string, size: string)
    ensures var head: seq<Line> :=
              [[Word("table"), Word("ip6"), Word(name), Word("{")],
               [Word("set"), Word("learned"), Word("{")],
               [Word("type"), Word("ipv6_addr"), Word("."), Word("ifname")],
               [Word("size"), Word(size)],
               [Word("flags"), Word("dynamic,timeout")],
               [Word("timeout"), Word(timeout)]];
            head == [Spelled(["table", "ip6", name, "{"]), Spelled(["set", "learned", "{"]), Spelled(["type", "ipv6_addr", ".", "ifname"]),
                     Spelled(["size", size]), Spelled(["flags", "dynamic,timeout"]), Spelled(["timeout", timeout])]
  {
    var l0: Line := [Word("table"), Word("ip6"), Word(name), Word("{")];
    var l1: Line := [Word("set"), Word("learned"), Word("{")];
    var l2: Line := [Word("type"), Word("ipv6_addr"), Word("."), Word("ifname")];
    var l3: Line := [Word("size"), Word(size)];
    var l4: Line := [Word("flags"), Word("dynamic,timeout")];
    var l5: Line := [Word("timeout"), Word(timeout)];
    assert l0 == Spelled(["table", "ip6", name, "{"]);
    assert l1 == Spelled(["set", "learned", "{"]);
    assert l2 == Spelled(["type", "ipv6_addr", ".", "ifname"]);
    assert l3 == Spelled(["size", size]);
    assert l4 == Spelled(["flags", "dynamic,timeout"]);
    assert l5 == Spelled(["timeout", timeout]);
  }
}
