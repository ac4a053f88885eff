/** Port rules as mark rules: what is wanted, how each backend prints it and reads it back. */
module Firewall {
  import opened Common
  import opened Tokens
  import opened Numbers

  datatype PortRule = PortRule(gateway: string, ports: seq<nat>, proto: string)

  datatype Mapped = Mapped(uplink: string, prefix: string)

  datatype MarkRule = MarkRule(proto: string, ports: string, mark: int, saddr: string)

  /** IPv4 rules have no source; IPv6 rules get one per subnet their gateway maps. */
  datatype Family = V4 | V6(mapped: seq<Mapped>)

  /** One-based position among the sorted gateways; 0 is no mark. */
  function Mark(gateways: seq<string>, name: string): nat {
    if name in gateways then IndexOf(gateways, name) + 1 else 0
  }

  lemma MarksAreUnique(gateways: seq<string>, a: string, b: string)
    requires Mark(gateways, a) != 0
    ensures Mark(gateways, a) == Mark(gateways, b) <==> a == b
  {
  }

  function ProtocolsFor(proto: string): seq<string> {
    if proto == "tcp" then ["tcp"] else if proto == "udp" then ["udp"] else ["tcp", "udp"]
  }

  /** Decimal, joined by commas. */
  function PortText(ports: seq<nat>): string {
    if ports == [] then ""
    else if |ports| == 1 then Itoa(ports[0])
    else Itoa(ports[0]) + "," + PortText(ports[1..])
  }

  function Prefixes(mapped: seq<Mapped>, gateway: string): seq<string> {
    if mapped == [] then []
    else
      var n := |mapped| - 1;
      Prefixes(mapped[..n], gateway) + if mapped[n].uplink == gateway then [mapped[n].prefix] else []
  }

  function Sources(family: Family, gateway: string): seq<string> {
    if family.V4? then [""] else Prefixes(family.mapped, gateway)
  }

  function PerProtocol(protos: seq<string>, ports: string, mark: nat, saddr: string): seq<MarkRule> {
    seq(|protos|, i requires 0 <= i < |protos| => MarkRule(protos[i], ports, mark, saddr))
  }

  function PerSource(sources: seq<string>, protos: seq<string>, ports: string, mark: nat): seq<MarkRule> {
    if sources == [] then []
    else
      var n := |sources| - 1;
      PerSource(sources[..n], protos, ports, mark) + PerProtocol(protos, ports, mark, sources[n])
  }

  function RulesOf(gateways: seq<string>, family: Family, rule: PortRule): seq<MarkRule> {
    var mark := Mark(gateways, rule.gateway);
    if mark == 0 || rule.ports == [] then []
    else PerSource(Sources(family, rule.gateway), ProtocolsFor(rule.proto), PortText(rule.ports), mark)
  }

  function MarkRules(gateways: seq<string>, family: Family, rules: seq<PortRule>): seq<MarkRule> {
    if rules == [] then []
    else
      var n := |rules| - 1;
      MarkRules(gateways, family, rules[..n]) + RulesOf(gateways, family, rules[n])
  }

  method SourcesOf(family: Family, gateway: string) returns (out: seq<string>)
    ensures out == Sources(family, gateway)
  {
    if family.V4? {
      return [""];
    }
    out := [];
    var mapped := family.mapped;
    for i := 0 to |mapped|
      invariant out == Prefixes(mapped[..i], gateway)
    {
      assert mapped[..i + 1][..i] == mapped[..i];
      if mapped[i].uplink == gateway {
        out := out + [mapped[i].prefix];
      }
    }
    assert mapped[..|mapped|] == mapped;
  }

  method JoinPorts(ports: seq<nat>) returns (text: string)
    requires ports != []
    ensures text == PortText(ports)
  {
    var i := |ports| - 1;
    text := Itoa(ports[i]);
    while i > 0
      invariant 0 <= i < |ports| && text == PortText(ports[i..])
    {
      i := i - 1;
      text := Itoa(ports[i]) + "," + text;
      assert ports[i..][1..] == ports[i + 1..];
    }
  }

  method RulesPerSource(sources: seq<string>, protos: seq<string>, ports: string, mark: nat) returns (out: seq<MarkRule>)
    ensures out == PerSource(sources, protos, ports, mark)
  {
    out := [];
    for k := 0 to |sources|
      invariant out == PerSource(sources[..k], protos, ports, mark)
    {
      assert sources[..k + 1][..k] == sources[..k];
      ghost var before := out;
      for m := 0 to |protos|
        invariant out == before + PerProtocol(protos[..m], ports, mark, sources[k])
      {
        out := out + [MarkRule(protos[m], ports, mark, sources[k])];
      }
      assert protos[..|protos|] == protos;
    }
    assert sources[..|sources|] == sources;
  }

  method DesiredMarkRules(gateways: seq<string>, family: Family, rules: seq<PortRule>) returns (out: seq<MarkRule>)
    ensures out == MarkRules(gateways, family, rules)
  {
    out := [];
    for i := 0 to |rules|
      invariant out == MarkRules(gateways, family, rules[..i])
    {
      var rule := rules[i];
      assert rules[..i + 1][..i] == rules[..i];
      var mark := Mark(gateways, rule.gateway);
      if mark == 0 {
        continue;
      }
      if |rule.ports| == 0 {
        continue;
      }
      var portSet := JoinPorts(rule.ports);
      var sources := SourcesOf(family, rule.gateway);
      var block := RulesPerSource(sources, ProtocolsFor(rule.proto), portSet, mark);
      out := out + block;
    }
    assert rules[..|rules|] == rules;
  }

  // ----- printing ----------------------------------------------------------------------

  /** White space goes in after every comma: the pieces are the fields that result. */
  function Pieces(s: string): (pieces: Fields)
    ensures s != [] ==> pieces != []
  {
    if s == [] then []
    else
      var rest := Pieces(s[1..]);
      if s[0] == ',' || rest == [] then [[s[0]]] + rest
      else [[s[0]] + rest[0]] + rest[1..]
  }

  /** As written, or as the tools list it back. */
  datatype Spelling = Written | Listed

  function NftMark(mark: nat, how: Spelling): string {
    if how.Written? then Itoa(mark) else Hex(mark, 8)
  }

  /** nft lists a single port without its braces. */
  function NftPorts(ports: string, how: Spelling): Fields {
    if how.Listed? && ',' !in ports then [ports] else ["{"] + Pieces(ports) + ["}"]
  }

  function NftMatch(r: MarkRule, how: Spelling): Fields
    requires r.mark >= 0
  {
    [r.proto, "dport"] + NftPorts(r.ports, how) + ["meta", "mark", "set", NftMark(r.mark, how)]
  }

  function NftLine(r: MarkRule, how: Spelling): Fields
    requires r.mark >= 0
  {
    (if r.saddr == "" then [] else ["ip6", "saddr", r.saddr]) + NftMatch(r, how)
  }

  function IptPorts(ports: string, proto: string, how: Spelling): Fields {
    if ',' in ports then ["-m", "multiport", "--dports", ports]
    else (if how.Listed? then ["-m", proto] else []) + ["--dport", ports]
  }

  function IptTarget(mark: nat, how: Spelling): Fields {
    ["-j", "MARK"] + if how.Written? then ["--set-mark", Itoa(mark)] else ["--set-xmark", Hex(mark, 0) + "/0xffffffff"]
  }

  function IptLine(chain: string, r: MarkRule, how: Spelling): Fields
    requires r.mark >= 0
  {
    ["-A", chain, "-p", r.proto] + IptPorts(r.ports, r.proto, how) + IptTarget(r.mark, how)
  }

  // ----- reading back ------------------------------------------------------------------

  function Concat(parts: Fields): string {
    if parts == [] then "" else parts[0] + Concat(parts[1..])
  }

  predicate Brace(c: char) {
    c == '{' || c == '}'
  }

  function TrimBraces(s: string): string {
    if s == [] then []
    else if Brace(s[0]) then TrimBraces(s[1..])
    else if Brace(s[|s| - 1]) then TrimBraces(s[..|s| - 1])
    else s
  }

  /** The fields before the first occurrence of stop. */
  function Before(fields: Fields, stop: string): Fields {
    if fields == [] || fields[0] == stop then [] else [fields[0]] + Before(fields[1..], stop)
  }

  function After(fields: Fields, start: string): Option<Fields> {
    if fields == [] then None
    else if fields[0] == start then Some(fields[1..])
    else After(fields[1..], start)
  }

  function BetweenFields(fields: Fields, start: string, stop: string): string {
    match After(fields, start)
    case None => ""
    case Some(rest) => TrimBraces(Concat(Before(rest, stop)))
  }

  function TrimSemicolon(s: string): string {
    if s != [] && s[|s| - 1] == ';' then s[..|s| - 1] else s
  }

  /** A mark statement; None for any other line. */
  function ReadNftRule(line: Fields): Option<MarkRule> {
    var sourced := |line| >= 3 && line[0] == "ip6" && line[1] == "saddr";
    var saddr := if sourced then line[2] else "";
    var fields := if sourced then line[3..] else line;
    if fields == [] || (fields[0] != "tcp" && fields[0] != "udp") then None
    else
      var ports := BetweenFields(fields, "dport", "meta");
      var mark := ParseInt32(TrimSemicolon(TextOf(FieldAfter(fields, "set"))));
      if ports == "" || mark.None? then None else Some(MarkRule(fields[0], ports, mark.value, saddr))
  }

  datatype Reading = Reading(chain: string, got: map<string, seq<MarkRule>>)

  function RulesIn(got: map<string, seq<MarkRule>>, chain: string): seq<MarkRule> {
    if chain in got then got[chain] else []
  }

  function ReadLine(st: Reading, fields: Fields): Reading {
    if |fields| >= 2 && fields[0] == "chain" then st.(chain := fields[1])
    else
      var rule := if st.chain == "" then None else ReadNftRule(fields);
      if rule.None? then st else st.(got := st.got[st.chain := RulesIn(st.got, st.chain) + [rule.value]])
  }

  function ReadLines(st: Reading, lines: seq<Fields>): Reading {
    if lines == [] then st
    else ReadLine(ReadLines(st, lines[..|lines| - 1]), lines[|lines| - 1])
  }

  method ParseNftMarkRules(lines: seq<Fields>) returns (got: map<string, seq<MarkRule>>)
    ensures got == ReadLines(Reading("", map[]), lines).got
  {
    got := map[];
    var chain := "";
    for i := 0 to |lines|
      invariant Reading(chain, got) == ReadLines(Reading("", map[]), lines[..i])
    {
      var fields := lines[i];
      assert lines[..i + 1][..i] == lines[..i];
      if |fields| >= 2 && fields[0] == "chain" {
        chain := fields[1];
        continue;
      }
      if chain == "" || |fields| == 0 {
        continue;
      }
      var rule := ReadNftRule(fields);
      if rule.Some? {
        got := got[chain := RulesIn(got, chain) + [rule.value]];
      }
    }
    assert lines[..|lines|] == lines;
  }

  /** The text before the first slash. */
  function CutSlash(s: string): string {
    if s == [] || s[0] == '/' then [] else [s[0]] + CutSlash(s[1..])
  }

  function ReadIptRule(fields: Fields): Option<MarkRule> {
    if fields == [] || fields[0] != "-A" then None
    else
      var proto := TextOf(FieldAfter(fields, "-p"));
      var ports := TextOf(FirstOf(fields, "--dport", "--dports"));
      var xmark := CutSlash(TextOf(FieldAfter(fields, "--set-xmark")));
      var mark := ParseInt32(if xmark == "" then TextOf(FieldAfter(fields, "--set-mark")) else xmark);
      if proto == "" || ports == "" || mark.None? then None else Some(MarkRule(proto, ports, mark.value, ""))
  }

  function ReadIptRules(lines: seq<Fields>): seq<MarkRule> {
    if lines == [] then []
    else
      var n := |lines| - 1;
      var rule := ReadIptRule(lines[n]);
      ReadIptRules(lines[..n]) + if rule.None? then [] else [rule.value]
  }

  method ParseIptMarkRules(lines: seq<Fields>) returns (got: seq<MarkRule>)
    ensures got == ReadIptRules(lines)
  {
    got := [];
    for i := 0 to |lines|
      invariant got == ReadIptRules(lines[..i])
    {
      assert lines[..i + 1][..i] == lines[..i];
      var rule := ReadIptRule(lines[i]);
      if rule.Some? {
        got := got + [rule.value];
      }
    }
    assert lines[..|lines|] == lines;
  }

  // ----- whole tables and chains ---------------------------------------------------------

  const OUTPUT_CHAIN := "mangle_output"
  const PREROUTING_CHAIN := "mangle_prerouting"

  function ChainsOf(family: Family): Fields {
    if family.V4? then [OUTPUT_CHAIN, PREROUTING_CHAIN] else [PREROUTING_CHAIN]
  }

  function ChainHead(chain: string): Fields {
    if chain == OUTPUT_CHAIN
    then ["type", "route", "hook", "output", "priority", "mangle;", "policy", "accept;"]
    else ["type", "filter", "hook", "prerouting", "priority", "mangle;", "policy", "accept;"]
  }

  predicate Marked(rules: seq<MarkRule>) {
    forall i :: 0 <= i < |rules| ==> rules[i].mark >= 0
  }

  function NftRuleLines(rules: seq<MarkRule>, how: Spelling): seq<Fields>
    requires Marked(rules)
  {
    seq(|rules|, i requires 0 <= i < |rules| => NftLine(rules[i], how))
  }

  function ChainLines(chain: string, rules: seq<MarkRule>, how: Spelling): seq<Fields>
    requires Marked(rules)
  {
    [["chain", chain, "{"], ChainHead(chain)] + NftRuleLines(rules, how) + [["}"], []]
  }

  function NftTable(table: string, family: Family, rules: seq<MarkRule>, how: Spelling): seq<Fields>
    requires Marked(rules)
  {
    var name := if family.V4? then "ip" else "ip6";
    [["table", name, table, "{"]] +
    (if family.V4? then ChainLines(OUTPUT_CHAIN, rules, how) else []) +
    ChainLines(PREROUTING_CHAIN, rules, how) +
    [["}"]]
  }

  function IptRuleLines(chain: string, rules: seq<MarkRule>, how: Spelling): seq<Fields>
    requires Marked(rules)
  {
    seq(|rules|, i requires 0 <= i < |rules| => IptLine(chain, rules[i], how))
  }

  function IptChain(chain: string, rules: seq<MarkRule>, how: Spelling): seq<Fields>
    requires Marked(rules)
  {
    [["-N", chain]] + IptRuleLines(chain, rules, how)
  }

  // ----- what survives -------------------------------------------------------------------

  predicate PortChar(c: char) {
    '0' <= c <= '9' || c == ','
  }

  predicate PortSet(s: string) {
    s != "" && forall c :: c in s ==> PortChar(c)
  }

  /** What MarkRules produces, see WantedIsPrintable. */
  predicate Printable(r: MarkRule) {
    && (r.proto == "tcp" || r.proto == "udp")
    && PortSet(r.ports)
    && 0 < r.mark < INT32_LIMIT
  }

  predicate AllPrintable(rules: seq<MarkRule>)
    ensures AllPrintable(rules) ==> Marked(rules)
  {
    forall i :: 0 <= i < |rules| ==> Printable(rules[i])
  }

  lemma {:induction false} PiecesJoinUp(s: string)
    ensures Concat(Pieces(s)) == s
  {
    if s != [] {
      PiecesJoinUp(s[1..]);
      var rest := Pieces(s[1..]);
      if s[0] != ',' && rest != [] {
        assert Pieces(s)[1..] == rest[1..];
      } else {
        assert Pieces(s)[1..] == rest;
      }
    }
  }

  predicate Texts(fields: Fields) {
    forall i :: 0 <= i < |fields| ==> PortSet(fields[i])
  }

  lemma {:induction false} PiecesAreTexts(s: string)
    requires forall c :: c in s ==> PortChar(c)
    ensures Texts(Pieces(s))
  {
    if s != [] {
      assert s[0] in s;
      PiecesAreTexts(s[1..]);
      var rest := Pieces(s[1..]);
      assert PortSet([s[0]]);
      if s[0] != ',' && rest != [] {
        assert PortSet([s[0]] + rest[0]);
      }
    }
  }

  lemma {:induction false} ConcatEnd(parts: Fields, last: string)
    ensures Concat(parts + [last]) == Concat(parts) + last
  {
    if parts != [] {
      assert (parts + [last])[1..] == parts[1..] + [last];
      ConcatEnd(parts[1..], last);
    } else {
      assert (parts + [last])[1..] == [];
    }
  }

  lemma TrimmedPorts(s: string)
    requires PortSet(s)
    ensures TrimBraces(s) == s && TrimBraces("{" + s + "}") == s
  {
    assert s[0] in s && s[|s| - 1] in s;
    var all := "{" + s + "}";
    assert all[1..] == s + "}";
    assert (s + "}")[..|s|] == s;
  }

  lemma {:induction false} BeforeStop(fields: Fields, stop: string, tail: Fields)
    requires stop !in fields
    ensures Before(fields + [stop] + tail, stop) == fields
  {
    var all := fields + [stop] + tail;
    if fields != [] {
      assert all[1..] == fields[1..] + [stop] + tail;
      BeforeStop(fields[1..], stop, tail);
    }
  }

  lemma NotAText(fields: Fields, word: string)
    requires Texts(fields) && word != "" && !PortChar(word[0])
    ensures word !in fields
  {
    forall i | 0 <= i < |fields|
      ensures fields[i] != word
    {
      assert fields[i][0] in fields[i];
    }
  }

  lemma PortFieldsJoin(ports: string, how: Spelling)
    requires PortSet(ports)
    ensures TrimBraces(Concat(NftPorts(ports, how))) == ports
  {
    TrimmedPorts(ports);
    if how.Listed? && ',' !in ports {
      assert Concat([ports]) == ports + "" == ports;
    } else {
      PiecesJoinUp(ports);
      var pieces := Pieces(ports);
      ConcatEnd(["{"] + pieces, "}");
      assert (["{"] + pieces)[1..] == pieces;
      assert Concat(["{"] + pieces) == "{" + ports;
    }
  }

  lemma PortFieldsAreNoWords(ports: string, how: Spelling)
    requires PortSet(ports)
    ensures "meta" !in NftPorts(ports, how) && "set" !in NftPorts(ports, how)
  {
    PiecesAreTexts(ports);
    NotAText(Pieces(ports), "meta");
    NotAText(Pieces(ports), "set");
    NotAText([ports], "meta");
    NotAText([ports], "set");
  }

  lemma PortsReadBack(r: MarkRule, how: Spelling)
    requires Printable(r)
    ensures BetweenFields(NftMatch(r, how), "dport", "meta") == r.ports
  {
    PortFieldsJoin(r.ports, how);
    PortFieldsAreNoWords(r.ports, how);
    var fields := NftMatch(r, how);
    var ports := NftPorts(r.ports, how);
    var tail := ["mark", "set", NftMark(r.mark, how)];
    assert fields[1..][1..] == ports + ["meta"] + tail;
    assert After(fields, "dport") == Some(ports + ["meta"] + tail);
    BeforeStop(ports, "meta", tail);
  }

  lemma NftMarkReadsBack(mark: nat, how: Spelling)
    requires 0 < mark < INT32_LIMIT
    ensures ParseInt32(TrimSemicolon(NftMark(mark, how))) == Some(mark)
    ensures NftMark(mark, how) != "set"
  {
    var s := NftMark(mark, how);
    if how.Written? {
      ItoaReadsBack(mark);
      assert s[|s| - 1] in s;
    } else {
      HexReadsBack(mark, 8);
      HexEnds(mark, 8);
      assert s[|s| - 1] in s;
    }
  }

  lemma HexEnds(n: nat, width: nat)
    ensures Hex(n, width) != []
    ensures forall c :: c in Hex(n, width) ==> c !in ";/"
  {
    var digits := Format(n, 16);
    var s := Padded(digits, width);
    forall c | c in s
      ensures c !in ";/"
    {
      assert c == '0' || c in digits;
    }
  }

  lemma MarkFieldFound(r: MarkRule, how: Spelling)
    requires Printable(r)
    ensures FieldAfter(NftMatch(r, how), "set") == Some(NftMark(r.mark, how))
  {
    PortFieldsAreNoWords(r.ports, how);
    var fields := NftMatch(r, how);
    FieldAt(fields, "set", |fields| - 2);
  }

  /** An nft mark statement reads back as its rule, as written and as listed, with and without
      a source prefix. */
  lemma NftLineReadsBack(r: MarkRule, how: Spelling)
    requires Printable(r)
    ensures ReadNftRule(NftLine(r, how)) == Some(r)
  {
    PortsReadBack(r, how);
    MarkFieldFound(r, how);
    NftMarkReadsBack(r.mark, how);
    var line := NftLine(r, how);
    if r.saddr != "" {
      assert line[3..] == NftMatch(r, how);
    } else {
      assert line == NftMatch(r, how);
    }
  }

  lemma {:induction false} ReadingOn(st: Reading, a: seq<Fields>, b: seq<Fields>)
    ensures ReadLines(st, a + b) == ReadLines(ReadLines(st, a), b)
  {
    if b == [] {
      assert a + b == a;
    } else {
      var n := |b| - 1;
      assert (a + b)[..|a + b| - 1] == a + b[..n];
      ReadingOn(st, a, b[..n]);
    }
  }

  function Extended(st: Reading, rules: seq<MarkRule>): Reading {
    if rules == [] then st else st.(got := st.got[st.chain := RulesIn(st.got, st.chain) + rules])
  }

  lemma RuleLineRead(st: Reading, r: MarkRule, how: Spelling)
    requires st.chain != "" && Printable(r)
    ensures ReadLine(st, NftLine(r, how)) == Extended(st, [r])
  {
    NftLineReadsBack(r, how);
    assert NftLine(r, how)[0] != "chain";
  }

  lemma ExtendedOnce(st: Reading, rules: seq<MarkRule>, r: MarkRule)
    ensures Extended(Extended(st, rules), [r]) == Extended(st, rules + [r])
  {
    if rules == [] {
      assert rules + [r] == [r];
    } else {
      assert RulesIn(st.got, st.chain) + rules + [r] == RulesIn(st.got, st.chain) + (rules + [r]);
    }
  }

  lemma ReadOne(st: Reading, lines: seq<Fields>, line: Fields)
    ensures ReadLines(st, lines + [line]) == ReadLine(ReadLines(st, lines), line)
  {
    assert (lines + [line])[..|lines|] == lines;
  }

  lemma LastLine(rules: seq<MarkRule>, how: Spelling)
    requires rules != [] && Marked(rules)
    ensures var n := |rules| - 1;
            && NftRuleLines(rules, how) == NftRuleLines(rules[..n], how) + [NftLine(rules[n], how)]
            && rules == rules[..n] + [rules[n]]
  {
  }

  lemma {:induction false} RuleLinesReadBack(st: Reading, rules: seq<MarkRule>, how: Spelling)
    requires st.chain != "" && AllPrintable(rules)
    ensures ReadLines(st, NftRuleLines(rules, how)) == Extended(st, rules)
  {
    if rules != [] {
      var n := |rules| - 1;
      RuleLinesReadBack(st, rules[..n], how);
      ReadOne(st, NftRuleLines(rules[..n], how), NftLine(rules[n], how));
      LastLine(rules, how);
      RuleLineRead(Extended(st, rules[..n]), rules[n], how);
      ExtendedOnce(st, rules[..n], rules[n]);
    }
  }

  /** A line that is neither a chain header nor a mark statement changes nothing. */
  lemma OtherLine(st: Reading, fields: Fields)
    requires |fields| >= 1 ==> fields[0] != "chain" && fields[0] != "ip6" && fields[0] != "tcp" && fields[0] != "udp"
    ensures ReadLine(st, fields) == st
  {
  }

  lemma TwoLines(st: Reading, a: Fields, b: Fields)
    ensures ReadLines(st, [a, b]) == ReadLine(ReadLine(st, a), b)
  {
    assert [a, b][..1] == [a];
    assert [a][..0] == [];
    assert ReadLines(st, [a]) == ReadLine(st, a);
  }

  lemma ChainReadsBack(st: Reading, chain: string, rules: seq<MarkRule>, how: Spelling)
    requires chain != "" && rules != [] && AllPrintable(rules)
    ensures ReadLines(st, ChainLines(chain, rules, how)) == Reading(chain, st.got[chain := RulesIn(st.got, chain) + rules])
  {
    var head := [["chain", chain, "{"], ChainHead(chain)];
    var body := NftRuleLines(rules, how);
    var inside := st.(chain := chain);
    TwoLines(st, head[0], head[1]);
    OtherLine(inside, ChainHead(chain));
    ReadingOn(st, head, body);
    RuleLinesReadBack(inside, rules, how);
    var after := ReadLines(inside, body);
    ReadingOn(st, head + body, [["}"], []]);
    TwoLines(after, ["}"], []);
    OtherLine(after, ["}"]);
    OtherLine(after, []);
  }

  lemma OneLine(st: Reading, a: Fields)
    ensures ReadLines(st, [a]) == ReadLine(st, a)
  {
    assert [a][..0] == [];
  }

  /** Every chain of a printed table reads back as the wanted rules, in order, whatever the
      table is called. */
  lemma NftTableReadsBack(table: string, family: Family, rules: seq<MarkRule>, how: Spelling)
    requires rules != [] && AllPrintable(rules)
    ensures var got := ReadLines(Reading("", map[]), NftTable(table, family, rules, how)).got;
            forall chain :: chain in ChainsOf(family) ==> RulesIn(got, chain) == rules
  {
    var none := Reading("", map[]);
    var head := [["table", if family.V4? then "ip" else "ip6", table, "{"]];
    var first := if family.V4? then ChainLines(OUTPUT_CHAIN, rules, how) else [];
    var second := ChainLines(PREROUTING_CHAIN, rules, how);
    OneLine(none, head[0]);
    OtherLine(none, head[0]);
    ReadingOn(none, head, first);
    if family.V4? {
      ChainReadsBack(none, OUTPUT_CHAIN, rules, how);
    }
    var st := ReadLines(none, first);
    ReadingOn(none, head + first, second);
    ChainReadsBack(st, PREROUTING_CHAIN, rules, how);
    var done := ReadLines(st, second);
    ReadingOn(none, head + first + second, [["}"]]);
    OneLine(done, ["}"]);
    OtherLine(done, ["}"]);
  }

  lemma {:induction false} CutAtSlash(s: string, tail: string)
    requires '/' !in s
    ensures CutSlash(s + "/" + tail) == s
  {
    var all := s + "/" + tail;
    if s != [] {
      assert all[1..] == s[1..] + "/" + tail;
      CutAtSlash(s[1..], tail);
    }
  }

  predicate ChainName(chain: string) {
    chain != "" && chain[0] != '-'
  }

  lemma IptTargetWords(mark: nat, how: Spelling)
    ensures "--dport" !in IptTarget(mark, how)
  {
    var target := IptTarget(mark, how);
    assert target[3] != [] && target[3][0] != '-' by {
      assert Itoa(mark)[0] in Itoa(mark);
    }
    assert "--dport"[0] == '-';
  }

  /** The chain name is the first field that is not an option, so it hides no option. */
  lemma IptOptionsFound(chain: string, r: MarkRule, how: Spelling)
    requires Printable(r) && ChainName(chain)
    ensures var fields := IptLine(chain, r, how);
            && FieldAfter(fields, "-p") == Some(r.proto)
            && FirstOf(fields, "--dport", "--dports") == Some(r.ports)
  {
    var fields := IptLine(chain, r, how);
    NotAText([r.ports], "--dport");
    FieldAt(fields, "-p", 2);
    if ',' in r.ports {
      assert chain != "--dport";
      assert fields == ["-A", chain, "-p", r.proto, "-m", "multiport", "--dports", r.ports] + IptTarget(r.mark, how);
      assert "--dport" !in IptTarget(r.mark, how) by { IptTargetWords(r.mark, how); }
      NoFieldAfter(fields, "--dport");
      FieldAt(fields, "--dports", 6);
    } else {
      FieldAt(fields, "--dport", if how.Listed? then 6 else 4);
    }
  }

  lemma IptMarkFound(chain: string, r: MarkRule, how: Spelling)
    requires Printable(r) && ChainName(chain)
    ensures var fields := IptLine(chain, r, how);
            if how.Written? then FieldAfter(fields, "--set-mark") == Some(Itoa(r.mark)) && FieldAfter(fields, "--set-xmark") == None
            else FieldAfter(fields, "--set-xmark") == Some(Hex(r.mark, 0) + "/0xffffffff")
  {
    var fields := IptLine(chain, r, how);
    var n := |fields|;
    NotAText([r.ports], "--set-mark");
    NotAText([r.ports], "--set-xmark");
    if how.Written? {
      var s := fields[n - 1];
      assert s[0] in s;
      FieldAt(fields, "--set-mark", n - 2);
      NoFieldAfter(fields, "--set-xmark");
    } else {
      FieldAt(fields, "--set-xmark", n - 2);
    }
  }

  /** An iptables rule reads back, from its arguments and from its listing. */
  lemma IptLineReadsBack(chain: string, r: MarkRule, how: Spelling)
    requires Printable(r) && ChainName(chain) && r.saddr == ""
    ensures ReadIptRule(IptLine(chain, r, how)) == Some(r)
  {
    IptOptionsFound(chain, r, how);
    IptMarkFound(chain, r, how);
    if how.Written? {
      ItoaReadsBack(r.mark);
    } else {
      HexReadsBack(r.mark, 0);
      HexEnds(r.mark, 0);
      CutAtSlash(Hex(r.mark, 0), "0xffffffff");
      assert Hex(r.mark, 0) + "/0xffffffff" == Hex(r.mark, 0) + "/" + "0xffffffff";
    }
  }

  /** Only an appended rule with a protocol, a port match and a mark is read as a mark rule. */
  lemma OnlyMarksAreRead(line: Fields)
    ensures ReadIptRule(line).Some? ==>
            && line[..1] == ["-A"] && "-p" in line
            && ("--dport" in line || "--dports" in line) && ("--set-mark" in line || "--set-xmark" in line)
    ensures ReadNftRule(line).Some? ==> ("tcp" in line || "udp" in line) && "dport" in line && "set" in line
  {
    assert ParseInt32("") == None;
    if ReadIptRule(line).Some? {
      forall word | word !in line
        ensures FieldAfter(line, word) == None
      {
        NoFieldAfter(line, word);
      }
      assert line[..1] == [line[0]];
    }
    if ReadNftRule(line).Some? {
      var sourced := |line| >= 3 && line[0] == "ip6" && line[1] == "saddr";
      var fields := if sourced then line[3..] else line;
      assert forall word :: word in fields ==> word in line;
      assert fields[0] in fields;
      if "set" !in fields {
        NoFieldAfter(fields, "set");
      }
      if "dport" !in fields {
        NothingAfter(fields, "dport");
      }
    }
  }

  lemma NothingAfter(fields: Fields, start: string)
    requires start !in fields
    ensures After(fields, start) == None
  {
  }

  lemma ReadIptOne(lines: seq<Fields>, line: Fields)
    ensures ReadIptRules(lines + [line]) ==
            ReadIptRules(lines) + if ReadIptRule(line).None? then [] else [ReadIptRule(line).value]
  {
    assert (lines + [line])[..|lines|] == lines;
  }

  lemma LastIptLine(chain: string, rules: seq<MarkRule>, how: Spelling)
    requires rules != [] && Marked(rules)
    ensures var n := |rules| - 1;
            && IptChain(chain, rules, how) == IptChain(chain, rules[..n], how) + [IptLine(chain, rules[n], how)]
            && rules == rules[..n] + [rules[n]]
  {
    var n := |rules| - 1;
    LastRuleLine(chain, rules, how);
    var head: seq<Fields> := [["-N", chain]];
    assert head + (IptRuleLines(chain, rules[..n], how) + [IptLine(chain, rules[n], how)]) ==
           head + IptRuleLines(chain, rules[..n], how) + [IptLine(chain, rules[n], how)];
  }

  lemma LastRuleLine(chain: string, rules: seq<MarkRule>, how: Spelling)
    requires rules != [] && Marked(rules)
    ensures var n := |rules| - 1;
            && IptRuleLines(chain, rules, how) == IptRuleLines(chain, rules[..n], how) + [IptLine(chain, rules[n], how)]
            && rules == rules[..n] + [rules[n]]
  {
    var n := |rules| - 1;
    var all, before := IptRuleLines(chain, rules, how), IptRuleLines(chain, rules[..n], how);
    forall i | 0 <= i < n
      ensures all[i] == before[i]
    {
    }
    assert all == all[..n] + [all[n]] && all[..n] == before;
  }

  /** Printable, and without a source, which iptables rules have no room for. */
  predicate Sourceless(rules: seq<MarkRule>)
    ensures Sourceless(rules) ==> Marked(rules)
  {
    forall i :: 0 <= i < |rules| ==> Printable(rules[i]) && rules[i].saddr == ""
  }

  lemma FirstLineIsSkipped(chain: string, how: Spelling)
    ensures ReadIptRules(IptChain(chain, [], how)) == []
  {
    ReadIptOne([], ["-N", chain]);
    assert [] + [["-N", chain]] == IptChain(chain, [], how);
  }

  /** The whole chain reads back in order; its -N line is skipped. */
  lemma {:induction false} IptRulesReadBack(chain: string, rules: seq<MarkRule>, how: Spelling)
    requires ChainName(chain) && Sourceless(rules)
    ensures ReadIptRules(IptChain(chain, rules, how)) == rules
  {
    if rules == [] {
      FirstLineIsSkipped(chain, how);
    } else {
      var n := |rules| - 1;
      IptRulesReadBack(chain, rules[..n], how);
      LastIptLine(chain, rules, how);
      ReadIptOne(IptChain(chain, rules[..n], how), IptLine(chain, rules[n], how));
      IptLineReadsBack(chain, rules[n], how);
    }
  }

  // ----- what is wanted is printable ---------------------------------------------------------

  lemma {:induction false} PortTextIsASet(ports: seq<nat>)
    requires ports != []
    ensures PortSet(PortText(ports))
  {
    DecimalDigits(ports[0]);
    if |ports| > 1 {
      PortTextIsASet(ports[1..]);
    }
  }

  lemma {:induction false} DecimalDigits(n: nat)
    ensures PortSet(Itoa(n)) && ',' !in Itoa(n)
    decreases n
  {
    if n >= 10 {
      Shrinks(n, 10);
      DecimalDigits(n / 10);
    }
    assert '0' <= Digit(n % 10) <= '9';
  }

  lemma {:induction false} BlockMembers(sources: seq<string>, protos: seq<string>, ports: string, mark: nat, r: MarkRule)
    ensures r in PerSource(sources, protos, ports, mark) <==>
            r.saddr in sources && r.proto in protos && r.ports == ports && r.mark == mark
  {
    if sources != [] {
      var n := |sources| - 1;
      BlockMembers(sources[..n], protos, ports, mark, r);
      assert sources == sources[..n] + [sources[n]];
      var last := PerProtocol(protos, ports, mark, sources[n]);
      if r.proto in protos && r.saddr == sources[n] && r.ports == ports && r.mark == mark {
        assert last[IndexOf(protos, r.proto)] in last;
      }
    }
  }

  /** Every mark rule comes from one port rule whose gateway has a mark and, for IPv6, maps
      the source. */
  lemma {:induction false} MarkRuleMembers(gateways: seq<string>, family: Family, rules: seq<PortRule>, r: MarkRule)
    ensures r in MarkRules(gateways, family, rules) <==>
            exists rule :: rule in rules && r in RulesOf(gateways, family, rule)
  {
    if rules != [] {
      var n := |rules| - 1;
      MarkRuleMembers(gateways, family, rules[..n], r);
      assert rules == rules[..n] + [rules[n]];
    }
  }

  lemma {:induction false} PrefixMembers(mapped: seq<Mapped>, gateway: string, s: string)
    ensures s in Prefixes(mapped, gateway) <==> Mapped(gateway, s) in mapped
  {
    if mapped != [] {
      var n := |mapped| - 1;
      PrefixMembers(mapped[..n], gateway, s);
      assert mapped == mapped[..n] + [mapped[n]];
    }
  }

  lemma RulesOfFacts(gateways: seq<string>, family: Family, rule: PortRule, r: MarkRule)
    requires r in RulesOf(gateways, family, rule)
    ensures (r.proto == "tcp" || r.proto == "udp") && PortSet(r.ports)
    ensures rule.ports != [] && r.ports == PortText(rule.ports)
    ensures 1 <= r.mark <= |gateways| && gateways[r.mark - 1] == rule.gateway
    ensures r.saddr in Sources(family, rule.gateway)
  {
    PortTextIsASet(rule.ports);
    var sources, protos, ports := Sources(family, rule.gateway), ProtocolsFor(rule.proto), PortText(rule.ports);
    BlockMembers(sources, protos, ports, Mark(gateways, rule.gateway), r);
    assert r.proto in protos;
    Protocols(rule.proto, r.proto);
  }

  lemma Protocols(proto: string, p: string)
    requires p in ProtocolsFor(proto)
    ensures p == "tcp" || p == "udp"
  {
  }

  lemma {:induction false} EachSourceInTurn(sources: seq<string>, protos: seq<string>, ports: string, mark: nat, i: nat)
    requires i < |sources| && 1 <= |protos| <= 2
    ensures var out := PerSource(sources, protos, ports, mark);
            && (|protos| == 1 ==> |out| == |sources| && out[i] == MarkRule(protos[0], ports, mark, sources[i]))
            && (|protos| == 2 ==> |out| == 2 * |sources| && out[2 * i] == MarkRule(protos[0], ports, mark, sources[i])
                                  && out[2 * i + 1] == MarkRule(protos[1], ports, mark, sources[i]))
  {
    var n := |sources| - 1;
    if n > 0 {
      EachSourceInTurn(sources[..n], protos, ports, mark, if i < n then i else 0);
    }
  }

  /** What one port rule becomes: nothing without a mark or ports; else one mark rule for every
      source, or two, tcp before udp, unless the rule names one of them. */
  lemma RuleExpands(gateways: seq<string>, family: Family, rule: PortRule, i: nat)
    requires i < |Sources(family, rule.gateway)|
    ensures var out, sources := RulesOf(gateways, family, rule), Sources(family, rule.gateway);
            if rule.gateway !in gateways || rule.ports == [] then out == []
            else
              var r := MarkRule(rule.proto, PortText(rule.ports), IndexOf(gateways, rule.gateway) + 1, sources[i]);
              if rule.proto == "tcp" || rule.proto == "udp" then |out| == |sources| && out[i] == r
              else |out| == 2 * |sources| && out[2 * i] == r.(proto := "tcp") && out[2 * i + 1] == r.(proto := "udp")
  {
    if rule.gateway in gateways {
      EachSourceInTurn(Sources(family, rule.gateway), ProtocolsFor(rule.proto), PortText(rule.ports), Mark(gateways, rule.gateway), i);
    }
  }

  lemma MarkRuleFacts(gateways: seq<string>, family: Family, rules: seq<PortRule>, r: MarkRule)
    requires r in MarkRules(gateways, family, rules) && |gateways| < INT32_LIMIT
    ensures Printable(r)
    ensures 1 <= r.mark <= |gateways|
    ensures family.V4? ==> r.saddr == ""
    ensures family.V6? ==> Mapped(gateways[r.mark - 1], r.saddr) in family.mapped
  {
    MarkRuleMembers(gateways, family, rules, r);
    var rule :| rule in rules && r in RulesOf(gateways, family, rule);
    RulesOfFacts(gateways, family, rule, r);
    if family.V6? {
      PrefixMembers(family.mapped, rule.gateway, r.saddr);
    }
  }

  lemma WantedIsPrintable(gateways: seq<string>, family: Family, rules: seq<PortRule>)
    requires |gateways| < INT32_LIMIT
    ensures AllPrintable(MarkRules(gateways, family, rules))
  {
    var out := MarkRules(gateways, family, rules);
    forall i | 0 <= i < |out|
      ensures Printable(out[i])
    {
      MarkRuleFacts(gateways, family, rules, out[i]);
    }
  }

  lemma WantedIsSourceless(gateways: seq<string>, rules: seq<PortRule>)
    requires |gateways| < INT32_LIMIT
    ensures Sourceless(MarkRules(gateways, V4, rules))
  {
    var out := MarkRules(gateways, V4, rules);
    forall i | 0 <= i < |out|
      ensures Printable(out[i]) && out[i].saddr == ""
    {
      MarkRuleFacts(gateways, V4, rules, out[i]);
    }
  }

  // ----- drift -------------------------------------------------------------------------------

  datatype InstalledNft = InstalledNft(present: bool, chains: map<string, seq<MarkRule>>, legacy: bool)

  predicate NftNeedsRestore(family: Family, want: seq<MarkRule>, got: InstalledNft) {
    || got.legacy
    || (if !got.present then |want| > 0
        else |want| == 0 || exists chain :: chain in ChainsOf(family) && RulesIn(got.chains, chain) != want)
  }

  /** The tables of one name, by family: the family's own and, for IPv4, the legacy inet one. */
  datatype NftTables = NftTables(own: Option<seq<Fields>>, legacy: Option<seq<Fields>>)

  function ReadInstalledNft(family: Family, t: NftTables): InstalledNft {
    InstalledNft(t.own.Some?, if t.own.Some? then ReadLines(Reading("", map[]), t.own.value).got else map[],
                 family.V4? && t.legacy.Some?)
  }

  /** nftActions: remove both tables, then write one unless there is nothing to write. */
  function ApplyNft(table: string, family: Family, want: seq<MarkRule>, t: NftTables): NftTables
    requires Marked(want)
  {
    NftTables(if want == [] then None else Some(NftTable(table, family, want, Listed)),
              if family.V4? then None else t.legacy)
  }

  /** Whatever was there, a table just written is not drifted. */
  lemma FreshNftIsInSync(table: string, gateways: seq<string>, family: Family, rules: seq<PortRule>, t: NftTables)
    requires |gateways| < INT32_LIMIT
    ensures var want := MarkRules(gateways, family, rules);
            && Marked(want)
            && !NftNeedsRestore(family, want, ReadInstalledNft(family, ApplyNft(table, family, want, t)))
  {
    WantedIsPrintable(gateways, family, rules);
    var want := MarkRules(gateways, family, rules);
    if want != [] {
      NftTableReadsBack(table, family, want, Listed);
    }
  }

  const IPT_HOOKS := {"OUTPUT", "PREROUTING"}

  datatype InstalledIpt = InstalledIpt(present: bool, rules: seq<MarkRule>, jumped: set<string>)

  predicate IptNeedsRestore(want: seq<MarkRule>, got: InstalledIpt) {
    if !got.present then |want| > 0
    else want == [] || want != got.rules || !(IPT_HOOKS <= got.jumped)
  }

  /** The mangle chain of the daemon, if any, and the built-in chains that jump to it. */
  datatype IptState = IptState(chain: Option<seq<Fields>>, jumps: set<string>)

  function ReadInstalledIpt(want: seq<MarkRule>, t: IptState): InstalledIpt {
    if t.chain.None? then InstalledIpt(false, [], {})
    else InstalledIpt(true, ReadIptRules(t.chain.value), if want == [] then {} else t.jumps * IPT_HOOKS)
  }

  /** One iptables invocation on the mangle table. */
  datatype IptCommand =
    | Unjump(hook: string)
    | FlushChain
    | DropChain
    | NewChain
    | Append(rule: MarkRule)
    | Jump(hook: string)

  /** Commands that cannot do their work fail and change nothing. */
  function IptStep(chain: string, cmd: IptCommand, t: IptState): IptState {
    match cmd
    case Unjump(hook) => t.(jumps := t.jumps - {hook})
    case FlushChain => if t.chain.None? then t else t.(chain := Some([["-N", chain]]))
    case DropChain => if t.chain == Some([["-N", chain]]) && t.jumps == {} then t.(chain := None) else t
    case NewChain => if t.chain.None? then t.(chain := Some([["-N", chain]])) else t
    case Append(r) =>
      if t.chain.None? || r.mark < 0 then t else t.(chain := Some(t.chain.value + [IptLine(chain, r, Listed)]))
    case Jump(hook) => if t.chain.None? then t else t.(jumps := t.jumps + {hook})
  }

  function IptRun(chain: string, cmds: seq<IptCommand>, t: IptState): IptState {
    if cmds == [] then t
    else IptStep(chain, cmds[|cmds| - 1], IptRun(chain, cmds[..|cmds| - 1], t))
  }

  const IPT_CLEANUP := [Unjump("OUTPUT"), Unjump("PREROUTING"), Unjump("FORWARD"), FlushChain, DropChain]

  function Appends(want: seq<MarkRule>): seq<IptCommand> {
    seq(|want|, i requires 0 <= i < |want| => Append(want[i]))
  }

  function IptInstall(want: seq<MarkRule>): seq<IptCommand> {
    if want == [] then [] else [NewChain] + Appends(want) + [Jump("OUTPUT"), Jump("PREROUTING")]
  }

  lemma {:induction false} IptRunOn(chain: string, a: seq<IptCommand>, b: seq<IptCommand>, t: IptState)
    ensures IptRun(chain, a + b, t) == IptRun(chain, b, IptRun(chain, a, t))
  {
    if b == [] {
      assert a + b == a;
    } else {
      assert (a + b)[..|a + b| - 1] == a + b[..|b| - 1];
      IptRunOn(chain, a, b[..|b| - 1], t);
    }
  }

  lemma IptOne(chain: string, cmd: IptCommand, t: IptState)
    ensures IptRun(chain, [cmd], t) == IptStep(chain, cmd, t)
  {
    assert [cmd][..0] == [];
  }

  /** Only the daemon's own jumps, past and present, lead to its chain. */
  predicate OwnJumps(t: IptState) {
    t.jumps <= IPT_HOOKS + {"FORWARD"}
  }

  /** The mark table as it is written: for IPv4 a route chain for the router's own packets and a filter
      chain for those it forwards, for IPv6 the second only; each holds all rules, in order. */
  lemma NftTableLayout(table: string, family: Family, rules: seq<MarkRule>, how: Spelling)
    requires Marked(rules)
    ensures var lines := seq(|rules|, i requires 0 <= i < |rules| => NftLine(rules[i], how));
            var forwarded :=
              [["chain", "mangle_prerouting", "{"], ["type", "filter", "hook", "prerouting", "priority", "mangle;", "policy", "accept;"]]
              + lines + [["}"], []];
            var own :=
              [["chain", "mangle_output", "{"], ["type", "route", "hook", "output", "priority", "mangle;", "policy", "accept;"]]
              + lines + [["}"], []];
            NftTable(table, family, rules, how) ==
            if family.V4? then [["table", "ip", table, "{"]] + own + forwarded + [["}"]]
            else [["table", "ip6", table, "{"]] + forwarded + [["}"]]
  {
    assert |OUTPUT_CHAIN| == 13 && |PREROUTING_CHAIN| == 17;
    assert NftRuleLines(rules, how) == seq(|rules|, i requires 0 <= i < |rules| => NftLine(rules[i], how));
  }

  /** Exactly when the mark tables of one family are judged to be in place: none of an older layout,
      and none at all when nothing is wanted, else every chain holding the wanted rules in order. */
  lemma NftJudged(family: Family, want: seq<MarkRule>, got: InstalledNft)
    ensures !NftNeedsRestore(family, want, got) <==>
            && !got.legacy
            && if want == [] then !got.present
               else && got.present
                    && "mangle_prerouting" in got.chains && got.chains["mangle_prerouting"] == want
                    && (family.V4? ==> "mangle_output" in got.chains && got.chains["mangle_output"] == want)
  {
    var chains := ChainsOf(family);
    assert PREROUTING_CHAIN in chains && (family.V4? <==> OUTPUT_CHAIN in chains) by {
      assert |OUTPUT_CHAIN| == 13 && |PREROUTING_CHAIN| == 17;
      assert family.V4? ==> chains[0] == OUTPUT_CHAIN && chains[1] == PREROUTING_CHAIN;
      assert family.V6? ==> chains == [PREROUTING_CHAIN];
    }
  }

  /** And the iptables chain: absent when nothing is wanted, else holding the wanted rules in order
      and reached from both hooks. */
  lemma IptJudged(want: seq<MarkRule>, got: InstalledIpt)
    ensures !IptNeedsRestore(want, got) <==>
            if want == [] then !got.present
            else got.present && got.rules == want && "OUTPUT" in got.jumped && "PREROUTING" in got.jumped
  {
  }

  lemma CleanupSteps(chain: string, t: IptState)
    ensures var u := t.(jumps := t.jumps - {"OUTPUT"} - {"PREROUTING"} - {"FORWARD"});
            IptRun(chain, IPT_CLEANUP, t) == IptStep(chain, DropChain, IptStep(chain, FlushChain, u))
  {
    var c := IPT_CLEANUP;
    assert c[..5] == c && c[..4][..3] == c[..3] && c[..3][..2] == c[..2] && c[..2][..1] == c[..1] && c[..1][..0] == [];
    var t1 := t.(jumps := t.jumps - {"OUTPUT"});
    assert IptRun(chain, c[..1], t) == t1;
    var t2 := t1.(jumps := t1.jumps - {"PREROUTING"});
    assert IptRun(chain, c[..2], t) == t2;
    var t3 := t2.(jumps := t2.jumps - {"FORWARD"});
    assert IptRun(chain, c[..3], t) == t3;
    assert IptRun(chain, c[..4], t) == IptStep(chain, FlushChain, t3);
  }

  lemma CleanupClears(chain: string, t: IptState)
    requires OwnJumps(t)
    ensures IptRun(chain, IPT_CLEANUP, t) == IptState(None, {})
  {
    CleanupSteps(chain, t);
    assert t.jumps - {"OUTPUT"} - {"PREROUTING"} - {"FORWARD"} == {};
  }

  lemma {:induction false} AppendsFill(chain: string, want: seq<MarkRule>, jumps: set<string>)
    requires Marked(want)
    ensures IptRun(chain, Appends(want), IptState(Some([["-N", chain]]), jumps)) == IptState(Some(IptChain(chain, want, Listed)), jumps)
  {
    if want == [] {
      assert IptChain(chain, want, Listed) == [["-N", chain]];
    } else {
      var n := |want| - 1;
      AppendsFill(chain, want[..n], jumps);
      assert Appends(want)[..n] == Appends(want[..n]);
      LastIptLine(chain, want, Listed);
    }
  }

  lemma InstallFills(chain: string, want: seq<MarkRule>)
    requires Marked(want) && want != []
    ensures IptRun(chain, IptInstall(want), IptState(None, {})) == IptState(Some(IptChain(chain, want, Listed)), IPT_HOOKS)
  {
    var none := IptState(None, {});
    var jumps := [Jump("OUTPUT"), Jump("PREROUTING")];
    IptRunOn(chain, [NewChain], Appends(want), none);
    IptOne(chain, NewChain, none);
    AppendsFill(chain, want, {});
    IptRunOn(chain, [NewChain] + Appends(want), jumps, none);
    var full := IptState(Some(IptChain(chain, want, Listed)), {});
    assert jumps[..1] == [jumps[0]];
    IptOne(chain, jumps[0], full);
    assert IptStep(chain, jumps[1], IptStep(chain, jumps[0], full)).jumps == IPT_HOOKS;
  }

  /** Cleaning up and installing, in that order, leaves a chain that is not drifted. */
  lemma FreshIptIsInSync(chain: string, gateways: seq<string>, rules: seq<PortRule>, t: IptState)
    requires |gateways| < INT32_LIMIT && ChainName(chain) && OwnJumps(t)
    ensures var want := MarkRules(gateways, V4, rules);
            var after := IptRun(chain, IPT_CLEANUP + IptInstall(want), t);
            if want == [] then after.chain.None? else !IptNeedsRestore(want, ReadInstalledIpt(want, after))
  {
    var want := MarkRules(gateways, V4, rules);
    CleanupClears(chain, t);
    IptRunOn(chain, IPT_CLEANUP, IptInstall(want), t);
    WantedIsSourceless(gateways, rules);
    if want != [] {
      InstallFills(chain, want);
      IptRulesReadBack(chain, want, Listed);
    }
  }
}
