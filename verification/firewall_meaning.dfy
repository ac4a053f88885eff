/** What printed mark rules do to packets: both backends stamp the mark of the last port rule
    that matches. */
module FirewallMeaning {
  import opened Common
  import opened Tokens
  import opened Numbers
  import opened Firewall

  /** inside: the printed prefixes that contain the packet's source. */
  datatype Packet = Packet(proto: string, dport: nat, inside: set<string>)

  /** Setting a mark ends no chain, so the last rule that stamps wins; 0 is unmarked. */
  function LastOf(stamps: seq<Option<int>>): int {
    if stamps == [] then 0
    else
      var n := |stamps| - 1;
      if stamps[n].Some? then stamps[n].value else LastOf(stamps[..n])
  }

  // ----- nft: proto dport { p, q } meta mark set m ---------------------------------------------

  function Bare(piece: string): string {
    if piece != [] && piece[|piece| - 1] == ',' then piece[..|piece| - 1] else piece
  }

  function Elements(pieces: Fields): seq<Option<nat>> {
    seq(|pieces|, i requires 0 <= i < |pieces| => ReadDigits(Bare(pieces[i]), 10))
  }

  function NftMatchStamp(line: Fields, p: Packet): Option<int> {
    var n := |line|;
    if || n < 8 || line[1] != "dport" || line[2] != "{" || line[n - 5] != "}"
       || line[0] != p.proto || Some(p.dport) !in Elements(line[3..n - 5])
    then None
    else ParseInt32(line[n - 1])
  }

  function NftStamp(line: Fields, p: Packet): Option<int> {
    if |line| >= 3 && line[0] == "ip6" && line[1] == "saddr"
    then if line[2] in p.inside then NftMatchStamp(line[3..], p) else None
    else NftMatchStamp(line, p)
  }

  // ----- iptables: -p proto --dport p | --dports p,q, --set-mark m -------------------------------

  function SplitCommas(s: string): (parts: Fields)
    ensures parts != []
  {
    if s == [] then [""]
    else
      var rest := SplitCommas(s[1..]);
      if s[0] == ',' then [""] + rest else [[s[0]] + rest[0]] + rest[1..]
  }

  function PortList(field: Option<string>): seq<Option<nat>> {
    match field
    case None => []
    case Some(s) => PortNumbers(SplitCommas(s))
  }

  function IptStamp(line: Fields, p: Packet): Option<int> {
    if FieldAfter(line, "-p") != Some(p.proto) || Some(p.dport) !in PortList(FirstOf(line, "--dport", "--dports")) then None
    else ParseInt32(TextOf(FieldAfter(line, "--set-mark")))
  }

  function NftStamps(lines: seq<Fields>, p: Packet): seq<Option<int>> {
    seq(|lines|, i requires 0 <= i < |lines| => NftStamp(lines[i], p))
  }

  function IptStamps(lines: seq<Fields>, p: Packet): seq<Option<int>> {
    seq(|lines|, i requires 0 <= i < |lines| => IptStamp(lines[i], p))
  }

  // ----- port texts -----------------------------------------------------------------------------

  function Each(ports: seq<nat>): seq<Option<nat>> {
    seq(|ports|, i requires 0 <= i < |ports| => Some(ports[i]))
  }

  lemma EachMember(ports: seq<nat>, d: nat)
    ensures Some(d) in Each(ports) <==> d in ports
  {
    if d in ports {
      assert Each(ports)[IndexOf(ports, d)] == Some(d);
    }
  }

  lemma {:induction false} FirstPiece(a: string, b: string)
    requires ',' !in a && b != []
    ensures Pieces(a + "," + b) == [a + ","] + Pieces(b)
  {
    var s := a + "," + b;
    if a != [] {
      assert s[1..] == a[1..] + "," + b;
      FirstPiece(a[1..], b);
      assert a[0] in a && s[0] == a[0];
      assert [a[0]] + (a[1..] + ",") == a + ",";
    } else {
      assert s[1..] == b && s[0] == ',';
      assert a + "," == [s[0]];
    }
  }

  lemma {:induction false} OnePiece(a: string)
    requires ',' !in a && a != []
    ensures Pieces(a) == [a]
  {
    assert a[0] in a;
    if |a| > 1 {
      OnePiece(a[1..]);
      assert [a[0]] + a[1..] == a;
    } else {
      assert a[1..] == [] && [a[0]] == a;
    }
  }

  lemma {:induction false} FirstPart(a: string, b: string)
    requires ',' !in a
    ensures SplitCommas(a + "," + b) == [a] + SplitCommas(b)
  {
    var s := a + "," + b;
    if a != [] {
      assert s[1..] == a[1..] + "," + b;
      FirstPart(a[1..], b);
      assert a[0] in a && s[0] == a[0];
      assert [a[0]] + a[1..] == a;
    } else {
      assert s[1..] == b && s[0] == ',';
    }
  }

  lemma {:induction false} OnePart(a: string)
    requires ',' !in a
    ensures SplitCommas(a) == [a]
  {
    if a != [] {
      OnePart(a[1..]);
      assert a[0] in a;
      assert [a[0]] + a[1..] == a;
    }
  }

  lemma ElementsFrom(piece: string, pieces: Fields)
    ensures Elements([piece] + pieces) == [ReadDigits(Bare(piece), 10)] + Elements(pieces)
  {
  }

  lemma PortPiece(port: nat)
    ensures var s := Itoa(port); Bare(s) == Bare(s + ",") == s && ReadDigits(s, 10) == Some(port)
  {
    DecimalDigits(port);
    FormatReadsBack(port, 10);
    var s := Itoa(port);
    assert s[|s| - 1] in s;
    assert (s + ",")[..|s|] == s;
  }

  lemma {:induction false} PiecesAreThePorts(ports: seq<nat>)
    requires ports != []
    ensures Elements(Pieces(PortText(ports))) == Each(ports)
  {
    var first := Itoa(ports[0]);
    DecimalDigits(ports[0]);
    PortPiece(ports[0]);
    if |ports| == 1 {
      OnePiece(first);
    } else {
      var rest := PortText(ports[1..]);
      PortTextIsASet(ports[1..]);
      FirstPiece(first, rest);
      PiecesAreThePorts(ports[1..]);
      ElementsFrom(first + ",", Pieces(rest));
      assert Each(ports) == [Some(ports[0])] + Each(ports[1..]);
    }
  }

  function PortNumbers(parts: Fields): seq<Option<nat>> {
    seq(|parts|, i requires 0 <= i < |parts| => ReadDigits(parts[i], 10))
  }

  lemma NumbersFrom(part: string, parts: Fields)
    ensures PortNumbers([part] + parts) == [ReadDigits(part, 10)] + PortNumbers(parts)
  {
  }

  lemma {:induction false} PartsAreThePorts(ports: seq<nat>)
    requires ports != []
    ensures PortNumbers(SplitCommas(PortText(ports))) == Each(ports)
  {
    var first := Itoa(ports[0]);
    DecimalDigits(ports[0]);
    PortPiece(ports[0]);
    if |ports| == 1 {
      OnePart(first);
    } else {
      var rest := PortText(ports[1..]);
      FirstPart(first, rest);
      PartsAreThePorts(ports[1..]);
      NumbersFrom(first, SplitCommas(rest));
      assert Each(ports) == [Some(ports[0])] + Each(ports[1..]);
    }
  }

  // ----- one rule --------------------------------------------------------------------------------

  /** r was made for these ports. */
  predicate For(r: MarkRule, ports: seq<nat>) {
    ports != [] && r.ports == PortText(ports) && Printable(r)
  }

  function Stamp(r: MarkRule, ports: seq<nat>, p: Packet): Option<int> {
    if r.proto == p.proto && p.dport in ports && (r.saddr == "" || r.saddr in p.inside) then Some(r.mark) else None
  }

  lemma NftMatchMeans(r: MarkRule, ports: seq<nat>, p: Packet)
    requires For(r, ports)
    ensures NftMatchStamp(NftMatch(r, Written), p) == if r.proto == p.proto && p.dport in ports then Some(r.mark) else None
  {
    var line := NftMatch(r, Written);
    var pieces := Pieces(r.ports);
    var n := |line|;
    assert line == [r.proto, "dport", "{"] + pieces + ["}", "meta", "mark", "set", Itoa(r.mark)];
    assert line[3..n - 5] == pieces;
    PiecesAreThePorts(ports);
    EachMember(ports, p.dport);
    ItoaReadsBack(r.mark);
  }

  lemma NftLineMeans(r: MarkRule, ports: seq<nat>, p: Packet)
    requires For(r, ports)
    ensures NftStamp(NftLine(r, Written), p) == Stamp(r, ports, p)
  {
    NftMatchMeans(r, ports, p);
    var line := NftLine(r, Written);
    if r.saddr != "" {
      assert line[3..] == NftMatch(r, Written);
    } else {
      assert line == NftMatch(r, Written);
    }
  }

  lemma IptLineMeans(chain: string, r: MarkRule, ports: seq<nat>, p: Packet)
    requires For(r, ports) && ChainName(chain) && r.saddr == ""
    ensures IptStamp(IptLine(chain, r, Written), p) == Stamp(r, ports, p)
  {
    IptOptionsFound(chain, r, Written);
    IptMarkFound(chain, r, Written);
    PartsAreThePorts(ports);
    EachMember(ports, p.dport);
    ItoaReadsBack(r.mark);
  }

  // ----- from the configuration to packets ----------------------------------------------------------

  /** The port rule, as configured, applies to the packet. */
  predicate Applies(gateways: seq<string>, family: Family, rule: PortRule, p: Packet) {
    && rule.gateway in gateways
    && p.dport in rule.ports
    && (p.proto == "tcp" || p.proto == "udp") && (rule.proto == p.proto || (rule.proto != "tcp" && rule.proto != "udp"))
    && (family.V4? || exists m :: m in family.mapped && m.uplink == rule.gateway && (m.prefix == "" || m.prefix in p.inside))
  }

  /** The mark of the last configured rule that applies. */
  function Wanted(gateways: seq<string>, family: Family, rules: seq<PortRule>, p: Packet): int {
    if rules == [] then 0
    else
      var n := |rules| - 1;
      if Applies(gateways, family, rules[n], p) then IndexOf(gateways, rules[n].gateway) + 1
      else Wanted(gateways, family, rules[..n], p)
  }

  predicate Silent(stamps: seq<Option<int>>) {
    forall i :: 0 <= i < |stamps| ==> stamps[i].None?
  }

  lemma {:induction false} LastOfJoin(a: seq<Option<int>>, b: seq<Option<int>>)
    ensures LastOf(a + b) == if Silent(b) then LastOf(a) else LastOf(b)
  {
    if b == [] {
      assert a + b == a;
    } else {
      var n := |b| - 1;
      assert (a + b)[..|a + b| - 1] == a + b[..n];
      LastOfJoin(a, b[..n]);
      assert b[n].None? ==> (Silent(b) <==> Silent(b[..n]));
    }
  }

  lemma {:induction false} LastOfSame(b: seq<Option<int>>, mark: int)
    requires forall i :: 0 <= i < |b| ==> b[i] == None || b[i] == Some(mark)
    ensures !Silent(b) ==> LastOf(b) == mark
  {
    if b != [] {
      var n := |b| - 1;
      LastOfSame(b[..n], mark);
      assert b[n].None? ==> (Silent(b) <==> Silent(b[..n]));
    }
  }

  function Stamps(rules: seq<MarkRule>, ports: seq<nat>, p: Packet): seq<Option<int>> {
    seq(|rules|, i requires 0 <= i < |rules| => Stamp(rules[i], ports, p))
  }

  lemma BlockRule(gateways: seq<string>, family: Family, rule: PortRule, i: nat)
    requires i < |RulesOf(gateways, family, rule)| && |gateways| < INT32_LIMIT
    ensures var r := RulesOf(gateways, family, rule)[i];
            For(r, rule.ports) && r.mark == Mark(gateways, rule.gateway) && (family.V4? ==> r.saddr == "")
  {
    RulesOfFacts(gateways, family, rule, RulesOf(gateways, family, rule)[i]);
    BlockMembers(Sources(family, rule.gateway), ProtocolsFor(rule.proto), PortText(rule.ports),
                 Mark(gateways, rule.gateway), RulesOf(gateways, family, rule)[i]);
  }

  lemma SomeSourceFits(gateways: seq<string>, family: Family, rule: PortRule, p: Packet) returns (saddr: string)
    requires Applies(gateways, family, rule, p)
    ensures saddr in Sources(family, rule.gateway) && (saddr == "" || saddr in p.inside)
  {
    if family.V4? {
      saddr := "";
    } else {
      var m :| m in family.mapped && m.uplink == rule.gateway && (m.prefix == "" || m.prefix in p.inside);
      saddr := m.prefix;
      PrefixMembers(family.mapped, rule.gateway, saddr);
      assert m == Mapped(rule.gateway, saddr);
    }
  }

  /** Some rule of the block stamps the packet exactly when the port rule applies to it. */
  lemma BlockStamps(gateways: seq<string>, family: Family, rule: PortRule, p: Packet)
    requires |gateways| < INT32_LIMIT
    ensures !Silent(Stamps(RulesOf(gateways, family, rule), rule.ports, p)) <==> Applies(gateways, family, rule, p)
  {
    var block := RulesOf(gateways, family, rule);
    var stamps := Stamps(block, rule.ports, p);
    if Applies(gateways, family, rule, p) {
      var saddr := SomeSourceFits(gateways, family, rule, p);
      var r := MarkRule(p.proto, PortText(rule.ports), Mark(gateways, rule.gateway), saddr);
      BlockMembers(Sources(family, rule.gateway), ProtocolsFor(rule.proto), PortText(rule.ports), r.mark, r);
      assert stamps[IndexOf(block, r)] == Some(r.mark);
    }
    if i :| 0 <= i < |stamps| && stamps[i].Some? {
      RuleApplies(gateways, family, rule, block[i], p);
    }
  }

  lemma RuleApplies(gateways: seq<string>, family: Family, rule: PortRule, r: MarkRule, p: Packet)
    requires r in RulesOf(gateways, family, rule) && Stamp(r, rule.ports, p).Some?
    ensures Applies(gateways, family, rule, p)
  {
    RulesOfFacts(gateways, family, rule, r);
    BlockMembers(Sources(family, rule.gateway), ProtocolsFor(rule.proto), PortText(rule.ports),
                 Mark(gateways, rule.gateway), r);
    if family.V6? {
      PrefixMembers(family.mapped, rule.gateway, r.saddr);
      assert Mapped(rule.gateway, r.saddr).uplink == rule.gateway;
    }
  }

  lemma BlockMark(gateways: seq<string>, family: Family, rule: PortRule, p: Packet)
    requires |gateways| < INT32_LIMIT
    ensures var stamps := Stamps(RulesOf(gateways, family, rule), rule.ports, p);
            && (Silent(stamps) <==> !Applies(gateways, family, rule, p))
            && (Applies(gateways, family, rule, p) ==> LastOf(stamps) == Mark(gateways, rule.gateway))
  {
    var block := RulesOf(gateways, family, rule);
    var mark := Mark(gateways, rule.gateway);
    forall i | 0 <= i < |block|
      ensures block[i].mark == mark
    {
      BlockRule(gateways, family, rule, i);
    }
    LastOfSame(Stamps(block, rule.ports, p), mark);
    BlockStamps(gateways, family, rule, p);
  }

  lemma NftBlock(gateways: seq<string>, family: Family, rule: PortRule, p: Packet)
    requires |gateways| < INT32_LIMIT && Marked(RulesOf(gateways, family, rule))
    ensures var block := RulesOf(gateways, family, rule);
            NftStamps(NftRuleLines(block, Written), p) == Stamps(block, rule.ports, p)
  {
    var block := RulesOf(gateways, family, rule);
    forall i | 0 <= i < |block|
      ensures NftStamp(NftLine(block[i], Written), p) == Stamp(block[i], rule.ports, p)
    {
      BlockRule(gateways, family, rule, i);
      NftLineMeans(block[i], rule.ports, p);
    }
  }

  lemma IptBlock(chain: string, gateways: seq<string>, rule: PortRule, p: Packet)
    requires |gateways| < INT32_LIMIT && Marked(RulesOf(gateways, V4, rule)) && ChainName(chain)
    ensures var block := RulesOf(gateways, V4, rule);
            IptStamps(IptRuleLines(chain, block, Written), p) == Stamps(block, rule.ports, p)
  {
    var block := RulesOf(gateways, V4, rule);
    forall i | 0 <= i < |block|
      ensures IptStamp(IptLine(chain, block[i], Written), p) == Stamp(block[i], rule.ports, p)
    {
      BlockRule(gateways, V4, rule, i);
      IptLineMeans(chain, block[i], rule.ports, p);
    }
  }

  lemma NftStampsJoin(a: seq<MarkRule>, b: seq<MarkRule>, p: Packet)
    requires Marked(a + b)
    ensures Marked(a) && Marked(b)
    ensures NftStamps(NftRuleLines(a + b, Written), p) ==
            NftStamps(NftRuleLines(a, Written), p) + NftStamps(NftRuleLines(b, Written), p)
  {
    assert forall i :: 0 <= i < |a| ==> a[i] == (a + b)[i];
    assert forall i :: 0 <= i < |b| ==> b[i] == (a + b)[|a| + i];
  }

  lemma IptStampsJoin(chain: string, a: seq<MarkRule>, b: seq<MarkRule>, p: Packet)
    requires Marked(a + b)
    ensures Marked(a) && Marked(b)
    ensures IptStamps(IptRuleLines(chain, a + b, Written), p) ==
            IptStamps(IptRuleLines(chain, a, Written), p) + IptStamps(IptRuleLines(chain, b, Written), p)
  {
    assert forall i :: 0 <= i < |a| ==> a[i] == (a + b)[i];
    assert forall i :: 0 <= i < |b| ==> b[i] == (a + b)[|a| + i];
  }

  /** nft stamps every packet with the mark the configuration asks for. */
  lemma {:induction false} NftFollowsConfig(gateways: seq<string>, family: Family, rules: seq<PortRule>, p: Packet)
    requires |gateways| < INT32_LIMIT
    ensures Marked(MarkRules(gateways, family, rules))
    ensures LastOf(NftStamps(NftRuleLines(MarkRules(gateways, family, rules), Written), p)) == Wanted(gateways, family, rules, p)
  {
    WantedIsPrintable(gateways, family, rules);
    if rules != [] {
      var n := |rules| - 1;
      NftFollowsConfig(gateways, family, rules[..n], p);
      var before, block := MarkRules(gateways, family, rules[..n]), RulesOf(gateways, family, rules[n]);
      NftStampsJoin(before, block, p);
      NftBlock(gateways, family, rules[n], p);
      BlockMark(gateways, family, rules[n], p);
      LastOfJoin(NftStamps(NftRuleLines(before, Written), p), NftStamps(NftRuleLines(block, Written), p));
    }
  }

  /** So does iptables; the two backends agree on every IPv4 packet. */
  lemma {:induction false} IptFollowsConfig(chain: string, gateways: seq<string>, rules: seq<PortRule>, p: Packet)
    requires |gateways| < INT32_LIMIT && ChainName(chain)
    ensures Marked(MarkRules(gateways, V4, rules))
    ensures LastOf(IptStamps(IptRuleLines(chain, MarkRules(gateways, V4, rules), Written), p)) == Wanted(gateways, V4, rules, p)
  {
    WantedIsPrintable(gateways, V4, rules);
    if rules != [] {
      var n := |rules| - 1;
      IptFollowsConfig(chain, gateways, rules[..n], p);
      var before, block := MarkRules(gateways, V4, rules[..n]), RulesOf(gateways, V4, rules[n]);
      IptStampsJoin(chain, before, block, p);
      IptBlock(chain, gateways, rules[n], p);
      BlockMark(gateways, V4, rules[n], p);
      LastOfJoin(IptStamps(IptRuleLines(chain, before, Written), p), IptStamps(IptRuleLines(chain, block, Written), p));
    }
  }
}
