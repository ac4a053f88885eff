/** What the textual tests of the daemon mean: a line's text, its numbers, its fields. */
module RuleTexts {
  import opened Common
  import opened Tokens
  import opened Numbers
  import opened Routes
  import opened Desired
  import opened Plan

  // ----- fields and the text they came from -----------------------------------------------------

  /** The fields with one blank between them. */
  function Joined(fields: Fields): string {
    if fields == [] then "" else if |fields| == 1 then fields[0] else fields[0] + " " + Joined(fields[1..])
  }

  predicate NoBlanks(fields: Fields) {
    forall f :: f in fields ==> ' ' !in f
  }

  /** The text begins with the words: all but the last are whole fields. */
  predicate Begins(line: Fields, words: Fields) {
    && 0 < |words| <= |line|
    && (forall i :: 0 <= i < |words| - 1 ==> line[i] == words[i])
    && HasPrefix(line[|words| - 1], words[|words| - 1])
  }

  lemma PrefixStep(s: string, p: string)
    requires s != "" && p != ""
    ensures HasPrefix(s, p) <==> s[0] == p[0] && HasPrefix(s[1..], p[1..])
  {
    if s[0] == p[0] && HasPrefix(s[1..], p[1..]) {
      assert s[..|p|] == [s[0]] + s[1..][..|p| - 1];
    }
    if HasPrefix(s, p) {
      assert s[1..][..|p| - 1] == s[..|p|][1..];
    }
  }

  lemma {:induction false} FirstBlank(a: string, rest: string, b: string, tail: string)
    requires ' ' !in a && ' ' !in b
    ensures HasPrefix(a + " " + rest, b + " " + tail) <==> a == b && HasPrefix(rest, tail)
    decreases |a|
  {
    var s, p := a + " " + rest, b + " " + tail;
    PrefixStep(s, p);
    if a == "" || b == "" {
      assert a != "" ==> a[0] in a;
      assert b != "" ==> b[0] in b;
      assert a == "" ==> s[0] == ' ' && s[1..] == rest;
      assert b == "" ==> p[0] == ' ' && p[1..] == tail;
    } else {
      assert s[1..] == a[1..] + " " + rest && p[1..] == b[1..] + " " + tail;
      FirstBlank(a[1..], rest, b[1..], tail);
      assert a == b <==> a[0] == b[0] && a[1..] == b[1..] by {
        assert a == [a[0]] + a[1..] && b == [b[0]] + b[1..];
      }
    }
  }

  lemma {:induction false} BlankFree(a: string, b: string, tail: string)
    requires ' ' !in a
    ensures !HasPrefix(a, b + " " + tail)
    decreases |a|
  {
    var p := b + " " + tail;
    if a != "" {
      PrefixStep(a, p);
      assert a[0] in a;
      if b == "" {
        assert p[0] == ' ';
      } else {
        assert p[1..] == b[1..] + " " + tail;
        BlankFree(a[1..], b[1..], tail);
      }
    }
  }

  lemma {:induction false} WordBeforeBlank(a: string, rest: string, word: string)
    requires ' ' !in word
    ensures HasPrefix(a + " " + rest, word) <==> HasPrefix(a, word)
    decreases |word|
  {
    if word != "" {
      var s := a + " " + rest;
      PrefixStep(s, word);
      assert word[0] in word;
      if a == "" {
        assert s[0] == ' ';
      } else {
        PrefixStep(a, word);
        assert s[1..] == a[1..] + " " + rest;
        WordBeforeBlank(a[1..], rest, word[1..]);
      }
    }
  }

  /** A text that begins like another's words. */
  lemma {:induction false} BeginsMeans(line: Fields, words: Fields)
    requires line != [] && words != [] && NoBlanks(line) && NoBlanks(words)
    ensures HasPrefix(Joined(line), Joined(words)) <==> Begins(line, words)
    decreases |words|
  {
    if |words| == 1 {
      OneWord(line, words[0]);
    } else if |line| == 1 {
      BlankFree(line[0], words[0], Joined(words[1..]));
    } else {
      FirstBlank(line[0], Joined(line[1..]), words[0], Joined(words[1..]));
      BeginsMeans(line[1..], words[1..]);
      BeginsStep(line, words);
    }
  }

  lemma BeginsStep(line: Fields, words: Fields)
    requires |line| >= 2 && |words| >= 2
    ensures Begins(line, words) <==> line[0] == words[0] && Begins(line[1..], words[1..])
  {
    if line[0] == words[0] && Begins(line[1..], words[1..]) {
      forall i | 0 <= i < |words| - 1
        ensures line[i] == words[i]
      {
        assert i > 0 ==> line[1..][i - 1] == words[1..][i - 1];
      }
    }
  }

  lemma OneWord(line: Fields, word: string)
    requires line != [] && NoBlanks(line) && ' ' !in word
    ensures HasPrefix(Joined(line), word) <==> HasPrefix(line[0], word)
  {
    if |line| > 1 {
      WordBeforeBlank(line[0], Joined(line[1..]), word);
    }
  }

  /** Where a text of at least two words can stand in one that begins with a field. */
  lemma {:induction false} ContainsFrom(a: string, rest: string, b: string, tail: string)
    requires ' ' !in a && ' ' !in b
    ensures Contains(a + " " + rest, b + " " + tail) <==> (HasSuffix(a, b) && HasPrefix(rest, tail)) || Contains(rest, b + " " + tail)
    decreases |a|
  {
    var s, p := a + " " + rest, b + " " + tail;
    FirstBlank(a, rest, b, tail);
    if a == "" {
      assert s[1..] == rest;
      assert HasSuffix(a, b) <==> b == "";
    } else {
      assert s[1..] == a[1..] + " " + rest;
      ContainsFrom(a[1..], rest, b, tail);
      SuffixStep(a, b);
    }
  }

  lemma SuffixStep(a: string, b: string)
    requires a != ""
    ensures HasSuffix(a, b) <==> a == b || HasSuffix(a[1..], b)
  {
    if |b| < |a| {
      assert a[|a| - |b|..] == a[1..][|a| - 1 - |b|..];
    }
  }

  lemma {:induction false} NotInBlankFree(a: string, b: string, tail: string)
    requires ' ' !in a
    ensures !Contains(a, b + " " + tail)
    decreases |a|
  {
    BlankFree(a, b, tail);
    if a != "" {
      NotInBlankFree(a[1..], b, tail);
    }
  }

  /** The words are found among the fields exactly when the text of the words, one blank apart, is found
      in the text of the fields. */
  lemma {:induction false} WordsAreText(line: Fields, words: Fields)
    requires |words| >= 2 && NoBlanks(line) && NoBlanks(words)
    ensures ContainsWords(line, words) <==> Contains(Joined(line), Joined(words))
    decreases |line|
  {
    var tail := Joined(words[1..]);
    if line == [] {
      assert !ContainsWords(line, words);
    } else if |line| == 1 {
      NotInBlankFree(line[0], words[0], tail);
    } else {
      ContainsFrom(line[0], Joined(line[1..]), words[0], tail);
      BeginsMeans(line[1..], words[1..]);
      WordsAreText(line[1..], words);
      WordsStep(line, words);
    }
  }

  lemma WordsStep(line: Fields, words: Fields)
    requires |line| >= 2 && |words| >= 2
    ensures ContainsWords(line, words) <==> (HasSuffix(line[0], words[0]) && Begins(line[1..], words[1..])) || ContainsWords(line[1..], words)
  {
    var n := |words| - 1;
    if i :| 0 <= i <= |line| - |words| && WordsAt(line, words, i) {
      if i == 0 {
        FirstWords(line, words);
      } else {
        ShiftWords(line, words, i - 1);
      }
    }
    if HasSuffix(line[0], words[0]) && Begins(line[1..], words[1..]) {
      FirstWords(line, words);
    }
    if i :| 0 <= i <= |line[1..]| - |words| && WordsAt(line[1..], words, i) {
      ShiftWords(line, words, i);
    }
  }

  lemma FirstWords(line: Fields, words: Fields)
    requires 2 <= |words| && 2 <= |line|
    ensures |words| <= |line| ==> (WordsAt(line, words, 0) <==> HasSuffix(line[0], words[0]) && Begins(line[1..], words[1..]))
  {
    if |words| <= |line| {
      var n := |words| - 1;
      if line[1..n] == words[1..n] {
        forall i | 0 <= i < n - 1
          ensures line[1..][i] == words[1..][i]
        {
          assert line[1..n][i] == words[1..n][i];
        }
      }
      if forall i :: 0 <= i < n - 1 ==> line[1..][i] == words[1..][i] {
        forall i | 0 <= i < n - 1
          ensures line[1..n][i] == words[1..n][i]
        {
          assert line[1..][i] == words[1..][i];
        }
      }
    }
  }

  lemma ShiftWords(line: Fields, words: Fields, i: nat)
    requires |words| >= 2 && line != [] && i + |words| <= |line| - 1
    ensures WordsAt(line[1..], words, i) <==> WordsAt(line, words, i + 1)
  {
    var n := |words| - 1;
    assert line[1..][i + 1..i + n] == line[i + 2..i + 1 + n];
  }

  // ----- what is read of a line ----------------------------------------------------------------------

  /** The value stands behind the first field with the key that anything follows. */
  ghost predicate Follows(line: Fields, key: string, value: string) {
    exists i :: 0 <= i < |line| - 1 && line[i] == key && line[i + 1] == value && key !in line[..i]
  }

  lemma {:induction false} FollowsMeans(line: Fields, key: string)
    ensures forall v :: FieldAfter(line, key) == Some(v) <==> Follows(line, key, v)
  {
    if |line| >= 2 {
      FollowsMeans(line[1..], key);
      forall v
        ensures FieldAfter(line, key) == Some(v) <==> Follows(line, key, v)
      {
        FollowsStep(line, key, v);
      }
    }
  }

  lemma FollowsStep(line: Fields, key: string, v: string)
    requires |line| >= 2
    ensures Follows(line, key, v) <==> if line[0] == key then line[1] == v else Follows(line[1..], key, v)
  {
    if i :| 0 <= i < |line| - 1 && line[i] == key && line[i + 1] == v && key !in line[..i] {
      if i > 0 {
        assert line[0] in line[..i];
        assert line[1..][i - 1] == key && line[1..][i] == v && line[1..][..i - 1] == line[..i][1..];
      }
    }
    if line[0] != key {
      if i :| 0 <= i < |line[1..]| - 1 && line[1..][i] == key && line[1..][i + 1] == v && key !in line[1..][..i] {
        assert line[..i + 1] == [line[0]] + line[1..][..i];
        assert line[i + 1] == key && line[i + 2] == v;
      }
    }
  }

  /** A rule line's priority is its first field, up to a colon; its table the field behind "lookup". */
  lemma LookupExactly(line: Fields, prio: int, table: int)
    ensures ParseLookup(line) == Some(Lookup(prio, table)) <==>
            && |line| >= 2
            && Atoi(if line[0] != "" && line[0][|line[0]| - 1] == ':' then line[0][..|line[0]| - 1] else line[0]) == Some(prio)
            && exists text :: Follows(line, "lookup", text) && Atoi(text) == Some(table)
  {
    FollowsMeans(line, "lookup");
    if FieldAfter(line, "lookup").Some? {
      assert Follows(line, "lookup", FieldAfter(line, "lookup").value);
    }
  }

  /** Exactly which lines are taken for per-gateway rules: priority 1000 more than the table, which is
      one of the daemon's. */
  lemma GatewayRuleExactly(rt: RouteOptions, line: Fields, ifIndex: nat)
    ensures GatewayRuleIf(rt, line) == Some(ifIndex) <==>
            rt.offset + ifIndex < 253 && ParseLookup(line) == Some(Lookup(1000 + rt.offset + ifIndex, rt.offset + ifIndex))
  {
  }

  ghost predicate Ascend(ifs: seq<nat>) {
    forall i, j :: 0 <= i < j < |ifs| ==> ifs[i] < ifs[j]
  }

  lemma {:induction false} PlaceIfAdds(ifs: seq<nat>, x: nat, y: nat)
    ensures y in PlaceIf(ifs, x) <==> y in ifs || y == x
  {
    if ifs != [] {
      var n := |ifs| - 1;
      assert ifs == ifs[..n] + [ifs[n]];
      PlaceIfAdds(ifs[..n], x, y);
    }
  }

  lemma {:induction false} PlaceIfAscends(ifs: seq<nat>, x: nat)
    requires Ascend(ifs)
    ensures Ascend(PlaceIf(ifs, x))
  {
    if ifs != [] && x < ifs[|ifs| - 1] {
      var n := |ifs| - 1;
      PlaceIfAscends(ifs[..n], x);
      var placed := PlaceIf(ifs[..n], x);
      forall i | 0 <= i < |placed|
        ensures placed[i] < ifs[n]
      {
        PlaceIfAdds(ifs[..n], x, placed[i]);
      }
    }
  }

  /** Exactly which interfaces have per-gateway rules in a listing; each is found once, in ascending
      order. */
  lemma {:induction false} GatewayIfsExactly(rt: RouteOptions, lines: seq<Fields>, ifIndex: nat)
    ensures Ascend(GatewayRuleIfs(rt, lines))
    ensures ifIndex in GatewayRuleIfs(rt, lines) <==>
            exists line :: line in lines && rt.offset + ifIndex < 253
                           && ParseLookup(line) == Some(Lookup(1000 + rt.offset + ifIndex, rt.offset + ifIndex))
  {
    if lines != [] {
      var n := |lines| - 1;
      assert lines == lines[..n] + [lines[n]];
      GatewayIfsExactly(rt, lines[..n], ifIndex);
      GatewayRuleExactly(rt, lines[n], ifIndex);
      var x := GatewayRuleIf(rt, lines[n]);
      if x.Some? {
        PlaceIfAscends(GatewayRuleIfs(rt, lines[..n]), x.value);
        PlaceIfAdds(GatewayRuleIfs(rt, lines[..n]), x.value, ifIndex);
      }
    }
  }

  /** And for fwmark rules: some field has the word in it, and the table is one of the daemon's. */
  lemma FwmarkExactly(rt: RouteOptions, line: Fields, x: InstalledFwmark)
    ensures FwmarkIn(rt, line) == Some(x) <==>
            && (exists f :: f in line && Contains(f, "fwmark"))
            && rt.offset + x.ifIndex < 253 && ParseLookup(line) == Some(Lookup(x.prio, rt.offset + x.ifIndex))
  {
    if f :| f in line && Contains(f, "fwmark") {
      assert line[IndexOf(line, f)] == f;
    }
  }

  /** One text in another. */
  lemma {:induction false} ContainsMeans(s: string, part: string)
    ensures Contains(s, part) <==> exists a, b :: s == a + part + b
  {
    if HasPrefix(s, part) {
      assert s == "" + part + s[|part|..];
    }
    if s != "" {
      ContainsMeans(s[1..], part);
      if a, b :| s[1..] == a + part + b {
        assert s == ([s[0]] + a) + part + b;
      }
    }
    if a, b :| s == a + part + b {
      if a == "" {
        assert s[..|part|] == part;
      } else {
        assert s[1..] == a[1..] + part + b;
      }
    }
  }

  /** Exactly which default routes are taken up: those that do not refuse, over a named link other than
      lo; a gateway that is no address of the family counts as none. */
  lemma ObservedExactly(line: Fields, addresses: set<string>, hop: Hop)
    ensures ObservedIn(line, addresses).Some? && ObservedIn(line, addresses).value.hop == hop <==>
            && line != [] && line[0] !in {"unreachable", "blackhole", "prohibit", "throw"}
            && hop.dev != "" && hop.dev != "lo" && Follows(line, "dev", hop.dev)
            && if exists via :: Follows(line, "via", via) && via in addresses then Follows(line, "via", hop.via) else hop.via == ""
  {
    FollowsMeans(line, "dev");
    FollowsMeans(line, "via");
  }
}
