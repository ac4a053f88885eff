/** Numbers as the tools print them and as strconv.ParseInt with base 0 reads them. */
module Numbers {
  import opened Common

  function Digit(d: nat): (c: char)
    requires d < 16
    ensures DigitValue(c) == d && (d != 0 ==> c != '0') && c !in "+-,;/{}"
  {
    if d < 10 then '0' + d as char else 'a' + (d - 10) as char
  }

  function DigitValue(c: char): nat {
    if '0' <= c <= '9' then (c - '0') as nat
    else if 'a' <= c <= 'z' then (c - 'a') as nat + 10
    else if 'A' <= c <= 'Z' then (c - 'A') as nat + 10
    else 36
  }

  /** Without leading zeros. */
  function Format(n: nat, base: nat): (s: string)
    requires base == 10 || base == 16
    ensures s != [] && (n != 0 ==> s[0] != '0')
    ensures forall c :: c in s ==> c !in "+-,;/{}"
  {
    if n < base then [Digit(n)]
    else
      Shrinks(n, base);
      Format(n / base, base) + [Digit(n % base)]
  }

  lemma Shrinks(n: nat, base: nat)
    requires base <= n && (base == 10 || base == 16)
    ensures 0 < n / base < n && n / base * base + n % base == n
  {
    if base == 10 {
      assert 0 < n / 10 < n && n / 10 * 10 + n % 10 == n;
    } else {
      assert 0 < n / 16 < n && n / 16 * 16 + n % 16 == n;
    }
  }

  function Itoa(n: nat): string {
    Format(n, 10)
  }

  /** Digits below the base, most significant first; the empty text is zero. */
  function ReadDigits(s: string, base: nat): Option<nat>
    requires 2 <= base <= 16
  {
    if s == [] then Some(0)
    else
      var n := |s| - 1;
      var high := ReadDigits(s[..n], base);
      var d := DigitValue(s[n]);
      if high.None? || d >= base then None else Some(high.value * base + d)
  }

  predicate Prefixed(s: string, lower: char, upper: char) {
    |s| >= 3 && s[0] == '0' && (s[1] == lower || s[1] == upper)
  }

  /** The spelling chooses the base: 0x, 0o, 0b, a bare leading 0 for octal, else decimal. */
  function ReadUnsigned(s: string): Option<nat> {
    if s == "" then None
    else if Prefixed(s, 'x', 'X') then ReadDigits(s[2..], 16)
    else if Prefixed(s, 'b', 'B') then ReadDigits(s[2..], 2)
    else if Prefixed(s, 'o', 'O') then ReadDigits(s[2..], 8)
    else if s[0] == '0' then ReadDigits(s[1..], 8)
    else ReadDigits(s, 10)
  }

  const INT32_LIMIT: nat := 0x8000_0000

  function ParseInt32(s: string): Option<int> {
    if s == "" then None
    else
      var negative := s[0] == '-';
      var n := ReadUnsigned(if s[0] == '-' || s[0] == '+' then s[1..] else s);
      if n.None? || n.value >= (if negative then INT32_LIMIT + 1 else INT32_LIMIT) then None
      else Some(if negative then -(n.value as int) else n.value)
  }

  const INT64_LIMIT: nat := 0x8000_0000_0000_0000

  function Atoi(s: string): Option<int> {
    if s == "" then None
    else
      var negative := s[0] == '-';
      var digits := if s[0] == '-' || s[0] == '+' then s[1..] else s;
      var n := ReadDigits(digits, 10);
      if digits == "" || n.None? || n.value >= (if negative then INT64_LIMIT + 1 else INT64_LIMIT) then None
      else Some(if negative then -(n.value as int) else n.value)
  }

  // ----- what is printed reads back -----------------------------------------------------

  lemma ReadMore(s: string, d: nat, base: nat)
    requires 2 <= base <= 16 && d < base && ReadDigits(s, base).Some?
    ensures ReadDigits(s + [Digit(d)], base) == Some(ReadDigits(s, base).value * base + d)
  {
    var all := s + [Digit(d)];
    assert all[..|all| - 1] == s;
  }

  lemma {:induction false} FormatReadsBack(n: nat, base: nat)
    requires base == 10 || base == 16
    ensures ReadDigits(Format(n, base), base) == Some(n)
    decreases n
  {
    if n >= base {
      Shrinks(n, base);
      FormatReadsBack(n / base, base);
      ReadMore(Format(n / base, base), n % base, base);
    } else {
      assert Format(n, base)[..0] == [];
    }
  }

  /** How many zeros go in front does not matter. */
  lemma {:induction false} LeadingZeros(zeros: string, s: string)
    requires forall c :: c in zeros ==> c == '0'
    ensures ReadDigits(zeros + s, 16) == ReadDigits(s, 16)
    decreases |s|, |zeros|
  {
    var all := zeros + s;
    if s != [] {
      assert all[..|all| - 1] == zeros + s[..|s| - 1];
      LeadingZeros(zeros, s[..|s| - 1]);
    } else if zeros != [] {
      var n := |zeros| - 1;
      assert all[..n] == zeros[..n] + s;
      assert zeros[n] in zeros;
      assert forall c :: c in zeros[..n] ==> c in zeros;
      LeadingZeros(zeros[..n], s);
    }
  }

  /** Decimal reads back, as far as 32 bits go. */
  lemma ItoaReadsBack(n: nat)
    requires 0 < n
    ensures ParseInt32(Itoa(n)) == if n < 0x8000_0000 then Some(n) else None
  {
    FormatReadsBack(n, 10);
    var s := Itoa(n);
    assert s[0] in s;
    assert s[0] != '-' && s[0] != '+';
  }

  /** With a sign too, which makes room for one number more below zero. */
  lemma Signed32ReadsBack(n: nat, sign: char)
    requires 0 < n && (sign == '+' || sign == '-')
    ensures ParseInt32([sign] + Itoa(n)) ==
            if sign == '+' then (if n < 0x8000_0000 then Some(n) else None)
            else (if n <= 0x8000_0000 then Some(-(n as int)) else None)
  {
    FormatReadsBack(n, 10);
    var s := [sign] + Itoa(n);
    assert s[1..] == Itoa(n) && s[0] == sign;
    assert Itoa(n)[0] != '0';
  }

  /** And as far as 64 bits go. */
  lemma AtoiReadsBack(n: nat)
    ensures Atoi(Itoa(n)) == if n < 0x8000_0000_0000_0000 then Some(n) else None
  {
    FormatReadsBack(n, 10);
    assert Itoa(n)[0] in Itoa(n);
  }

  /** With a sign too, which makes room for one number more below zero. */
  lemma SignedReadsBack(n: nat, sign: char)
    requires sign == '+' || sign == '-'
    ensures Atoi([sign] + Itoa(n)) ==
            if sign == '+' then (if n < 0x8000_0000_0000_0000 then Some(n) else None)
            else (if n <= 0x8000_0000_0000_0000 then Some(-(n as int)) else None)
  {
    FormatReadsBack(n, 10);
    var s := [sign] + Itoa(n);
    assert s[1..] == Itoa(n);
  }

  /** A prefix names the base. */
  lemma PrefixNamesBase(s: string, p: char)
    requires s != ""
    ensures p == 'x' || p == 'X' ==> ReadUnsigned(['0', p] + s) == ReadDigits(s, 16)
    ensures p == 'o' || p == 'O' ==> ReadUnsigned(['0', p] + s) == ReadDigits(s, 8)
    ensures p == 'b' || p == 'B' ==> ReadUnsigned(['0', p] + s) == ReadDigits(s, 2)
  {
    var all := ['0', p] + s;
    assert all[0] == '0' && all[1] == p && all[2..] == s;
  }

  function Zeros(n: nat): seq<char> {
    seq(n, _ => '0')
  }

  function Padded(s: string, width: nat): string {
    if |s| < width then Zeros(width - |s|) + s else s
  }

  /** nft lists a mark as 0x and eight digits; iptables lists it without padding. */
  function Hex(n: nat, width: nat): string {
    ['0', 'x'] + Padded(Format(n, 16), width)
  }

  /** At least as many digits as asked for. */
  lemma HexIsWide(n: nat, width: nat)
    ensures |Hex(n, width)| >= 2 + width && Hex(n, width)[..2] == "0x"
    ensures |Format(n, 16)| >= width ==> Hex(n, width) == "0x" + Format(n, 16)
  {
  }

  lemma HexIsRead(s: string)
    requires s != []
    ensures ReadUnsigned(['0', 'x'] + s) == ReadDigits(s, 16)
  {
    var all := ['0', 'x'] + s;
    assert Prefixed(all, 'x', 'X');
    assert all[2..] == s;
  }

  lemma UnsignedIsRead(s: string, n: nat)
    requires s != [] && s[0] != '-' && s[0] != '+' && ReadUnsigned(s) == Some(n) && n < INT32_LIMIT
    ensures ParseInt32(s) == Some(n)
  {
  }

  lemma PaddingReadsBack(n: nat, width: nat)
    ensures ReadDigits(Padded(Format(n, 16), width), 16) == Some(n)
  {
    var s := Format(n, 16);
    FormatReadsBack(n, 16);
    if |s| < width {
      LeadingZeros(Zeros(width - |s|), s);
    }
  }

  /** Hexadecimal reads back, padded or not. */
  lemma HexReadsBack(n: nat, width: nat)
    requires n < INT32_LIMIT
    ensures ParseInt32(Hex(n, width)) == Some(n)
  {
    PaddingReadsBack(n, width);
    HexIsRead(Padded(Format(n, 16), width));
    UnsignedIsRead(Hex(n, width), n);
  }
}
