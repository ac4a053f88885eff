/** The echo request of the ICMP probe and its checksum. */
module Icmp {

  type Byte = b: nat | b < 256

  const WORD: nat := 0x1_0000
  const TWO_32: nat := 0x1_0000_0000

  /** The i-th 16-bit word, most significant byte first; an odd last byte stands high. */
  function WordAt(b: seq<Byte>, i: nat): (w: nat)
    requires 2 * i < |b|
    ensures w < WORD
  {
    var high: nat := b[2 * i];
    256 * high + if 2 * i + 1 < |b| then b[2 * i + 1] else 0
  }

  function Words(b: seq<Byte>): nat {
    (|b| + 1) / 2
  }

  /** The plain sum of the first n words. */
  function Sum(b: seq<Byte>, n: nat): nat
    requires n <= Words(b)
  {
    if n == 0 then 0 else Sum(b, n - 1) + WordAt(b, n - 1)
  }

  /** The sum of section 1 of RFC 1071: sixteen bits, each carry added back in. */
  function OnesAdd(x: nat, y: nat): (z: nat)
    requires x < WORD && y < WORD
    ensures z < WORD
  {
    if x + y < WORD then x + y else x + y - WORD + 1
  }

  function OnesSum(b: seq<Byte>, n: nat): (s: nat)
    requires n <= Words(b)
    ensures s < WORD
  {
    if n == 0 then 0 else OnesAdd(OnesSum(b, n - 1), WordAt(b, n - 1))
  }

  /** Halves added until one half is left. */
  function Fold(sum: nat): (s: nat)
    ensures s < WORD
  {
    if sum < WORD then sum else Fold(sum % WORD + sum / WORD)
  }

  /** Arithmetic as on a 32-bit register. */
  function Wrap(n: nat): nat {
    n % TWO_32
  }

  method SumWords(b: seq<Byte>) returns (sum: nat)
    requires |b| <= 2 * 65537
    ensures sum == Sum(b, Words(b)) && sum < TWO_32
  {
    sum := 0;
    var i := 0;
    while i + 1 < |b|
      invariant i % 2 == 0 && i <= |b| && i / 2 <= Words(b)
      invariant sum == Sum(b, i / 2) && sum < TWO_32
    {
      SumIsBounded(b, i / 2 + 1);
      var high: nat := b[i];
      assert WordAt(b, i / 2) == 256 * high + b[i + 1];
      sum := Wrap(sum + 256 * high + b[i + 1]);
      i := i + 2;
    }
    if |b| % 2 != 0 {
      SumIsBounded(b, i / 2 + 1);
      var high: nat := b[|b| - 1];
      assert WordAt(b, i / 2) == 256 * high;
      sum := Wrap(sum + 256 * high);
    }
  }

  method FoldCarries(total: nat) returns (sum: nat)
    ensures sum == Fold(total)
  {
    sum := total;
    while sum / WORD != 0
      invariant Fold(sum) == Fold(total)
      decreases sum
    {
      sum := sum % WORD + sum / WORD;
    }
  }

  method Checksum(b: seq<Byte>) returns (c: nat)
    requires |b| <= 2 * 65537
    ensures c == Complement(OnesSum(b, Words(b)))
  {
    var total := SumWords(b);
    var sum := FoldCarries(total);
    FoldedSum(b, Words(b));
    c := WORD - 1 - sum;
  }

  function Complement(x: nat): (c: nat)
    requires x < WORD
    ensures c < WORD
  {
    WORD - 1 - x
  }

  // ----- what the sum is ------------------------------------------------------------------

  /** Up to 65537 words the sum fits the register. */
  lemma {:induction false} SumIsBounded(b: seq<Byte>, n: nat)
    requires n <= Words(b) && n <= 65537
    ensures Sum(b, n) <= n * (WORD - 1) < TWO_32
  {
    if n > 0 {
      SumIsBounded(b, n - 1);
    }
  }

  /** One word more would not: 65538 words of all ones wrap. */
  lemma {:induction false} AllOnesSum(b: seq<Byte>, n: nat)
    requires n <= Words(b) && |b| % 2 == 0 && forall i :: 0 <= i < |b| ==> b[i] == 255
    ensures Sum(b, n) == n * (WORD - 1)
    ensures n == 65538 ==> Sum(b, n) >= TWO_32
  {
    if n > 0 {
      AllOnesSum(b, n - 1);
    }
  }

  /** Folding before or after adding a word makes no difference. */
  lemma {:induction false} FoldOfSum(s: nat, w: nat)
    requires w < WORD
    ensures Fold(s + w) == OnesAdd(Fold(s), w)
    decreases s
  {
    if s >= WORD {
      var t := s % WORD + s / WORD;
      FoldOfSum(t, w);
      FoldTwice(s, w);
    }
  }

  /** Adding a word first, and folding once, or folding once first, end up the same. */
  lemma FoldTwice(s: nat, w: nat)
    requires s >= WORD && w < WORD
    ensures Fold(s + w) == Fold(s % WORD + s / WORD + w)
  {
    var low, high := s % WORD, s / WORD;
    var t := low + high + w;
    if low + w < WORD {
      assert (s + w) % WORD == low + w && (s + w) / WORD == high;
    } else {
      assert (s + w) % WORD == low + w - WORD && (s + w) / WORD == high + 1;
      CarryAround(t);
    }
  }

  /** A carry may be brought around early. */
  lemma {:induction false} CarryAround(t: nat)
    requires t >= WORD
    ensures Fold(t) == Fold(t - WORD + 1)
    decreases t
  {
    var low, high := t % WORD, t / WORD;
    if t - WORD + 1 >= WORD {
      if low + 1 < WORD {
        assert (t - WORD + 1) % WORD == low + 1 && (t - WORD + 1) / WORD == high - 1;
      } else {
        assert (t - WORD + 1) % WORD == 0 && (t - WORD + 1) / WORD == high;
        CarryAround(low + high);
      }
    }
  }

  lemma {:induction false} FoldedSum(b: seq<Byte>, n: nat)
    requires n <= Words(b)
    ensures Fold(Sum(b, n)) == OnesSum(b, n)
  {
    if n > 0 {
      FoldedSum(b, n - 1);
      FoldOfSum(Sum(b, n - 1), WordAt(b, n - 1));
    }
  }

  // ----- the message --------------------------------------------------------------------------

  function Put16(x: nat): seq<Byte> {
    [x / 256 % 256, x % 256]
  }

  function Get16(b: seq<Byte>, at: nat): nat
    requires at + 2 <= |b|
  {
    var high: nat := b[at];
    256 * high + b[at + 1]
  }

  /** Type, code, checksum still zero, identifier, sequence number, payload. */
  function Echo(kind: Byte, id: nat, number: nat, payload: seq<Byte>): seq<Byte> {
    [kind, 0, 0, 0] + Put16(id) + Put16(number) + payload
  }

  method BuildEcho(kind: Byte, id: nat, number: nat, payload: seq<Byte>) returns (msg: array<Byte>)
    ensures fresh(msg) && msg[..] == Echo(kind, id, number, payload)
  {
    msg := new Byte[8 + |payload|](_ => 0);
    msg[0] := kind;
    msg[1] := 0;
    msg[4], msg[5] := id / 256 % 256, id % 256;
    msg[6], msg[7] := number / 256 % 256, number % 256;
    for i := 0 to |payload|
      invariant msg[..8] == [kind, 0, 0, 0] + Put16(id) + Put16(number)
      invariant msg[8..8 + i] == payload[..i]
    {
      msg[8 + i] := payload[i];
    }
    assert payload[..|payload|] == payload && msg[8..8 + |payload|] == msg[8..];
    assert msg[..] == msg[..8] + msg[8..];
  }

  /** The layout of a request, byte by byte, most significant bytes first. */
  lemma EchoLayout(kind: Byte, id: nat, number: nat, payload: seq<Byte>)
    requires id < WORD && number < WORD
    ensures var msg := Echo(kind, id, number, payload);
            && |msg| == 8 + |payload| && msg[8..] == payload
            && msg[0] == kind && msg[1] == 0 && msg[2] == 0 && msg[3] == 0
            && id == 256 * (msg[4] as int) + (msg[5] as int) && number == 256 * (msg[6] as int) + (msg[7] as int)
  {
    var msg := Echo(kind, id, number, payload);
    assert msg[8..] == payload;
    assert msg[4] == id / 256 && msg[5] == id % 256 && msg[6] == number / 256 && msg[7] == number % 256;
  }

  /** The message with a checksum in its second word. */
  function WithChecksum(b: seq<Byte>, c: nat): seq<Byte>
    requires |b| >= 4
  {
    b[..2] + Put16(c) + b[4..]
  }

  method StoreChecksum(msg: array<Byte>)
    requires 4 <= msg.Length <= 2 * 65537
    modifies msg
    ensures msg[..] == WithChecksum(old(msg[..]), Complement(OnesSum(old(msg[..]), Words(old(msg[..])))))
  {
    var c := Checksum(msg[..]);
    msg[2], msg[3] := c / 256 % 256, c % 256;
  }

  predicate Matches(msg: seq<Byte>, kind: Byte, id: nat, number: nat) {
    |msg| >= 8 && msg[0] == kind && Get16(msg, 4) == id && Get16(msg, 6) == number
  }

  /** A message is taken for the answer exactly when type, identifier and number are the ones
      asked for. */
  lemma EchoMatches(kind: Byte, id: nat, number: nat, payload: seq<Byte>, k: Byte, i: nat, n: nat)
    requires id < WORD && number < WORD
    ensures Matches(Echo(kind, id, number, payload), k, i, n) <==> kind == k && id == i && number == n
  {
    var msg := Echo(kind, id, number, payload);
    assert msg[4] == id / 256 && msg[5] == id % 256 && msg[6] == number / 256 && msg[7] == number % 256;
  }

  lemma {:induction false} SumWithChecksum(b: seq<Byte>, c: nat, n: nat)
    requires |b| >= 4 && c < WORD && WordAt(b, 1) == 0 && n <= Words(b)
    ensures Words(WithChecksum(b, c)) == Words(b)
    ensures Sum(WithChecksum(b, c), n) == Sum(b, n) + if n >= 2 then c else 0
  {
    var d := WithChecksum(b, c);
    if n > 0 {
      SumWithChecksum(b, c, n - 1);
      if n == 2 {
        assert d[2] == c / 256 && d[3] == c % 256;
      } else {
        var k := 2 * (n - 1);
        assert d[k] == b[k] && (k + 1 < |b| ==> d[k + 1] == b[k + 1]);
      }
    }
  }

  /** Storing the checksum in a zeroed field makes the whole message verify: its sum is all ones
      and its own checksum is zero. */
  lemma StoredChecksumVerifies(b: seq<Byte>)
    requires |b| >= 4 && WordAt(b, 1) == 0
    ensures var d := WithChecksum(b, Complement(OnesSum(b, Words(b))));
            |d| == |b| && OnesSum(d, Words(d)) == WORD - 1 && Complement(OnesSum(d, Words(d))) == 0
  {
    var s := OnesSum(b, Words(b));
    var c := Complement(s);
    var d := WithChecksum(b, c);
    SumWithChecksum(b, c, Words(b));
    FoldedSum(b, Words(b));
    FoldedSum(d, Words(d));
    FoldOfSum(Sum(b, Words(b)), c);
  }

  /** A request as it is sent, its checksum stored, verifies, and is still told apart by the same
      type, identifier and number. */
  lemma EchoVerifies(kind: Byte, id: nat, number: nat, payload: seq<Byte>)
    ensures var b := Echo(kind, id, number, payload);
            var d := WithChecksum(b, Complement(OnesSum(b, Words(b))));
            && OnesSum(d, Words(d)) == WORD - 1
            && (id < WORD && number < WORD ==>
                  forall k: Byte, i: nat, n: nat :: Matches(d, k, i, n) <==> k == kind && i == id && n == number)
  {
    var b := Echo(kind, id, number, payload);
    assert b[2] == 0 && b[3] == 0;
    StoredChecksumVerifies(b);
    var d := WithChecksum(b, Complement(OnesSum(b, Words(b))));
    assert d[0] == b[0] && d[4..] == b[4..];
    forall k: Byte, i: nat, n: nat | id < WORD && number < WORD
      ensures Matches(d, k, i, n) <==> k == kind && i == id && n == number
    {
      EchoMatches(kind, id, number, payload, k, i, n);
      assert Get16(d, 4) == Get16(b, 4) && Get16(d, 6) == Get16(b, 6);
    }
  }
}
