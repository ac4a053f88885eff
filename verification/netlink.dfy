/** Netlink datagrams: cutting them into messages and attributes, and reading a discard route. */
module Netlink {
  import opened Common
  import Assign
  import Leases

  type Byte = b: nat | b < 256

  type Bytes = seq<Byte>

  function LittleEndian(b: Bytes): nat {
    if b == [] then 0 else b[0] + 256 * LittleEndian(b[1..])
  }

  function BigEndian(b: Bytes): nat {
    if b == [] then 0 else 256 * BigEndian(b[..|b| - 1]) + b[|b| - 1]
  }

  /** Up to the next multiple of four. */
  function Aligned(n: nat): (a: nat)
    ensures n <= a < n + 4 && a % 4 == 0
  {
    (n + 3) / 4 * 4
  }

  /** How a frame is delimited: the size of its header, whose first bytes are the frame's length
      including the header. */
  datatype Framing = Framing(header: nat, width: nat)

  const ATTRIBUTES := Framing(4, 2)
  const MESSAGES := Framing(16, 4)

  predicate Sane(f: Framing) {
    0 < f.width <= f.header
  }

  function LengthAt(data: Bytes, f: Framing): nat
    requires Sane(f) && f.header <= |data|
  {
    LittleEndian(data[..f.width])
  }

  /** A frame stands at the beginning of data. */
  predicate Framed(data: Bytes, f: Framing)
    requires Sane(f)
  {
    f.header <= |data| && f.header <= LengthAt(data, f) <= |data|
  }

  /** What follows a frame of n bytes and the gap behind it; nothing when the gap is cut off. */
  function Rest(data: Bytes, n: nat): (rest: Bytes)
    ensures n > 0 && data != [] ==> |rest| < |data|
  {
    if Aligned(n) > |data| then [] else data[Aligned(n)..]
  }

  /** All frames, until what is left is not one. */
  function Frames(data: Bytes, f: Framing): seq<Bytes>
    requires Sane(f)
    decreases |data|
  {
    if !Framed(data, f) then []
    else
      var n := LengthAt(data, f);
      [data[..n]] + Frames(Rest(data, n), f)
  }

  lemma FramesStep(before: seq<Bytes>, data: Bytes, f: Framing)
    requires Sane(f) && Framed(data, f)
    ensures var n := LengthAt(data, f);
            before + Frames(data, f) == before + [data[..n]] + Frames(Rest(data, n), f)
  {
  }

  lemma NothingFramed(f: Framing)
    requires Sane(f)
    ensures Frames([], f) == []
  {
  }

  method SplitMessages(data: Bytes) returns (msgs: seq<Bytes>)
    ensures msgs == Frames(data, MESSAGES)
  {
    msgs := [];
    var rest := data;
    while |rest| >= 16
      invariant Frames(data, MESSAGES) == msgs + Frames(rest, MESSAGES)
      decreases |rest|
    {
      var length := LittleEndian(rest[..4]);
      if length < 16 || length > |rest| {
        break;
      }
      FramesStep(msgs, rest, MESSAGES);
      msgs := msgs + [rest[..length]];
      var aligned := Aligned(length);
      if aligned > |rest| {
        NothingFramed(MESSAGES);
        return;
      }
      rest := rest[aligned..];
    }
  }

  datatype Attr = Attr(kind: nat, payload: Bytes)

  function AttrOf(frame: Bytes): Attr
    requires |frame| >= 4
  {
    Attr(LittleEndian(frame[2..4]), frame[4..])
  }

  lemma {:induction false} FramesAreFramed(data: Bytes, f: Framing)
    requires Sane(f)
    ensures forall i :: 0 <= i < |Frames(data, f)| ==>
              var frame := Frames(data, f)[i]; f.header <= |frame| == LengthAt(frame, f)
    decreases |data|
  {
    if Framed(data, f) {
      var n := LengthAt(data, f);
      assert data[..n][..f.width] == data[..f.width];
      FramesAreFramed(Rest(data, n), f);
    }
  }

  function Attrs(data: Bytes): seq<Attr> {
    FramesAreFramed(data, ATTRIBUTES);
    var frames := Frames(data, ATTRIBUTES);
    seq(|frames|, i requires 0 <= i < |frames| => AttrOf(frames[i]))
  }

  /** The attributes up to and including the first the visitor stops at. */
  function Until(attrs: seq<Attr>, stops: Attr -> bool): seq<Attr> {
    if attrs == [] then []
    else if stops(attrs[0]) then [attrs[0]]
    else [attrs[0]] + Until(attrs[1..], stops)
  }

  lemma AttrsStep(data: Bytes)
    requires Framed(data, ATTRIBUTES)
    ensures var n := LittleEndian(data[..2]);
            Attrs(data) == [Attr(LittleEndian(data[2..4]), data[4..n])] + Attrs(Rest(data, n))
  {
    var n := LittleEndian(data[..2]);
    assert data[..n][2..4] == data[2..4] && data[..n][4..] == data[4..n];
  }

  lemma UntilStep(visited: seq<Attr>, a: Attr, rest: seq<Attr>, stops: Attr -> bool)
    ensures visited + Until([a] + rest, stops) == visited + [a] + (if stops(a) then [] else Until(rest, stops))
  {
    assert ([a] + rest)[1..] == rest;
  }

  method WalkAttrs(data: Bytes, stops: Attr -> bool) returns (visited: seq<Attr>)
    ensures visited == Until(Attrs(data), stops)
  {
    visited := [];
    var rest := data;
    while |rest| >= 4
      invariant Until(Attrs(data), stops) == visited + Until(Attrs(rest), stops)
      decreases |rest|
    {
      var attrLen := LittleEndian(rest[..2]);
      var attrType := LittleEndian(rest[2..4]);
      if attrLen < 4 || attrLen > |rest| {
        assert !Framed(rest, ATTRIBUTES);
        return;
      }
      AttrsStep(rest);
      var a := Attr(attrType, rest[4..attrLen]);
      UntilStep(visited, a, Attrs(Rest(rest, attrLen)), stops);
      visited := visited + [a];
      if stops(a) {
        return;
      }
      var aligned := Aligned(attrLen);
      if aligned > |rest| {
        NothingFramed(ATTRIBUTES);
        return;
      }
      rest := rest[aligned..];
    }
  }

  // ----- what was packed is what is found ----------------------------------------------------

  /** A frame, and what fills the gap to the next one. */
  datatype Padded = Padded(frame: Bytes, padding: Bytes)

  predicate WellFramed(p: Padded, f: Framing)
    requires Sane(f)
  {
    && f.header <= |p.frame| == LengthAt(p.frame, f)
    && |p.padding| == Aligned(|p.frame|) - |p.frame|
  }

  function Packed(ps: seq<Padded>): Bytes {
    if ps == [] then [] else ps[0].frame + ps[0].padding + Packed(ps[1..])
  }

  function FramesOf(ps: seq<Padded>): seq<Bytes> {
    seq(|ps|, i requires 0 <= i < |ps| => ps[i].frame)
  }

  /** Cutting returns exactly the frames that were packed, whatever the padding holds. */
  lemma {:induction false} PackedIsCut(ps: seq<Padded>, f: Framing)
    requires Sane(f) && forall i :: 0 <= i < |ps| ==> WellFramed(ps[i], f)
    ensures Frames(Packed(ps), f) == FramesOf(ps)
  {
    if ps == [] {
      assert !Framed(Packed(ps), f);
    } else {
      PackedIsCut(ps[1..], f);
      FirstIsCut(ps[0], Packed(ps[1..]), f);
    }
  }

  lemma HeadIsCut(frame: Bytes, rest: Bytes, f: Framing)
    requires Sane(f) && f.header <= |frame| == LengthAt(frame, f)
    ensures var data := frame + rest;
            && Framed(data, f) && LengthAt(data, f) == |frame| && data[..|frame|] == frame
  {
    assert (frame + rest)[..f.width] == frame[..f.width];
  }

  lemma LastIsCut(last: Bytes, f: Framing)
    requires Sane(f) && f.header <= |last| == LengthAt(last, f)
    ensures Frames(last, f) == [last]
  {
    assert last[..|last|] == last;
    assert Rest(last, |last|) == [];
    NothingFramed(f);
  }

  /** The last frame needs no padding. */
  lemma {:induction false} UnpaddedLastIsCut(ps: seq<Padded>, last: Bytes, f: Framing)
    requires Sane(f) && (forall i :: 0 <= i < |ps| ==> WellFramed(ps[i], f))
    requires f.header <= |last| == LengthAt(last, f)
    ensures Frames(Packed(ps) + last, f) == FramesOf(ps) + [last]
  {
    if ps == [] {
      LastIsCut(last, f);
      assert Packed(ps) + last == last;
    } else {
      UnpaddedLastIsCut(ps[1..], last, f);
      FirstIsCut(ps[0], Packed(ps[1..]) + last, f);
      PackedStep(ps, last);
      assert [ps[0].frame] + (FramesOf(ps[1..]) + [last]) == [ps[0].frame] + FramesOf(ps[1..]) + [last];
    }
  }

  lemma PackedStep(ps: seq<Padded>, last: Bytes)
    requires ps != []
    ensures Packed(ps) + last == ps[0].frame + ps[0].padding + (Packed(ps[1..]) + last)
    ensures FramesOf(ps) == [ps[0].frame] + FramesOf(ps[1..])
  {
    Associate(ps[0].frame + ps[0].padding, Packed(ps[1..]), last);
    FramesOfStep(ps);
  }

  lemma FramesOfStep(ps: seq<Padded>)
    requires ps != []
    ensures FramesOf(ps) == [ps[0].frame] + FramesOf(ps[1..])
  {
  }

  lemma Associate<T>(a: seq<T>, b: seq<T>, c: seq<T>)
    ensures a + b + c == a + (b + c)
  {
  }

  lemma FirstIsCut(p: Padded, rest: Bytes, f: Framing)
    requires Sane(f) && WellFramed(p, f)
    ensures Frames(p.frame + p.padding + rest, f) == [p.frame] + Frames(rest, f)
  {
    var data := p.frame + p.padding + rest;
    HeadIsCut(p.frame, p.padding + rest, f);
    assert data == p.frame + (p.padding + rest);
    assert Rest(data, |p.frame|) == rest;
  }

  // ----- on arbitrary bytes -----------------------------------------------------------------------

  /** Where each frame begins. */
  function Offsets(data: Bytes, f: Framing, base: nat): seq<nat>
    requires Sane(f)
    decreases |data|
  {
    if !Framed(data, f) then []
    else
      var n := LengthAt(data, f);
      [base] + Offsets(Rest(data, n), f, base + Aligned(n))
  }

  /** The frame stands in all at the offset. */
  predicate StandsAt(all: Bytes, frame: Bytes, offset: nat) {
    offset + |frame| <= |all| && all[offset..offset + |frame|] == frame
  }

  /** Frames of all lie in bounds, one after the other at the next multiple of four. */
  ghost predicate Consecutive(all: Bytes, frames: seq<Bytes>, offsets: seq<nat>) {
    && |frames| == |offsets|
    && (forall i :: 0 <= i < |frames| ==> StandsAt(all, frames[i], offsets[i]))
    && forall i :: 0 <= i < |frames| - 1 ==> offsets[i + 1] == offsets[i] + Aligned(|frames[i]|)
  }

  lemma ConsecutiveFrom(all: Bytes, frame: Bytes, offset: nat, frames: seq<Bytes>, offsets: seq<nat>)
    requires StandsAt(all, frame, offset) && Consecutive(all, frames, offsets)
    requires offsets != [] ==> offsets[0] == offset + Aligned(|frame|)
    ensures Consecutive(all, [frame] + frames, [offset] + offsets)
  {
  }

  lemma NothingLeft(f: Framing, base: nat)
    requires Sane(f)
    ensures Offsets([], f, base) == [] && Frames([], f) == []
  {
  }

  ghost predicate CutWell(all: Bytes, data: Bytes, base: nat, f: Framing)
    requires Sane(f)
  {
    && Consecutive(all, Frames(data, f), Offsets(data, f, base))
    && (Offsets(data, f, base) != [] ==> Offsets(data, f, base)[0] == base)
  }

  lemma CutStep(all: Bytes, data: Bytes, base: nat, f: Framing)
    requires Sane(f) && Framed(data, f)
    requires var n := LengthAt(data, f);
             StandsAt(all, data[..n], base) && CutWell(all, Rest(data, n), base + Aligned(n), f)
    ensures CutWell(all, data, base, f)
  {
    var n := LengthAt(data, f);
    ConsecutiveFrom(all, data[..n], base, Frames(Rest(data, n), f), Offsets(Rest(data, n), f, base + Aligned(n)));
  }

  lemma {:induction false} CutsInBounds(all: Bytes, base: nat, f: Framing)
    requires Sane(f) && base <= |all|
    ensures CutWell(all, all[base..], base, f)
    decreases |all| - base
  {
    var data := all[base..];
    if Framed(data, f) {
      var n := LengthAt(data, f);
      var next := base + Aligned(n);
      SliceStands(all, base, n);
      if next <= |all| {
        CutsInBounds(all, next, f);
      } else {
        NothingLeft(f, next);
      }
      CutStep(all, data, base, f);
    }
  }

  lemma SliceStands(all: Bytes, base: nat, n: nat)
    requires base + n <= |all|
    ensures StandsAt(all, all[base..][..n], base)
    ensures Rest(all[base..], n) == if base + Aligned(n) <= |all| then all[base + Aligned(n)..] else []
  {
    assert all[base..][..n] == all[base..base + n];
  }

  /** On any bytes at all the frames are consecutive slices, in bounds, from the start, each as
      long as its own length field says. */
  lemma AnyBytesAreCutInBounds(data: Bytes, f: Framing)
    requires Sane(f)
    ensures Consecutive(data, Frames(data, f), Offsets(data, f, 0))
    ensures forall i :: 0 <= i < |Frames(data, f)| ==>
              f.header <= |Frames(data, f)[i]| == LengthAt(Frames(data, f)[i], f)
  {
    assert data[0..] == data;
    CutsInBounds(data, 0, f);
    FramesAreFramed(data, f);
  }

  // ----- discard routes ---------------------------------------------------------------------------

  const RTM_NEWROUTE := 24
  const RTM_DELROUTE := 25
  const AF_INET6 := 10
  const DISCARDS := {6, 7, 8}
  const RTA_DST := 1
  const RTA_TABLE := 15
  const RT_TABLE_MAIN := 254
  const ROUTE_HEADER := 12

  function MessageType(data: Bytes): nat
    requires |data| >= 16
  {
    LittleEndian(data[4..6])
  }

  function PrefixStep(prefix: Option<Bytes>, a: Attr): Option<Bytes> {
    if a.kind == RTA_DST && |a.payload| == 16 then Some(a.payload) else prefix
  }

  function TableStep(table: nat, a: Attr): nat {
    if a.kind == RTA_TABLE && |a.payload| == 4 then LittleEndian(a.payload) else table
  }

  function PrefixIn(attrs: seq<Attr>): Option<Bytes> {
    if attrs == [] then None else PrefixStep(PrefixIn(attrs[..|attrs| - 1]), attrs[|attrs| - 1])
  }

  function TableIn(start: nat, attrs: seq<Attr>): nat {
    if attrs == [] then start else TableStep(TableIn(start, attrs[..|attrs| - 1]), attrs[|attrs| - 1])
  }

  function AddressOf(b: Bytes): Assign.Addr
    requires |b| == 16
  {
    Assign.Addr(BigEndian(b[..8]), BigEndian(b[8..]))
  }

  lemma {:induction false} PrefixHasSixteenBytes(attrs: seq<Attr>)
    ensures PrefixIn(attrs).Some? ==> |PrefixIn(attrs).value| == 16
  {
    if attrs != [] {
      PrefixHasSixteenBytes(attrs[..|attrs| - 1]);
    }
  }

  /** The header says: an IPv6 discard route to a prefix of 1 to 64 bits. */
  predicate DiscardHeader(data: Bytes) {
    && |data| >= 16 + ROUTE_HEADER
    && (MessageType(data) == RTM_NEWROUTE || MessageType(data) == RTM_DELROUTE)
    && data[16] == AF_INET6 && data[23] in DISCARDS && 0 < data[17] <= 64
  }

  function DiscardIn(data: Bytes): Option<Leases.Observation> {
    if !DiscardHeader(data) then None
    else
      var attrs := Attrs(data[16 + ROUTE_HEADER..]);
      var prefix := PrefixIn(attrs);
      PrefixHasSixteenBytes(attrs);
      if prefix.None? || TableIn(data[20], attrs) != RT_TABLE_MAIN then None
      else Some(Leases.Observation(Leases.FromRoute, AddressOf(prefix.value), data[17], "", MessageType(data) == RTM_DELROUTE))
  }

  method ParseDiscardRoute(data: Bytes) returns (obs: Option<Leases.Observation>)
    ensures obs == DiscardIn(data)
  {
    if |data| < 16 {
      return None;
    }
    var kind := MessageType(data);
    if (kind != RTM_NEWROUTE && kind != RTM_DELROUTE) || |data| < 16 + ROUTE_HEADER {
      return None;
    }
    if data[16] != AF_INET6 || data[23] !in DISCARDS || data[17] == 0 || data[17] > 64 {
      return None;
    }
    var table: nat := data[20];
    var prefix: Option<Bytes> := None;
    var attrs := WalkAttrs(data[16 + ROUTE_HEADER..], _ => false);
    NeverStopped(Attrs(data[16 + ROUTE_HEADER..]));
    for i := 0 to |attrs|
      invariant prefix == PrefixIn(attrs[..i]) && table == TableIn(data[20], attrs[..i])
    {
      assert attrs[..i + 1][..i] == attrs[..i];
      if attrs[i].kind == RTA_DST {
        if |attrs[i].payload| == 16 {
          prefix := Some(attrs[i].payload);
        }
      } else if attrs[i].kind == RTA_TABLE {
        if |attrs[i].payload| == 4 {
          table := LittleEndian(attrs[i].payload);
        }
      }
    }
    assert attrs[..|attrs|] == attrs;
    PrefixHasSixteenBytes(attrs);
    if prefix.None? || table != RT_TABLE_MAIN {
      return None;
    }
    return Some(Leases.Observation(Leases.FromRoute, AddressOf(prefix.value), data[17], "", kind == RTM_DELROUTE));
  }

  lemma {:induction false} NeverStopped(attrs: seq<Attr>)
    ensures Until(attrs, _ => false) == attrs
  {
    if attrs != [] {
      NeverStopped(attrs[1..]);
    }
  }

  // ----- a discard route is read from its message --------------------------------------------------

  function Bytes2(n: nat): Bytes {
    [n % 256, n / 256 % 256]
  }

  function Zeros(n: nat): Bytes {
    seq(n, _ => 0)
  }

  function AttrFrame(a: Attr): Padded {
    var n := 4 + |a.payload|;
    Padded(Bytes2(n) + Bytes2(a.kind) + a.payload, Zeros(Aligned(n) - n))
  }

  function AttrFrames(attrs: seq<Attr>): seq<Padded> {
    seq(|attrs|, i requires 0 <= i < |attrs| => AttrFrame(attrs[i]))
  }

  predicate Fits(a: Attr) {
    a.kind < 65536 && 4 + |a.payload| < 65536
  }

  lemma TwoBytes(n: nat)
    requires n < 65536
    ensures LittleEndian(Bytes2(n)) == n
  {
    var b := Bytes2(n);
    assert b[1..] == [b[1]] && b[1..][1..] == [];
    assert LittleEndian(b[1..]) == b[1];
  }

  lemma AttrFrameReadsBack(a: Attr)
    requires Fits(a)
    ensures WellFramed(AttrFrame(a), ATTRIBUTES) && AttrOf(AttrFrame(a).frame) == a
  {
    var n := 4 + |a.payload|;
    TwoBytes(n);
    TwoBytes(a.kind);
    var frame := AttrFrame(a).frame;
    assert frame[..2] == Bytes2(n) && frame[2..4] == Bytes2(a.kind) && frame[4..] == a.payload;
  }

  /** Walking visits exactly the attributes that were encoded. */
  lemma AttrsReadBack(attrs: seq<Attr>)
    requires forall i :: 0 <= i < |attrs| ==> Fits(attrs[i])
    ensures Attrs(Packed(AttrFrames(attrs))) == attrs
  {
    var ps := AttrFrames(attrs);
    forall i | 0 <= i < |attrs|
      ensures WellFramed(ps[i], ATTRIBUTES) && AttrOf(ps[i].frame) == attrs[i]
    {
      AttrFrameReadsBack(attrs[i]);
    }
    PackedIsCut(ps, ATTRIBUTES);
  }

  predicate Silent(attrs: seq<Attr>) {
    forall i :: 0 <= i < |attrs| ==> attrs[i].kind != RTA_DST && attrs[i].kind != RTA_TABLE
  }

  lemma {:induction false} SilentAttrs(a: seq<Attr>, b: seq<Attr>, start: nat)
    requires Silent(b)
    ensures PrefixIn(a + b) == PrefixIn(a) && TableIn(start, a + b) == TableIn(start, a)
  {
    if b == [] {
      assert a + b == a;
    } else {
      assert (a + b)[..|a + b| - 1] == a + b[..|b| - 1];
      SilentAttrs(a, b[..|b| - 1], start);
    }
  }

  /** A discard route as the kernel reports it: the destination and the main table, in this
      order, between any other attributes. */
  function DiscardMessage(header: Bytes, a: seq<Attr>, prefix: Bytes, b: seq<Attr>, c: seq<Attr>): Bytes {
    header + Packed(AttrFrames(a + [Attr(RTA_DST, prefix)] + b + [Attr(RTA_TABLE, [254, 0, 0, 0])] + c))
  }

  lemma DiscardAttrs(a: seq<Attr>, prefix: Bytes, b: seq<Attr>, c: seq<Attr>, start: nat)
    requires Silent(a) && Silent(b) && Silent(c) && |prefix| == 16
    ensures var all := a + [Attr(RTA_DST, prefix)] + b + [Attr(RTA_TABLE, [254, 0, 0, 0])] + c;
            PrefixIn(all) == Some(prefix) && TableIn(start, all) == RT_TABLE_MAIN
  {
    var x := a + [Attr(RTA_DST, prefix)];
    assert x[..|a|] == a;
    SilentAttrs(x, b, start);
    var y := x + b + [Attr(RTA_TABLE, [254, 0, 0, 0])];
    assert y[..|x + b|] == x + b;
    TableBytes();
    SilentAttrs(y, c, start);
  }

  lemma TableBytes()
    ensures LittleEndian([254, 0, 0, 0]) == RT_TABLE_MAIN
  {
    var b: Bytes := [254, 0, 0, 0];
    assert b[1..] == [0, 0, 0] && b[1..][1..] == [0, 0] && b[1..][1..][1..] == [0] && b[1..][1..][1..][1..] == [];
    assert LittleEndian([0]) == 0 && LittleEndian([0, 0]) == 0;
    assert LittleEndian(b[1..]) == 0;
  }

  /** An announced or withdrawn discard route yields its prefix and length. */
  lemma DiscardRouteReadsBack(header: Bytes, a: seq<Attr>, prefix: Bytes, b: seq<Attr>, c: seq<Attr>)
    requires |header| == 16 + ROUTE_HEADER && DiscardHeader(header) && |prefix| == 16
    requires Silent(a) && Silent(b) && Silent(c)
    requires forall x :: x in a + b + c ==> Fits(x)
    ensures DiscardIn(DiscardMessage(header, a, prefix, b, c)) ==
            Some(Leases.Observation(Leases.FromRoute, AddressOf(prefix), header[17], "", MessageType(header) == RTM_DELROUTE))
  {
    var all := a + [Attr(RTA_DST, prefix)] + b + [Attr(RTA_TABLE, [254, 0, 0, 0])] + c;
    AllFit(a, prefix, b, c);
    AttrsReadBack(all);
    HeaderCarries(header, Packed(AttrFrames(all)));
    DiscardAttrs(a, prefix, b, c, header[20]);
  }

  lemma AllFit(a: seq<Attr>, prefix: Bytes, b: seq<Attr>, c: seq<Attr>)
    requires |prefix| == 16 && forall x :: x in a + b + c ==> Fits(x)
    ensures var all := a + [Attr(RTA_DST, prefix)] + b + [Attr(RTA_TABLE, [254, 0, 0, 0])] + c;
            forall i :: 0 <= i < |all| ==> Fits(all[i])
  {
    var all := a + [Attr(RTA_DST, prefix)] + b + [Attr(RTA_TABLE, [254, 0, 0, 0])] + c;
    forall i | 0 <= i < |all|
      ensures Fits(all[i])
    {
      assert all[i] in a + b + c || all[i] == Attr(RTA_DST, prefix) || all[i] == Attr(RTA_TABLE, [254, 0, 0, 0]);
    }
  }

  lemma HeaderCarries(header: Bytes, rest: Bytes)
    requires |header| == 16 + ROUTE_HEADER && DiscardHeader(header)
    ensures var data := header + rest;
            && DiscardHeader(data) && MessageType(data) == MessageType(header)
            && data[17] == header[17] && data[20] == header[20] && data[16 + ROUTE_HEADER..] == rest
  {
    assert (header + rest)[4..6] == header[4..6];
  }

  // ----- exactly what is read -----------------------------------------------------------------------

  function Pow256(n: nat): (p: nat)
    ensures p >= 1
  {
    if n == 0 then 1 else 256 * Pow256(n - 1)
  }

  /** Least significant byte first: byte i counts 256 to the i. */
  lemma {:induction false} LittleEndianBytes(b: Bytes, i: nat)
    requires i < |b|
    ensures LittleEndian(b[..i]) < Pow256(i)
    ensures LittleEndian(b) == LittleEndian(b[..i]) + Pow256(i) * ((b[i] as int) + 256 * LittleEndian(b[i + 1..]))
  {
    if i > 0 {
      LittleEndianBytes(b[1..], i - 1);
      assert b[1..][..i - 1] == b[..i][1..] && b[1..][i..] == b[i + 1..];
      ByteBelow(b[0] as int, LittleEndian(b[1..][..i - 1]), Pow256(i - 1), (b[i] as int) + 256 * LittleEndian(b[i + 1..]));
    }
  }

  lemma ByteBelow(byte: nat, low: nat, p: nat, rest: nat)
    ensures byte + 256 * (low + p * rest) == byte + 256 * low + (256 * p) * rest
  {
    assert 256 * (p * rest) == (256 * p) * rest;
  }

  /** Most significant byte first: byte i counts 256 to the number of bytes behind it. */
  lemma {:induction false} BigEndianBytes(b: Bytes, i: nat)
    requires i < |b|
    ensures BigEndian(b[i + 1..]) < Pow256(|b| - 1 - i)
    ensures BigEndian(b) == (256 * BigEndian(b[..i]) + (b[i] as int)) * Pow256(|b| - 1 - i) + BigEndian(b[i + 1..])
  {
    var n := |b| - 1;
    if i < n {
      BigEndianBytes(b[..n], i);
      var all := b[i + 1..];
      assert b[..n][..i] == b[..i] && b[..n][i + 1..] == all[..|all| - 1] && all[|all| - 1] == b[n];
      var high, low := 256 * BigEndian(b[..i]) + (b[i] as int), BigEndian(b[..n][i + 1..]);
      assert BigEndian(b) == 256 * BigEndian(b[..n]) + (b[n] as int);
      assert BigEndian(all) == 256 * low + (b[n] as int);
      assert Pow256(n - i) == 256 * Pow256(n - 1 - i);
      ByteAbove(high, Pow256(n - 1 - i), low, b[n] as int);
    } else {
      assert b[i + 1..] == [] && Pow256(0) == 1;
    }
  }

  lemma ByteAbove(high: nat, p: nat, low: nat, byte: nat)
    ensures 256 * (high * p + low) + byte == high * (256 * p) + (256 * low + byte)
  {
    assert 256 * (high * p) == high * (256 * p);
  }

  /** Attribute i is the last of its kind and size. */
  ghost predicate LastOfKind(attrs: seq<Attr>, kind: nat, size: nat, i: nat) {
    && i < |attrs| && attrs[i].kind == kind && |attrs[i].payload| == size
    && forall j :: i < j < |attrs| ==> !(attrs[j].kind == kind && |attrs[j].payload| == size)
  }

  lemma {:induction false} PrefixIsLast(attrs: seq<Attr>)
    ensures PrefixIn(attrs).Some? <==> exists i: nat :: LastOfKind(attrs, 1, 16, i)
    ensures forall i: nat :: LastOfKind(attrs, 1, 16, i) ==> PrefixIn(attrs) == Some(attrs[i].payload)
  {
    if attrs != [] {
      var n := |attrs| - 1;
      PrefixIsLast(attrs[..n]);
      if attrs[n].kind == 1 && |attrs[n].payload| == 16 {
        assert LastOfKind(attrs, 1, 16, n);
      } else {
        assert forall i: nat :: LastOfKind(attrs[..n], 1, 16, i) <==> LastOfKind(attrs, 1, 16, i);
      }
    }
  }

  lemma {:induction false} TableIsLast(start: nat, attrs: seq<Attr>)
    ensures forall i: nat :: LastOfKind(attrs, 15, 4, i) ==> TableIn(start, attrs) == LittleEndian(attrs[i].payload)
    ensures (forall i: nat :: !LastOfKind(attrs, 15, 4, i)) ==> TableIn(start, attrs) == start
  {
    if attrs != [] {
      var n := |attrs| - 1;
      TableIsLast(start, attrs[..n]);
      if attrs[n].kind == 15 && |attrs[n].payload| == 4 {
        assert LastOfKind(attrs, 15, 4, n);
      } else {
        assert forall i: nat :: LastOfKind(attrs[..n], 15, 4, i) <==> LastOfKind(attrs, 15, 4, i);
      }
    }
  }

  /** The message is about an IPv6 route of type blackhole, unreachable or prohibit, to a prefix of 1
      to 64 bits, new or deleted. */
  predicate AboutDiscard(data: Bytes) {
    && |data| >= 28 && data[5] == 0 && (data[4] == 24 || data[4] == 25)
    && data[16] == 10 && (data[23] == 6 || data[23] == 7 || data[23] == 8) && 1 <= data[17] <= 64
  }

  /** The route is in the main table: by its last attribute that names a table, or by the header. */
  ghost predicate InMain(data: Bytes, attrs: seq<Attr>)
    requires |data| >= 28
  {
    && (forall i: nat :: LastOfKind(attrs, 15, 4, i) ==> attrs[i].payload == [254, 0, 0, 0])
    && ((forall i: nat :: !LastOfKind(attrs, 15, 4, i)) ==> data[20] == 254)
  }

  /** Exactly which messages yield an observation, and which one. */
  lemma DiscardExactly(data: Bytes, o: Leases.Observation)
    ensures DiscardIn(data) == Some(o) <==>
            && AboutDiscard(data)
            && InMain(data, Attrs(data[28..]))
            && o.kind.FromRoute? && o.length == data[17] && o.ifName == "" && (o.withdraw <==> data[4] == 25)
            && exists i: nat :: LastOfKind(Attrs(data[28..]), 1, 16, i)
                 && o.prefix == Assign.Addr(BigEndian(Attrs(data[28..])[i].payload[..8]), BigEndian(Attrs(data[28..])[i].payload[8..]))
  {
    if |data| >= 28 {
      var attrs := Attrs(data[28..]);
      TypeMeans(data);
      PrefixIsLast(attrs);
      TableMeans(data, attrs);
    }
  }

  lemma TypeMeans(data: Bytes)
    requires |data| >= 16
    ensures MessageType(data) == (data[4] as int) + 256 * (data[5] as int)
  {
    var b := data[4..6];
    assert b[1..] == [data[5]] && b[1..][1..] == [];
    assert LittleEndian(b[1..]) == data[5];
  }

  lemma TableMeans(data: Bytes, attrs: seq<Attr>)
    requires |data| >= 28
    ensures TableIn(data[20], attrs) == 254 <==> InMain(data, attrs)
  {
    TableIsLast(data[20], attrs);
    if i: nat :| LastOfKind(attrs, 15, 4, i) {
      FourBytes(attrs[i].payload);
      assert forall j: nat :: LastOfKind(attrs, 15, 4, j) ==> j == i;
    }
  }

  lemma FourBytes(b: Bytes)
    requires |b| == 4
    ensures LittleEndian(b) == 254 <==> b == [254, 0, 0, 0]
  {
    var b1, b2, b3 := b[1..], b[2..], b[3..];
    assert b1[1..] == b2 && b2[1..] == b3 && b3[1..] == [];
    assert LittleEndian(b3) == b[3];
    assert LittleEndian(b2) == (b[2] as int) + 256 * LittleEndian(b3);
    assert LittleEndian(b1) == (b[1] as int) + 256 * LittleEndian(b2);
    assert LittleEndian(b) == (b[0] as int) + 256 * LittleEndian(b1);
    if LittleEndian(b) == 254 {
      assert b[0] == 254 && b[1] == 0 && b[2] == 0 && b[3] == 0;
      assert b == [254, 0, 0, 0];
    }
  }
}
