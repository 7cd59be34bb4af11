/** The part of CBOR (RFC 8949) that Marmot writes to its sequence-map file and
    feeds to the shard hash: heads in shortest form, text strings, and maps from
    text to unsigned integers. */
module Cbor {
  import opened Basics

  const U64: nat := 0x1_0000_0000_0000_0000

  const MAJOR_UINT: nat := 0
  const MAJOR_TEXT: nat := 3
  const MAJOR_MAP: nat := 5

  /******* Heads (section 3 of RFC 8949) *******/

  function BigEndian(n: nat, width: nat): (b: seq<byte>)
    ensures |b| == width
  {
    if width == 0 then [] else BigEndian(n / 256, width - 1) + [n % 256]
  }

  function FromBigEndian(b: seq<byte>): nat {
    if b == [] then 0 else FromBigEndian(b[..|b| - 1]) * 256 + b[|b| - 1]
  }

  function Pow256(width: nat): nat {
    if width == 0 then 1 else 256 * Pow256(width - 1)
  }

  lemma {:induction false} BigEndianRoundTrip(n: nat, width: nat)
    requires n < Pow256(width)
    ensures FromBigEndian(BigEndian(n, width)) == n
  {
    if width > 0 {
      BigEndianRoundTrip(n / 256, width - 1);
      var b := BigEndian(n, width);
      assert b[..|b| - 1] == BigEndian(n / 256, width - 1);
    }
  }

  /** Number of argument bytes that follow the initial byte in shortest form. */
  function Width(n: nat): nat {
    if n < 24 then 0
    else if n < 0x100 then 1
    else if n < 0x1_0000 then 2
    else if n < 0x1_0000_0000 then 4
    else 8
  }

  function AdditionalInfo(n: nat): nat {
    if n < 24 then n
    else if n < 0x100 then 24
    else if n < 0x1_0000 then 25
    else if n < 0x1_0000_0000 then 26
    else 27
  }

  function Head(major: nat, n: nat): (b: seq<byte>)
    requires major < 8
    ensures |b| == 1 + Width(n)
  {
    [major * 32 + AdditionalInfo(n)] + BigEndian(n, Width(n))
  }

  function WidthOf(info: nat): Option<nat> {
    if info < 24 then Some(0)
    else if info == 24 then Some(1)
    else if info == 25 then Some(2)
    else if info == 26 then Some(4)
    else if info == 27 then Some(8)
    else None
  }

  /** Reads one head; the result is its major type, its argument and what follows. */
  function ReadHead(b: seq<byte>): Option<(nat, nat, seq<byte>)> {
    if b == [] then None
    else
      var info := b[0] % 32;
      match WidthOf(info)
      case None => None
      case Some(w) =>
        if |b| < 1 + w then None
        else Some((b[0] / 32, if w == 0 then info else FromBigEndian(b[1..1 + w]), b[1 + w..]))
  }

  lemma FitsWidth(n: nat)
    requires n < U64
    ensures Width(n) > 0 ==> n < Pow256(Width(n))
  {
    assert Pow256(1) == 0x100;
    assert Pow256(2) == 256 * Pow256(1);
    assert Pow256(3) == 256 * Pow256(2);
    assert Pow256(4) == 256 * Pow256(3) == 0x1_0000_0000;
    assert Pow256(5) == 256 * Pow256(4);
    assert Pow256(6) == 256 * Pow256(5);
    assert Pow256(7) == 256 * Pow256(6);
    assert Pow256(8) == 256 * Pow256(7) == U64;
  }

  lemma HeadRoundTrip(major: nat, n: nat, rest: seq<byte>)
    requires major < 8 && n < U64
    ensures ReadHead(Head(major, n) + rest) == Some((major, n, rest))
  {
    var w := Width(n);
    var b := Head(major, n) + rest;
    assert b[0] % 32 == AdditionalInfo(n) && b[0] / 32 == major;
    assert WidthOf(AdditionalInfo(n)) == Some(w);
    assert b[1..1 + w] == BigEndian(n, w);
    assert b[1 + w..] == rest;
    if w > 0 {
      FitsWidth(n);
      BigEndianRoundTrip(n, w);
    }
  }

  /******* Text strings *******/

  function Text(s: Name): (b: seq<byte>)
    ensures |b| == 1 + Width(|s|) + |s|
  {
    Head(MAJOR_TEXT, |s|) + s
  }

  function ReadText(b: seq<byte>): Option<(Name, seq<byte>)> {
    match ReadHead(b)
    case None => None
    case Some((major, n, rest)) =>
      if major != MAJOR_TEXT || |rest| < n then None else Some((rest[..n], rest[n..]))
  }

  lemma TextRoundTrip(s: Name, rest: seq<byte>)
    requires |s| < U64
    ensures ReadText(Text(s) + rest) == Some((s, rest))
  {
    assert Text(s) + rest == Head(MAJOR_TEXT, |s|) + (s + rest);
    HeadRoundTrip(MAJOR_TEXT, |s|, s + rest);
    assert (s + rest)[..|s|] == s && (s + rest)[|s|..] == rest;
  }

  /** Encodings listed in Appendix A of RFC 8949. */
  lemma SmallNumbers()
    ensures Head(MAJOR_UINT, 23) == [0x17] && Head(MAJOR_UINT, 24) == [0x18, 0x18]
    ensures Head(MAJOR_UINT, 1000) == [0x19, 0x03, 0xe8]
  {
    assert BigEndian(1000, 2) == [3, 0xe8];
  }

  lemma LargeNumber()
    ensures Head(MAJOR_UINT, 1000000) == [0x1a, 0x00, 0x0f, 0x42, 0x40]
  {
    assert BigEndian(3906, 3) == [0, 15, 66];
    assert BigEndian(1000000, 4) == [0, 15, 66, 64];
  }

  lemma Texts()
    ensures Text([0x49, 0x45, 0x54, 0x46]) == [0x64, 0x49, 0x45, 0x54, 0x46]
  {
  }

  /******* Maps from text to unsigned integers (section 3.1 of RFC 8949, major type 5) *******/

  type SeqMap = map<Name, nat>

  predicate Encodable(m: SeqMap) {
    |m| < U64 && forall k :: k in m ==> |k| < U64 && m[k] < U64
  }

  function Entry(k: Name, v: nat): (b: seq<byte>)
    ensures |b| == 1 + Width(|k|) + |k| + 1 + Width(v)
  {
    Text(k) + Head(MAJOR_UINT, v)
  }

  function Entries(order: seq<Name>, m: SeqMap): seq<byte>
    requires forall k :: k in order ==> k in m
  {
    if order == [] then [] else Entry(order[0], m[order[0]]) + Entries(order[1..], m)
  }

  function EncodeMap(order: seq<Name>, m: SeqMap): seq<byte>
    requires forall k :: k in order ==> k in m
  {
    Head(MAJOR_MAP, |order|) + Entries(order, m)
  }

  /** The map that takes "a" to 1. */
  lemma OneEntry()
    ensures EncodeMap([[0x61]], map[[0x61] := 1]) == [0xa1, 0x61, 0x61, 0x01]
  {
    var m: SeqMap := map[[0x61] := 1];
    assert Entries([[0x61]][1..], m) == [];
    assert Entries([[0x61]], m) == Entry([0x61], 1);
    assert Text([0x61]) == [0x61, 0x61] && Head(MAJOR_UINT, 1) == [0x01] && Head(MAJOR_MAP, 1) == [0xa1];
  }

  function ReadEntry(b: seq<byte>): Option<(Name, nat, seq<byte>)> {
    match ReadText(b)
    case None => None
    case Some((k, b1)) =>
      match ReadHead(b1)
      case None => None
      case Some((major, v, b2)) => if major != MAJOR_UINT then None else Some((k, v, b2))
  }

  lemma EntryRoundTrip(k: Name, v: nat, rest: seq<byte>)
    requires |k| < U64 && v < U64
    ensures ReadEntry(Entry(k, v) + rest) == Some((k, v, rest))
  {
    assert Entry(k, v) + rest == Text(k) + (Head(MAJOR_UINT, v) + rest);
    TextRoundTrip(k, Head(MAJOR_UINT, v) + rest);
    HeadRoundTrip(MAJOR_UINT, v, rest);
  }

  function ReadEntries(count: nat, b: seq<byte>, acc: SeqMap): Option<(SeqMap, seq<byte>)> {
    if count == 0 then Some((acc, b))
    else
      match ReadEntry(b)
      case None => None
      case Some((k, v, rest)) => ReadEntries(count - 1, rest, acc[k := v])
  }

  /** Decodes the first item of `b` as a map; the decoder reads no further. */
  function DecodeMap(b: seq<byte>): Option<SeqMap> {
    match ReadHead(b)
    case None => None
    case Some((major, n, rest)) =>
      if major != MAJOR_MAP then None
      else
        match ReadEntries(n, rest, map[])
        case None => None
        case Some((m, _)) => Some(m)
  }

  function Overlay(acc: SeqMap, order: seq<Name>, m: SeqMap): SeqMap
    requires forall k :: k in order ==> k in m
  {
    map k | k in acc.Keys + (set x | x in order) :: if k in order then m[k] else acc[k]
  }

  lemma {:induction false} ReadEntriesRoundTrip(order: seq<Name>, m: SeqMap, acc: SeqMap, rest: seq<byte>)
    requires Encodable(m) && Distinct(order) && forall k :: k in order ==> k in m
    ensures ReadEntries(|order|, Entries(order, m) + rest, acc) == Some((Overlay(acc, order, m), rest))
    decreases |order|
  {
    if order == [] {
      assert Entries(order, m) + rest == rest;
      assert Overlay(acc, order, m) == acc;
    } else {
      var k, tail := order[0], order[1..];
      assert Entries(order, m) + rest == Entry(k, m[k]) + (Entries(tail, m) + rest);
      EntryRoundTrip(k, m[k], Entries(tail, m) + rest);
      ReadEntriesRoundTrip(tail, m, acc[k := m[k]], rest);
      OverlayStep(acc, order, m);
    }
  }

  lemma OverlayStep(acc: SeqMap, order: seq<Name>, m: SeqMap)
    requires order != [] && Distinct(order) && forall k :: k in order ==> k in m
    ensures Overlay(acc[order[0] := m[order[0]]], order[1..], m) == Overlay(acc, order, m)
  {
  }

  /** Whatever the iteration order, decoding an encoded map gives the map back,
      also when other bytes follow it. */
  lemma MapRoundTrip(order: seq<Name>, m: SeqMap, rest: seq<byte>)
    requires Encodable(m) && OrderOf(order, m.Keys)
    ensures DecodeMap(EncodeMap(order, m) + rest) == Some(m)
  {
    OrderSize(order, m.Keys);
    assert EncodeMap(order, m) + rest == Head(MAJOR_MAP, |order|) + (Entries(order, m) + rest);
    HeadRoundTrip(MAJOR_MAP, |order|, Entries(order, m) + rest);
    ReadEntriesRoundTrip(order, m, map[], rest);
    OverlayAll(order, m);
  }

  lemma OverlayAll(order: seq<Name>, m: SeqMap)
    requires OrderOf(order, m.Keys)
    ensures Overlay(map[], order, m) == m
  {
    assert Overlay(map[], order, m).Keys == m.Keys;
  }

  /******* Encoded length *******/

  /** Dropping one key from an order shortens the entries by that key's encoding. */
  lemma {:induction false} EntriesWithout(order: seq<Name>, m: SeqMap, i: nat)
    requires i < |order| && forall k :: k in order ==> k in m
    ensures |Entries(order, m)| ==
            |Entries(order[..i] + order[i + 1..], m)| + |Entry(order[i], m[order[i]])|
  {
    if i == 0 {
      assert order[..i] + order[i + 1..] == order[1..];
    } else {
      EntriesWithout(order[1..], m, i - 1);
      assert (order[..i] + order[i + 1..])[1..] == order[1..][..i - 1] + order[1..][i..];
    }
  }

  /** Adding keys and raising values never shortens the encoding, whatever the
      two iteration orders. */
  lemma {:induction false} EntriesMonotone(small: seq<Name>, m: SeqMap, large: seq<Name>, m': SeqMap)
    requires Distinct(small) && Distinct(large)
    requires forall k :: k in small ==> k in large && k in m
    requires forall k :: k in large ==> k in m'
    requires forall k :: k in small ==> m[k] <= m'[k]
    ensures |small| <= |large|
    ensures |Entries(small, m)| <= |Entries(large, m')|
    decreases |small|
  {
    if small != [] {
      var k, rest := small[0], small[1..];
      assert k in large;
      var j :| 0 <= j < |large| && large[j] == k;
      var large' := large[..j] + large[j + 1..];
      EntriesWithout(large, m', j);
      forall x | x in rest ensures x in large' {
        assert x in small && x != k;
        StillIn(large, j, x);
      }
      EntriesMonotone(rest, m, large', m');
    }
  }

  lemma EncodingMonotone(small: seq<Name>, m: SeqMap, large: seq<Name>, m': SeqMap)
    requires OrderOf(small, m.Keys) && OrderOf(large, m'.Keys)
    requires forall k :: k in m ==> k in m' && m[k] <= m'[k]
    ensures |EncodeMap(small, m)| <= |EncodeMap(large, m')|
  {
    EntriesMonotone(small, m, large, m');
  }
}
