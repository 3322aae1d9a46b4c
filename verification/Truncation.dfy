/** Storing error text in a bounded column: cut on a UTF-8 character boundary and
    say how much was dropped. Text is its UTF-8 encoding, as bytes. */
module Truncation {
  import Decimal

  type Byte = x: int | 0 <= x < 256

  // ---- UTF-8 (section 3 of RFC 3629) ----

  predicate Tail(b: Byte) {
    0x80 <= b < 0xC0
  }

  /** The number of bytes of the well-formed character that `s` starts with, or 0 if there is none:
      the table of byte sequences in section 4 of RFC 3629. */
  function CharLen(s: seq<Byte>): (n: nat)
    ensures n <= 4 && n <= |s|
    ensures n > 0 ==> !Tail(s[0]) && forall i :: 1 <= i < n ==> Tail(s[i])
  {
    if s == [] then 0
    else if s[0] < 0x80 then 1
    else if 0xC2 <= s[0] < 0xE0 then if |s| >= 2 && Tail(s[1]) then 2 else 0
    else if 0xE0 <= s[0] < 0xF0 then
      if |s| >= 3 && Tail(s[1]) && Tail(s[2]) && (s[0] == 0xE0 ==> s[1] >= 0xA0) && (s[0] == 0xED ==> s[1] < 0xA0) then 3 else 0
    else if 0xF0 <= s[0] < 0xF5 then
      if |s| >= 4 && Tail(s[1]) && Tail(s[2]) && Tail(s[3]) && (s[0] == 0xF0 ==> s[1] >= 0x90) && (s[0] == 0xF4 ==> s[1] < 0x90)
      then 4 else 0
    else 0
  }

  predicate Utf8(s: seq<Byte>)
    decreases |s|
  {
    s == [] || (CharLen(s) > 0 && Utf8(s[CharLen(s)..]))
  }

  /** `is_char_boundary`: the ends, and every byte that does not continue a character. */
  predicate Boundary(s: seq<Byte>, i: nat) {
    i == 0 || i == |s| || (i < |s| && !Tail(s[i]))
  }

  /** A boundary really splits well-formed text into two well-formed texts, and nothing else does. */
  lemma {:induction false} BoundarySplits(s: seq<Byte>, i: nat)
    requires Utf8(s) && i <= |s|
    ensures Boundary(s, i) <==> Utf8(s[..i]) && Utf8(s[i..])
    decreases |s|
  {
    if i == 0 {
      assert s[..i] == [] && s[i..] == s;
    } else if i == |s| {
      assert s[..i] == s && s[i..] == [];
    } else {
      var n := CharLen(s);
      if i < n {
        assert Tail(s[i]) && s[i..][0] == s[i];
      } else {
        BoundarySplits(s[n..], i - n);
        assert s[n..][..i - n] == s[..i][n..];
        assert s[n..][i - n..] == s[i..];
        PrefixChar(s, i);
        assert i - n < |s[n..]| && s[n..][i - n] == s[i];
        assert i == n ==> Utf8(s[i..]) && s[..i][n..] == [];
      }
    }
  }

  /** The first character does not change when the text is cut after it. */
  lemma PrefixChar(s: seq<Byte>, i: nat)
    requires CharLen(s) > 0 && CharLen(s) <= i <= |s|
    ensures CharLen(s[..i]) == CharLen(s)
  {
  }

  /** From any position the nearest boundary below is at most three bytes away. */
  lemma {:induction false} BoundaryNear(s: seq<Byte>, i: nat) returns (d: nat)
    requires Utf8(s) && i <= |s|
    ensures d <= 3 && d <= i && Boundary(s, i - d)
    decreases |s|
  {
    var n := CharLen(s);
    if i == |s| {
      return 0;
    }
    if i < n {
      return i;
    }
    d := BoundaryNear(s[n..], i - n);
    assert CharLen(s[n..]) > 0 && s[n..][0] == s[n];
    assert i - n - d > 0 ==> s[n..][i - n - d] == s[i - d];
  }

  // ---- The marker ----

  function Bytes(t: string): (r: seq<Byte>)
    requires forall i :: 0 <= i < |t| ==> t[i] as int < 128
    ensures |r| == |t| && forall i :: 0 <= i < |t| ==> r[i] == t[i] as int
  {
    seq(|t|, i requires 0 <= i < |t| => t[i] as int)
  }

  lemma {:induction false} AsciiIsUtf8(s: seq<Byte>)
    requires forall i :: 0 <= i < |s| ==> s[i] < 0x80
    ensures Utf8(s)
    decreases |s|
  {
    if s != [] {
      AsciiIsUtf8(s[1..]);
    }
  }

  lemma {:induction false} Utf8Concat(a: seq<Byte>, b: seq<Byte>)
    requires Utf8(a) && Utf8(b)
    ensures Utf8(a + b)
    decreases |a|
  {
    hide CharLen;
    if a == [] {
      assert a + b == b;
    } else {
      var n := CharLen(a);
      Utf8Concat(a[n..], b);
      WiderChar(a, b);
      assert (a + b)[n..] == a[n..] + b;
    }
  }

  lemma WiderChar(a: seq<Byte>, b: seq<Byte>)
    requires CharLen(a) > 0
    ensures CharLen(a + b) == CharLen(a)
  {
  }

  predicate Ascii(t: string) {
    forall i :: 0 <= i < |t| ==> t[i] as int < 128
  }

  function MarkerText(dropped: nat): (t: string)
    ensures Ascii(t)
  {
    Decimal.ShowIsDigits(dropped);
    "...[truncated " + Decimal.Show(dropped) + " bytes]"
  }

  /** What a marker must say: the words, and a number that reads back as the bytes dropped. */
  ghost predicate Tells(t: string, dropped: nat) {
    && |t| > 21 && t[..14] == "...[truncated " && t[|t| - 7..] == " bytes]"
    && Decimal.Read(t[14..|t| - 7]) == dropped && (dropped > 0 ==> t[14] != '0')
  }

  lemma MarkerTells(dropped: nat)
    ensures Tells(MarkerText(dropped), dropped)
  {
    var t := MarkerText(dropped);
    assert t[14..|t| - 7] == Decimal.Show(dropped);
    assert t[14] == Decimal.Show(dropped)[0];
    Decimal.ReadShow(dropped);
  }

  /** `truncation_marker`. */
  function Marker(dropped: nat): seq<Byte> {
    Bytes(MarkerText(dropped))
  }

  lemma MarkerFacts(a: nat, b: nat)
    requires a <= b
    ensures |Marker(a)| <= |Marker(b)| && Utf8(Marker(a))
  {
    Decimal.ShowWidthMonotone(a, b);
    AsciiIsUtf8(Marker(a));
  }

  /** A marker tells how much was dropped: no two amounts share one. */
  lemma MarkerInjective(a: nat, b: nat)
    requires Marker(a) == Marker(b)
    ensures a == b
  {
    var x, y := MarkerText(a), MarkerText(b);
    assert |x| == |y|;
    forall i | 0 <= i < |x| ensures x[i] == y[i] {
      assert Marker(a)[i] == x[i] as int && Marker(b)[i] == y[i] as int;
    }
    assert x == y;
    assert Decimal.Show(a) == x[14..|x| - 7] && Decimal.Show(b) == y[14..|y| - 7];
    Decimal.ShowInjective(a, b);
  }

  // ---- truncate_for_storage ----

  function Reserved(s: seq<Byte>, maxBytes: nat): nat {
    if maxBytes < |Marker(|s|)| then 0 else maxBytes - |Marker(|s|)|
  }

  /** The cut is the last place at or below the reserve where the text splits in two. */
  ghost predicate LastSplit(s: seq<Byte>, cut: nat, top: nat) {
    && cut <= top <= |s| && Utf8(s[..cut]) && Utf8(s[cut..])
    && (forall k :: cut < k <= top ==> !Utf8(s[..k]) || !Utf8(s[k..]))
  }

  /** Where the loop stops. */
  lemma LastBoundarySplits(s: seq<Byte>, cut: nat, top: nat)
    requires Utf8(s) && cut <= top <= |s| && Boundary(s, cut) && forall k :: cut < k <= top ==> !Boundary(s, k)
    ensures LastSplit(s, cut, top)
  {
    hide Utf8, Boundary;
    BoundarySplits(s, cut);
    forall k | cut < k <= top ensures !Utf8(s[..k]) || !Utf8(s[k..]) {
      BoundarySplits(s, k);
    }
  }

  lemma ReservedFits(s: seq<Byte>, maxBytes: nat)
    requires |s| > maxBytes
    ensures Reserved(s, maxBytes) <= |s|
  {
  }

  /** A prefix within the reserve fits with its marker exactly when the widest marker fits by itself. */
  lemma CutFits(s: seq<Byte>, maxBytes: nat, cut: nat)
    requires cut <= Reserved(s, maxBytes) && cut <= |s|
    ensures cut + |Marker(|s| - cut)| <= maxBytes <==> |Marker(|s|)| <= maxBytes
  {
    hide Marker;
    MarkerFacts(|s| - cut, |s|);
  }

  lemma PrefixAndMarker(s: seq<Byte>, cut: nat)
    requires cut <= |s| && Utf8(s[..cut])
    ensures Utf8(s[..cut] + Marker(|s| - cut))
  {
    hide Utf8, Marker;
    MarkerFacts(|s| - cut, |s|);
    Utf8Concat(s[..cut], Marker(|s| - cut));
  }

  /** `truncate_for_storage`. The result is the input, or a well-formed prefix of it that gives up at
      most three bytes to the character boundary followed by a marker stating exactly the bytes
      dropped; it is well-formed; and it fits exactly when the input does or the marker for the whole
      input does. */
  method Truncate(s: seq<Byte>, maxBytes: nat) returns (out: seq<Byte>, cut: nat)
    requires Utf8(s)
    ensures Utf8(out)
    ensures |s| <= maxBytes ==> out == s && cut == |s|
    ensures |s| > maxBytes ==>
              && LastSplit(s, cut, Reserved(s, maxBytes)) && Reserved(s, maxBytes) <= cut + 3
              && out == s[..cut] + Bytes(MarkerText(|s| - cut)) && Tells(MarkerText(|s| - cut), |s| - cut)
    ensures |out| <= maxBytes <==> |s| <= maxBytes || |Marker(|s|)| <= maxBytes
  {
    hide Utf8, Marker, MarkerText, Tells, Bytes, Boundary;
    if |s| <= maxBytes {
      return s, |s|;
    }
    var reserve := |Marker(|s|)|;
    cut := if maxBytes < reserve then 0 else maxBytes - reserve;
    ghost var top := cut;
    ReservedFits(s, maxBytes);
    ghost var d := BoundaryNear(s, cut);
    while !Boundary(s, cut)
      invariant top - d <= cut <= top
      invariant forall k :: cut < k <= top ==> !Boundary(s, k)
      decreases cut
    {
      cut := cut - 1;
    }
    LastBoundarySplits(s, cut, top);
    hide LastSplit;
    LastSplitIs(s, cut, top);
    out := s[..cut] + Marker(|s| - cut);
    MarkerTells(|s| - cut);
    MarkerIs(|s| - cut);
    PrefixAndMarker(s, cut);
    CutFits(s, maxBytes, cut);
  }

  lemma MarkerIs(dropped: nat)
    ensures Marker(dropped) == Bytes(MarkerText(dropped))
  {
  }

  lemma LastSplitIs(s: seq<Byte>, cut: nat, top: nat)
    requires LastSplit(s, cut, top)
    ensures cut <= |s| && Utf8(s[..cut])
  {
  }
}
