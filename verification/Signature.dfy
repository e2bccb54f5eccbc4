/**
 * The text signature of a connection bitmap, "id:version,...|hex", and the proof
 * that two bitmaps have the same signature only when they are equal.
 */
module Signature {
  import opened Wire

  // ---- decimal numbers ----

  function DigitChar(d: nat): char
    requires d < 10
  {
    "0123456789"[d]
  }

  function DigitValue(c: char): nat {
    if '0' <= c <= '9' then (c as int) - ('0' as int) else 0
  }

  function Decimal(n: nat): string {
    if n < 10 then [DigitChar(n)] else Decimal(n / 10) + [DigitChar(n % 10)]
  }

  function DecimalValue(s: string): nat {
    if s == [] then 0 else 10 * DecimalValue(s[..|s| - 1]) + DigitValue(s[|s| - 1])
  }

  lemma {:induction false} DecimalRoundTrip(n: nat)
    ensures DecimalValue(Decimal(n)) == n
  {
    if n >= 10 {
      DecimalRoundTrip(n / 10);
      assert Decimal(n)[..|Decimal(n)| - 1] == Decimal(n / 10);
    }
  }

  predicate IsDigits(s: string) {
    s != [] && forall i | 0 <= i < |s| :: '0' <= s[i] <= '9'
  }

  lemma {:induction false} DecimalIsDigits(n: nat)
    ensures IsDigits(Decimal(n))
  {
    if n >= 10 {
      DecimalIsDigits(n / 10);
    }
  }

  lemma DecimalIsInjective(m: nat, n: nat)
    requires Decimal(m) == Decimal(n)
    ensures m == n
  {
    DecimalRoundTrip(m);
    DecimalRoundTrip(n);
  }

  // ---- hexadecimal bytes ----

  const HEX_DIGITS: string := "0123456789abcdef"

  function HighDigit(b: bv8): char {
    HEX_DIGITS[(b >> 4) as int]
  }

  function LowDigit(b: bv8): char {
    HEX_DIGITS[(b & 15) as int]
  }

  function Hex(bytes: seq<bv8>): string {
    if bytes == [] then [] else [HighDigit(bytes[0]), LowDigit(bytes[0])] + Hex(bytes[1..])
  }

  function HexValue(c: char): bv8 {
    if '0' <= c <= '9' then ((c as int) - ('0' as int)) as bv8
    else if 'a' <= c <= 'f' then ((c as int) - ('a' as int) + 10) as bv8
    else 0
  }

  lemma HexDigitRoundTrip(x: bv8)
    requires x < 16
    ensures HexValue(HEX_DIGITS[x as int]) == x
    ensures HEX_DIGITS[x as int] in HEX_DIGITS
  {
    match x {
      case 0 => case 1 => case 2 => case 3 => case 4 => case 5 => case 6 => case 7 =>
      case 8 => case 9 => case 10 => case 11 => case 12 => case 13 => case 14 => case _ =>
    }
  }

  lemma NibblesDetermineByte(a: bv8, b: bv8)
    requires a >> 4 == b >> 4 && a & 15 == b & 15
    ensures a == b
  {
  }

  lemma HexStarts(a: seq<bv8>)
    requires a != []
    ensures var x := Hex(a);
            && |x| >= 2 && x[0] == HighDigit(a[0]) && x[1] == LowDigit(a[0])
            && Hex(a[1..]) == x[2..]
  {
    hide HighDigit, LowDigit;
  }

  lemma DigitsTell(a: bv8, b: bv8)
    requires HighDigit(a) == HighDigit(b) && LowDigit(a) == LowDigit(b)
    ensures a == b
  {
    HexDigitRoundTrip(a >> 4);
    HexDigitRoundTrip(b >> 4);
    HexDigitRoundTrip(a & 15);
    HexDigitRoundTrip(b & 15);
    NibblesDetermineByte(a, b);
  }

  lemma {:induction false} HexIsInjective(a: seq<bv8>, b: seq<bv8>)
    requires Hex(a) == Hex(b)
    ensures a == b
  {
    if a != [] && b != [] {
      hide HighDigit, LowDigit;
      HexStarts(a);
      HexStarts(b);
      DigitsTell(a[0], b[0]);
      HexIsInjective(a[1..], b[1..]);
      assert a == [a[0]] + a[1..] && b == [b[0]] + b[1..];
    }
  }

  lemma {:induction false} HexAvoids(bytes: seq<bv8>, c: char)
    requires c !in HEX_DIGITS
    ensures c !in Hex(bytes)
  {
    if bytes != [] {
      HexDigitRoundTrip(bytes[0] >> 4);
      HexDigitRoundTrip(bytes[0] & 15);
      HexAvoids(bytes[1..], c);
    }
  }

  // ---- separators ----

  /** A string up to its first separator is determined. */
  lemma FirstSplitIsUnique(a: string, x: string, b: string, y: string, c: char)
    requires c !in a && c !in b
    requires a + [c] + x == b + [c] + y
    ensures a == b && x == y
  {
    var s, t := a + [c] + x, b + [c] + y;
    assert s[|a|] == c && t[|b|] == c;
    assert forall i | 0 <= i < |a| :: s[i] == a[i] && s[i] != c;
    assert forall i | 0 <= i < |b| :: t[i] == b[i] && t[i] != c;
    assert |a| == |b|;
    assert a == s[..|a|] && b == t[..|b|];
    assert x == s[|a| + 1..] && y == t[|b| + 1..];
  }

  /** A string after its last separator is determined. */
  lemma LastSplitIsUnique(a: string, x: string, b: string, y: string, c: char)
    requires c !in x && c !in y
    requires a + [c] + x == b + [c] + y
    ensures a == b && x == y
  {
    var s, t := a + [c] + x, b + [c] + y;
    assert s[|a|] == c && t[|b|] == c;
    assert forall i | |a| < i < |s| :: s[i] == x[i - |a| - 1] && s[i] != c;
    assert forall i | |b| < i < |t| :: t[i] == y[i - |b| - 1] && t[i] != c;
    assert |a| == |b|;
    assert a == s[..|a|] && b == t[..|b|];
    assert x == s[|a| + 1..] && y == t[|b| + 1..];
  }

  // ---- the signature ----

  function EntryText(p: PeerIdVersion): string {
    Decimal(p.peerId) + ":" + Decimal(p.version)
  }

  lemma EntryTextIsInjective(p: PeerIdVersion, q: PeerIdVersion)
    requires EntryText(p) == EntryText(q)
    ensures p == q
  {
    DecimalIsDigits(p.peerId);
    DecimalIsDigits(q.peerId);
    FirstSplitIsUnique(Decimal(p.peerId), Decimal(p.version), Decimal(q.peerId), Decimal(q.version), ':');
    DecimalIsInjective(p.peerId, q.peerId);
    DecimalIsInjective(p.version, q.version);
  }

  lemma EntryTextAvoids(p: PeerIdVersion, c: char)
    requires !('0' <= c <= '9') && c != ':'
    ensures c !in EntryText(p) && EntryText(p) != ""
  {
    DecimalIsDigits(p.peerId);
    DecimalIsDigits(p.version);
  }

  /** The entries, joined with commas. */
  function Joined(ps: seq<PeerIdVersion>): string {
    if ps == [] then ""
    else if |ps| == 1 then EntryText(ps[0])
    else EntryText(ps[0]) + "," + Joined(ps[1..])
  }

  lemma {:induction false} JoinedAvoidsBar(ps: seq<PeerIdVersion>)
    ensures '|' !in Joined(ps)
    ensures ps != [] ==> Joined(ps) != ""
  {
    if ps != [] {
      EntryTextAvoids(ps[0], '|');
      JoinedAvoidsBar(ps[1..]);
    }
  }

  lemma {:induction false} JoinedIsInjective(ps: seq<PeerIdVersion>, qs: seq<PeerIdVersion>)
    requires Joined(ps) == Joined(qs)
    ensures ps == qs
  {
    JoinedAvoidsBar(ps);
    JoinedAvoidsBar(qs);
    if ps != [] && qs != [] {
      var p, q := EntryText(ps[0]), EntryText(qs[0]);
      EntryTextAvoids(ps[0], ',');
      EntryTextAvoids(qs[0], ',');
      if |ps| == 1 || |qs| == 1 {
        JoinedCommas(ps);
        JoinedCommas(qs);
      } else {
        FirstSplitIsUnique(p, Joined(ps[1..]), q, Joined(qs[1..]), ',');
        JoinedIsInjective(ps[1..], qs[1..]);
      }
      EntryTextIsInjective(ps[0], qs[0]);
      assert ps == [ps[0]] + ps[1..] && qs == [qs[0]] + qs[1..];
    }
  }

  lemma JoinedCommas(ps: seq<PeerIdVersion>)
    requires ps != []
    ensures ',' in Joined(ps) <==> |ps| > 1
  {
    EntryTextAvoids(ps[0], ',');
    if |ps| > 1 {
      assert Joined(ps)[|EntryText(ps[0])|] == ',';
    }
  }

  function Sig(b: ConnBitmap): string {
    Joined(b.peerIds) + "|" + Hex(b.bytes)
  }

  /** Equal signatures mean equal bitmaps: ids, versions and bytes. */
  lemma SigIsInjective(a: ConnBitmap, b: ConnBitmap)
    requires Sig(a) == Sig(b)
    ensures a == b
  {
    JoinedAvoidsBar(a.peerIds);
    JoinedAvoidsBar(b.peerIds);
    FirstSplitIsUnique(Joined(a.peerIds), Hex(a.bytes), Joined(b.peerIds), Hex(b.bytes), '|');
    JoinedIsInjective(a.peerIds, b.peerIds);
    HexIsInjective(a.bytes, b.bytes);
  }
}
