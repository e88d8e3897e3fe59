/**
 * The IPv4 address value the redirector wraps (Rust's `std::net::Ipv4Addr`):
 * four octets, their dotted-quad text, and a strict dotted-quad parser.
 */
module Ipv4 {
  import opened Basics

  /** An IPv4 address by its octets, most significant (first written) first. */
  datatype Addr = Addr(a: u8, b: u8, c: u8, d: u8)

  /** The loopback address 127.0.0.1. */
  const Localhost: Addr := Addr(127, 0, 0, 1)

  predicate IsDigit(ch: char) { '0' <= ch <= '9' }

  predicate AllDigits(s: string) { forall i :: 0 <= i < |s| ==> IsDigit(s[i]) }

  function DigitValue(ch: char): (v: nat)
    requires IsDigit(ch)
    ensures v < 10
  {
    ch as int - '0' as int
  }

  function DigitChar(v: nat): (ch: char)
    requires v < 10
    ensures IsDigit(ch) && DigitValue(ch) == v
  {
    ('0' as int + v) as char
  }

  /** Decimal text of one octet: one to three digits, no leading zero. */
  function OctetText(v: u8): (r: string)
    ensures 1 <= |r| <= 3 && AllDigits(r)
    ensures |r| > 1 ==> r[0] != '0'
  {
    if v < 10 then [DigitChar(v)]
    else if v < 100 then [DigitChar(v / 10), DigitChar(v % 10)]
    else [DigitChar(v / 100), DigitChar(v / 10 % 10), DigitChar(v % 10)]
  }

  /** The number written by one to three decimal digits. */
  function OctetValue(ds: string): nat
    requires 1 <= |ds| <= 3 && AllDigits(ds)
  {
    if |ds| == 1 then DigitValue(ds[0])
    else if |ds| == 2 then 10 * DigitValue(ds[0]) + DigitValue(ds[1])
    else 100 * DigitValue(ds[0]) + 10 * DigitValue(ds[1]) + DigitValue(ds[2])
  }

  /** The dotted-quad rendering used by `Display` (and, through it, `Debug`). */
  function Render(x: Addr): string
  {
    OctetText(x.a) + "." + OctetText(x.b) + "." + OctetText(x.c) + "." + OctetText(x.d)
  }

  /** Length of the run of decimal digits that starts `s`. */
  function LeadingDigits(s: string): (n: nat)
    ensures n <= |s| && AllDigits(s[..n])
    ensures n < |s| ==> !IsDigit(s[n])
  {
    if |s| > 0 && IsDigit(s[0]) then
      var m := LeadingDigits(s[1..]);
      assert s[..1 + m] == [s[0]] + s[1..][..m];
      1 + m
    else 0
  }

  /**
   * One octet at the start of `s`: one to three digits, no leading zero
   * unless the octet is the single digit 0, value at most 255. Returns
   * the octet and the text after it.
   */
  function ParseOctet(s: string): Option<(u8, string)>
  {
    var n := LeadingDigits(s);
    if n == 0 || n > 3 || (n > 1 && s[0] == '0') then None
    else
      var v := OctetValue(s[..n]);
      if v > 255 then None else Some((v, s[n..]))
  }

  /** A '.' followed by an octet. */
  function DotOctet(s: string): Option<(u8, string)>
  {
    if |s| > 0 && s[0] == '.' then ParseOctet(s[1..]) else None
  }

  /** Strict dotted-quad parser: exactly four octets separated by '.', nothing else. */
  function Parse(s: string): Option<Addr>
  {
    match ParseOctet(s)
    case None => None
    case Some((a, r1)) =>
      match DotOctet(r1)
      case None => None
      case Some((b, r2)) =>
        match DotOctet(r2)
        case None => None
        case Some((c, r3)) =>
          match DotOctet(r3)
          case None => None
          case Some((d, r4)) => if r4 == [] then Some(Addr(a, b, c, d)) else None
  }

  lemma OctetTextValue(v: u8)
    ensures OctetValue(OctetText(v)) == v
  {
  }

  /** Canonical octet text is the only text of its value. */
  lemma OctetValueText(ds: string)
    requires 1 <= |ds| <= 3 && AllDigits(ds)
    requires |ds| > 1 ==> ds[0] != '0'
    requires OctetValue(ds) <= 255
    ensures OctetText(OctetValue(ds) as u8) == ds
  {
    var v := OctetValue(ds);
    if |ds| == 1 {
      assert DigitChar(DigitValue(ds[0])) == ds[0];
    } else if |ds| == 2 {
      var d0, d1 := DigitValue(ds[0]), DigitValue(ds[1]);
      assert 10 <= v < 100;
      assert v / 10 == d0 && v % 10 == d1;
      assert DigitChar(d0) == ds[0] && DigitChar(d1) == ds[1];
    } else {
      var d0, d1, d2 := DigitValue(ds[0]), DigitValue(ds[1]), DigitValue(ds[2]);
      assert 100 <= v;
      assert v / 100 == d0 && v / 10 % 10 == d1 && v % 10 == d2;
      assert DigitChar(d0) == ds[0] && DigitChar(d1) == ds[1] && DigitChar(d2) == ds[2];
    }
  }

  lemma {:induction false} LeadingDigitsOf(ds: string, rest: string)
    requires AllDigits(ds)
    requires rest == [] || !IsDigit(rest[0])
    ensures LeadingDigits(ds + rest) == |ds|
  {
    if ds != [] {
      assert (ds + rest)[1..] == ds[1..] + rest;
      LeadingDigitsOf(ds[1..], rest);
    } else {
      assert ds + rest == rest;
    }
  }

  /** An octet's text, followed by a non-digit or nothing, parses back. */
  lemma ParseOctetText(v: u8, rest: string)
    requires rest == [] || !IsDigit(rest[0])
    ensures ParseOctet(OctetText(v) + rest) == Some((v, rest))
  {
    var t := OctetText(v);
    LeadingDigitsOf(t, rest);
    assert (t + rest)[..|t|] == t;
    assert (t + rest)[|t|..] == rest;
    OctetTextValue(v);
  }

  /** Whatever `ParseOctet` accepts is an octet's canonical text. */
  lemma ParseOctetSplits(s: string)
    requires ParseOctet(s).Some?
    ensures s == OctetText(ParseOctet(s).value.0) + ParseOctet(s).value.1
  {
    var n := LeadingDigits(s);
    OctetValueText(s[..n]);
    assert s == s[..n] + s[n..];
  }

  /** A '.' and an octet's text, followed by a non-digit or nothing, parse back. */
  lemma DotOctetText(v: u8, rest: string)
    requires rest == [] || !IsDigit(rest[0])
    ensures DotOctet("." + OctetText(v) + rest) == Some((v, rest))
  {
    var s := "." + OctetText(v) + rest;
    assert s[1..] == OctetText(v) + rest;
    ParseOctetText(v, rest);
  }

  /** Parsing the dotted-quad rendering gives back the address. */
  lemma ParseRender(x: Addr)
    ensures Parse(Render(x)) == Some(x)
  {
    var r3 := "." + OctetText(x.d) + [];
    var r2 := "." + OctetText(x.c) + r3;
    var r1 := "." + OctetText(x.b) + r2;
    RenderNested(x);
    ParseOctetText(x.a, r1);
    DotOctetText(x.b, r2);
    DotOctetText(x.c, r3);
    DotOctetText(x.d, []);
  }

  lemma OctetText127()
    ensures OctetText(127) == "127"
  {
    assert DigitChar(1) == '1' && DigitChar(2) == '2' && DigitChar(7) == '7';
  }

  lemma OctetTextDigit(v: u8)
    requires v < 10
    ensures OctetText(v) == [('0' as int + v) as char]
  {
  }

  /** The loopback address renders as "127.0.0.1". */
  lemma LocalhostText()
    ensures Render(Localhost) == "127.0.0.1"
  {
    OctetText127();
    OctetTextDigit(0);
    OctetTextDigit(1);
    assert Render(Localhost) == "127" + "." + "0" + "." + "0" + "." + "1";
  }

  /** A successful `DotOctet` consumed a '.' and an octet's canonical text. */
  lemma DotOctetSplits(s: string)
    requires DotOctet(s).Some?
    ensures s == "." + OctetText(DotOctet(s).value.0) + DotOctet(s).value.1
  {
    ParseOctetSplits(s[1..]);
    assert s == "." + s[1..];
  }

  /** The parser only accepts canonical text: rendering a parsed address gives the input back. */
  lemma RenderParse(s: string)
    requires Parse(s).Some?
    ensures Render(Parse(s).value) == s
  {
    var (a, r1) := ParseOctet(s).value;
    ParseOctetSplits(s);
    var (b, r2) := DotOctet(r1).value;
    DotOctetSplits(r1);
    var (c, r3) := DotOctet(r2).value;
    DotOctetSplits(r2);
    var (d, r4) := DotOctet(r3).value;
    DotOctetSplits(r3);
    assert Parse(s) == Some(Addr(a, b, c, d)) && r4 == [];
    RenderJoin(a, b, c, d, r1, r2, r3, s);
  }

  lemma RenderJoin(a: u8, b: u8, c: u8, d: u8, r1: string, r2: string, r3: string, s: string)
    requires s == OctetText(a) + r1
    requires r1 == "." + OctetText(b) + r2
    requires r2 == "." + OctetText(c) + r3
    requires r3 == "." + OctetText(d) + []
    ensures Render(Addr(a, b, c, d)) == s
  {
    RenderNested(Addr(a, b, c, d));
  }

  /** The rendering, grouped as the parser consumes it: an octet, then the rest. */
  lemma RenderNested(x: Addr)
    ensures Render(x) == OctetText(x.a) + ("." + OctetText(x.b) + ("." + OctetText(x.c) + ("." + OctetText(x.d) + [])))
  {
    var ta, tb, tc, td := OctetText(x.a), OctetText(x.b), OctetText(x.c), OctetText(x.d);
    calc {
      ta + ("." + tb + ("." + tc + ("." + td + [])));
      { assert "." + td + [] == "." + td; }
      ta + ("." + tb + ("." + tc + ("." + td)));
      ta + "." + tb + "." + tc + "." + td;
    }
  }
}
