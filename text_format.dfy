/** The printf conversions the output modules use (`%u`/`%d` on non-negative
    values, `%03u`, `%02x`), the dotted-quad and colon-separated hex layouts
    built from them, and parsers that read each layout back. */
module TextFormat {
  import opened Common

  predicate IsDigit(c: char) { '0' <= c <= '9' }

  predicate AllDigits(s: string) { forall i :: 0 <= i < |s| ==> IsDigit(s[i]) }

  function DigitChar(d: nat): (c: char)
    requires d < 10
    ensures IsDigit(c)
  {
    ('0' as int + d) as char
  }

  function DigitValue(c: char): (d: nat)
    requires IsDigit(c)
    ensures d < 10
  {
    c as int - '0' as int
  }

  /** `%u`: the decimal digits of `n`, most significant first. */
  function Decimal(n: nat): (s: string)
    ensures 1 <= |s| && AllDigits(s)
  {
    if n < 10 then [DigitChar(n)] else Decimal(n / 10) + [DigitChar(n % 10)]
  }

  /** Only zero itself is printed with a leading zero digit. */
  lemma {:induction false} DecimalNoLeadingZero(n: nat)
    ensures Decimal(n)[0] == '0' ==> n == 0 && |Decimal(n)| == 1
  {
    if n >= 10 {
      DecimalNoLeadingZero(n / 10);
      assert Decimal(n)[0] == Decimal(n / 10)[0];
    }
  }

  /** The number a string of decimal digits denotes. */
  function DigitsValue(s: string): nat
    requires AllDigits(s)
  {
    if s == [] then 0 else DigitsValue(s[..|s| - 1]) * 10 + DigitValue(s[|s| - 1])
  }

  /** The number of decimal digits at the front of `s`. */
  function LeadingDigits(s: string): (k: nat)
    ensures k <= |s|
  {
    if s != [] && IsDigit(s[0]) then 1 + LeadingDigits(s[1..]) else 0
  }

  /** The leading run is all digits and is followed by a non-digit or the
      end of the text. */
  lemma {:induction false} LeadingDigitsRun(s: string)
    ensures var k := LeadingDigits(s); AllDigits(s[..k]) && (k < |s| ==> !IsDigit(s[k]))
  {
    if s != [] && IsDigit(s[0]) {
      LeadingDigitsRun(s[1..]);
      var k := LeadingDigits(s);
      assert forall i :: 1 <= i < k ==> s[..k][i] == s[1..][..k - 1][i - 1];
    }
  }

  /** Reads the run of digits at the front of `s`: its value and the text
      after it; None when `s` does not start with a digit. */
  function ParseNumber(s: string): Option<(nat, string)>
  {
    var k := LeadingDigits(s);
    LeadingDigitsRun(s);
    if k == 0 then None else Some((DigitsValue(s[..k]), s[k..]))
  }

  lemma {:induction false} DecimalValue(n: nat)
    ensures DigitsValue(Decimal(n)) == n
  {
    if n >= 10 {
      DecimalValue(n / 10);
      var s := Decimal(n);
      assert s[..|s| - 1] == Decimal(n / 10);
    }
  }

  lemma {:induction false} LeadingDigitsOfConcat(d: string, t: string)
    requires AllDigits(d)
    requires t == [] || !IsDigit(t[0])
    ensures LeadingDigits(d + t) == |d|
  {
    if d != [] {
      assert (d + t)[1..] == d[1..] + t;
      LeadingDigitsOfConcat(d[1..], t);
    }
  }

  /** Any digit string followed by a non-digit is read back whole. */
  lemma ParseDigitsThenRest(d: string, t: string)
    requires |d| >= 1 && AllDigits(d)
    requires t == [] || !IsDigit(t[0])
    ensures ParseNumber(d + t) == Some((DigitsValue(d), t))
  {
    LeadingDigitsOfConcat(d, t);
    assert (d + t)[..|d|] == d;
    assert (d + t)[|d|..] == t;
  }

  /** `%u` round-trips: reading the digits back gives the number and stops
      at the first non-digit. */
  lemma ParseDecimal(n: nat, t: string)
    requires t == [] || !IsDigit(t[0])
    ensures ParseNumber(Decimal(n) + t) == Some((n, t))
  {
    ParseDigitsThenRest(Decimal(n), t);
    DecimalValue(n);
  }

  /** A byte value takes one to three decimal digits. */
  lemma DecimalOfByteLength(n: nat)
    requires n < 256
    ensures 1 <= |Decimal(n)| <= 3
  {
    if n >= 10 {
      var q := n / 10;
      if q >= 10 {
        assert |Decimal(q / 10)| == 1;
        assert |Decimal(q)| == 2;
      } else {
        assert |Decimal(q)| == 1;
      }
    }
  }

  /** `%03u` for values below 1000: three digits, zero-padded on the left. */
  function Pad3(n: nat): string
    requires n < 1000
  {
    [DigitChar(n / 100), DigitChar(n / 10 % 10), DigitChar(n % 10)]
  }

  /** `%03u` is exactly three digits wide and denotes the value it was given. */
  lemma Pad3Value(n: nat)
    requires n < 1000
    ensures |Pad3(n)| == 3 && AllDigits(Pad3(n))
    ensures DigitsValue(Pad3(n)) == n
  {
    var s := Pad3(n);
    assert s[..2][..1] == [s[0]];
    assert DigitsValue(s[..2][..1]) == n / 100;
    assert DigitsValue(s[..2]) == n / 100 * 10 + n / 10 % 10;
    assert n / 10 == n / 100 * 10 + n / 10 % 10;
    assert DigitsValue(s) == n / 10 * 10 + n % 10;
  }

  // ---------------------------------------------------------------------
  // Dotted-quad addresses: "%d.%d.%d.%d"

  /** The values of `vs` in decimal, joined by dots. */
  function JoinDotted(vs: seq<nat>): string
    requires |vs| >= 1
  {
    if |vs| == 1 then Decimal(vs[0]) else Decimal(vs[0]) + ("." + JoinDotted(vs[1..]))
  }

  function DottedQuad(a: byte, b: byte, c: byte, d: byte): string
  {
    JoinDotted([a, b, c, d])
  }

  /** Reads `n` dot-separated decimal numbers that make up all of `s`. */
  function ParseDotted(s: string, n: nat): Option<seq<nat>>
    requires n >= 1
    decreases n
  {
    match ParseNumber(s)
    case None => None
    case Some((v, rest)) =>
      if n == 1 then
        (if rest == [] then Some([v]) else None)
      else if rest != [] && rest[0] == '.' then
        match ParseDotted(rest[1..], n - 1)
        case None => None
        case Some(vs) => Some([v] + vs)
      else None
  }

  lemma {:induction false} JoinDottedRoundTrip(vs: seq<nat>)
    requires |vs| >= 1
    ensures ParseDotted(JoinDotted(vs), |vs|) == Some(vs)
  {
    if |vs| == 1 {
      ParseDottedOne(vs);
    } else {
      JoinDottedRoundTrip(vs[1..]);
      JoinDottedStep(vs);
    }
  }

  /** If the values after the first read back, so do all of them. */
  lemma JoinDottedStep(vs: seq<nat>)
    requires |vs| >= 2
    requires ParseDotted(JoinDotted(vs[1..]), |vs| - 1) == Some(vs[1..])
    ensures ParseDotted(JoinDotted(vs), |vs|) == Some(vs)
  {
    DottedFront(JoinDotted(vs), vs, JoinDotted(vs[1..]));
  }

  /** A number, a dot and text that reads back as the remaining values
      read back as all of them. */
  lemma DottedFront(s: string, vs: seq<nat>, rest: string)
    requires |vs| >= 2 && s == Decimal(vs[0]) + ("." + rest)
    requires ParseDotted(rest, |vs| - 1) == Some(vs[1..])
    ensures ParseDotted(s, |vs|) == Some(vs)
  {
    ParseDecimal(vs[0], "." + rest);
    ParseDottedCons(s, vs[0], rest, vs[1..]);
    HeadTail(vs);
  }

  lemma HeadTail(vs: seq<nat>)
    requires |vs| >= 1
    ensures [vs[0]] + vs[1..] == vs
  {
  }

  /** Text that starts with a number and a dot, followed by text that reads
      back as `vs`, reads back as the number followed by `vs`. */
  lemma ParseDottedCons(s: string, v: nat, rest: string, vs: seq<nat>)
    requires |vs| >= 1 && ParseDotted(rest, |vs|) == Some(vs)
    requires ParseNumber(s) == Some((v, "." + rest))
    ensures ParseDotted(s, |vs| + 1) == Some([v] + vs)
  {
    DotThen(rest);
    ParseDottedStep(s, |vs| + 1, v, "." + rest, vs);
  }

  lemma DotThen(rest: string)
    ensures ("." + rest)[0] == '.' && ("." + rest)[1..] == rest
  {
  }

  /** A lone number reads back as itself. */
  lemma ParseDottedOne(vs: seq<nat>)
    requires |vs| == 1
    ensures ParseDotted(JoinDotted(vs), 1) == Some(vs)
  {
    var s := JoinDotted(vs);
    assert s == Decimal(vs[0]) + [];
    ParseDecimal(vs[0], []);
    assert [vs[0]] == vs;
  }

  /** One step of `ParseDotted`: a number, a dot, and the rest parsed. */
  lemma ParseDottedStep(s: string, n: nat, v: nat, tail: string, vs: seq<nat>)
    requires n >= 2
    requires ParseNumber(s) == Some((v, tail))
    requires tail != [] && tail[0] == '.'
    requires ParseDotted(tail[1..], n - 1) == Some(vs)
    ensures ParseDotted(s, n) == Some([v] + vs)
  {
  }

  /** A dotted quad reads back as the four bytes it was printed from. */
  lemma DottedQuadRoundTrip(a: byte, b: byte, c: byte, d: byte)
    ensures ParseDotted(DottedQuad(a, b, c, d), 4) == Some([a as nat, b as nat, c as nat, d as nat])
  {
    JoinDottedRoundTrip([a, b, c, d]);
  }

  /** Byte values joined by dots take one to three digits each plus the
      dots between them. */
  lemma {:induction false} JoinDottedBytesLength(vs: seq<nat>)
    requires |vs| >= 1 && forall i :: 0 <= i < |vs| ==> vs[i] < 256
    ensures 2 * |vs| - 1 <= |JoinDotted(vs)| <= 4 * |vs| - 1
  {
    DecimalOfByteLength(vs[0]);
    if |vs| > 1 {
      JoinDottedBytesLength(vs[1..]);
    }
  }

  /** A dotted quad is 7 to 15 characters long, so it fits the 17-byte
      buffer it is printed into and the 16-byte buffer of `inet_ntop`. */
  lemma DottedQuadLength(a: byte, b: byte, c: byte, d: byte)
    ensures 7 <= |DottedQuad(a, b, c, d)| <= 15
  {
    JoinDottedBytesLength([a as nat, b as nat, c as nat, d as nat]);
  }

  // ---------------------------------------------------------------------
  // Colon-separated lowercase hex: "%02x:%02x:..."

  function HexDigit(d: nat): (c: char)
    requires d < 16
  {
    if d < 10 then ('0' as int + d) as char else ('a' as int + d - 10) as char
  }

  function HexValue(c: char): Option<nat>
  {
    if '0' <= c <= '9' then Some(c as int - '0' as int)
    else if 'a' <= c <= 'f' then Some(c as int - 'a' as int + 10)
    else None
  }

  /** `%02x`: two lowercase hex digits. */
  function Hex2(b: byte): string
  {
    [HexDigit(b / 16), HexDigit(b % 16)]
  }

  function ParseHex2(s: string): Option<byte>
    requires |s| == 2
  {
    match (HexValue(s[0]), HexValue(s[1]))
    case (Some(h), Some(l)) => if h * 16 + l < 256 then Some(h * 16 + l) else None
    case _ => None
  }

  /** The bytes of `m` as `%02x`, joined by colons. */
  function ColonHex(m: seq<byte>): (s: string)
    requires |m| >= 1
    ensures |s| == 3 * |m| - 1
  {
    if |m| == 1 then Hex2(m[0]) else Hex2(m[0]) + ":" + ColonHex(m[1..])
  }

  /** Reads colon-separated two-digit hex groups that make up all of `s`. */
  function ParseColonHex(s: string): Option<seq<byte>>
    decreases |s|
  {
    if |s| == 2 then
      match ParseHex2(s)
      case None => None
      case Some(b) => Some([b])
    else if |s| > 3 && s[2] == ':' then
      match (ParseHex2(s[..2]), ParseColonHex(s[3..]))
      case (Some(b), Some(bs)) => Some([b] + bs)
      case _ => None
    else None
  }

  lemma {:induction false} ColonHexRoundTrip(m: seq<byte>)
    requires |m| >= 1
    ensures ParseColonHex(ColonHex(m)) == Some(m)
  {
    var s := ColonHex(m);
    assert ParseHex2(Hex2(m[0])) == Some(m[0]);
    if |m| > 1 {
      assert s == Hex2(m[0]) + ":" + ColonHex(m[1..]);
      assert |s| > 3 && s[2] == ':';
      assert s[..2] == Hex2(m[0]);
      assert s[3..] == ColonHex(m[1..]);
      ColonHexRoundTrip(m[1..]);
      assert [m[0]] + m[1..] == m;
    } else {
      assert [m[0]] == m;
    }
  }

  /** A client MAC address: six bytes as "xx:xx:xx:xx:xx:xx". */
  function MacString(m: seq<byte>): string
    requires |m| == 6
  {
    ColonHex(m)
  }

  /** A MAC string is 17 characters and reads back as its six bytes. */
  lemma MacStringRoundTrip(m: seq<byte>)
    requires |m| == 6
    ensures |MacString(m)| == 17
    ensures ParseColonHex(MacString(m)) == Some(m)
  {
    ColonHexRoundTrip(m);
  }
}
