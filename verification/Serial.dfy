// The certificate serial formatter and its inverse.
module Serial {
  const DIGITS := "0123456789abcdef"

  function HexDigit(d: nat): char
    requires d < 16
  {
    DIGITS[d]
  }

  // SerialNumber.Text(16)
  function Text16(n: nat): string {
    if n < 16 then [HexDigit(n)] else Text16(n / 16) + [HexDigit(n % 16)]
  }

  // Every two characters, left to right, are followed by a colon.
  function ReplacePairs(s: string): string {
    if |s| < 2 then s else s[..2] + ":" + ReplacePairs(s[2..])
  }

  function TrimRightColons(s: string): string {
    if s != [] && s[|s| - 1] == ':' then TrimRightColons(s[..|s| - 1]) else s
  }

  function Pad(code: string): (r: string)
    ensures |r| % 2 == 0
  {
    if |code| % 2 == 1 then "0" + code else code
  }

  function GetSerial(n: nat): string {
    TrimRightColons(ReplacePairs(Pad(Text16(n))))
  }

  // Every character stays, and a colon comes after each complete pair.
  lemma {:induction false} PairsAt(s: string, i: nat)
    requires i < |s|
    ensures var r := ReplacePairs(s);
      && |r| == |s| + |s| / 2 && r[i + i / 2] == s[i]
      && (i % 2 == 1 ==> r[i + i / 2 + 1] == ':')
  {
    if |s| < 2 {
    } else if i < 2 {
      if |s| > 2 { PairsAt(s[2..], 0); }
    } else {
      PairsAt(s[2..], i - 2);
      var r, rest := ReplacePairs(s), ReplacePairs(s[2..]);
      assert r == s[..2] + ":" + rest && |s[..2] + ":"| == 3;
      assert r[i + i / 2] == rest[(i - 2) + (i - 2) / 2];
    }
  }

  // All colons at the end go, and nothing else.
  lemma {:induction false} TrimsAllColons(s: string)
    ensures var r := TrimRightColons(s);
      && r <= s && (forall k :: |r| <= k < |s| ==> s[k] == ':')
      && (r != [] ==> r[|r| - 1] != ':')
  {
    if s != [] && s[|s| - 1] == ':' {
      TrimsAllColons(s[..|s| - 1]);
    } else {
    }
  }

  // The format ACM reports: the octets of the number, most significant first,
  // two hexadecimal digits each, separated by colons.
  function HexOctet(b: nat): string
    requires b < 256
  {
    [HexDigit(b / 16), HexDigit(b % 16)]
  }

  function ColonHex(n: nat): string {
    if n < 256 then HexOctet(n) else ColonHex(n / 256) + ":" + HexOctet(n % 256)
  }

  // Reads a colon-separated hexadecimal string back as a number.
  function DigitValue(c: char): nat {
    if '0' <= c <= '9' then (c - '0') as nat
    else if 'a' <= c <= 'f' then (c - 'a') as nat + 10
    else 0
  }

  function ParseSerial(s: string): nat {
    if s == [] then 0
    else if s[|s| - 1] == ':' then ParseSerial(s[..|s| - 1])
    else 16 * ParseSerial(s[..|s| - 1]) + DigitValue(s[|s| - 1])
  }

  lemma DigitRoundTrip(d: nat)
    requires d < 16
    ensures DigitValue(HexDigit(d)) == d && HexDigit(d) != ':'
  {
    assert DIGITS[0] == '0' && DIGITS[1] == '1' && DIGITS[2] == '2' && DIGITS[3] == '3';
    assert DIGITS[4] == '4' && DIGITS[5] == '5' && DIGITS[6] == '6' && DIGITS[7] == '7';
    assert DIGITS[8] == '8' && DIGITS[9] == '9' && DIGITS[10] == 'a' && DIGITS[11] == 'b';
    assert DIGITS[12] == 'c' && DIGITS[13] == 'd' && DIGITS[14] == 'e' && DIGITS[15] == 'f';
  }

  lemma SplitOctet(n: nat)
    ensures n / 16 / 16 == n / 256 && n / 16 % 16 == n % 256 / 16 && n % 16 == n % 256 % 16
  {
    var q, r := n / 256, n % 256;
    assert n == 256 * q + r && n / 16 == 16 * q + r / 16;
  }

  lemma Text16Step(n: nat)
    requires n >= 256
    ensures Text16(n) == Text16(n / 256) + HexOctet(n % 256)
  {
    SplitOctet(n);
    var m := n / 16;
    assert Text16(n) == Text16(m) + [HexDigit(n % 16)];
    assert Text16(m) == Text16(m / 16) + [HexDigit(m % 16)];
    assert [HexDigit(m % 16)] + [HexDigit(n % 16)] == HexOctet(n % 256);
  }

  lemma PadAppend(s: string, pair: string)
    requires |pair| == 2
    ensures Pad(s + pair) == Pad(s) + pair
  {
    assert |s + pair| == |s| + 2;
    assert "0" + (s + pair) == "0" + s + pair;
  }

  lemma PaddedOctet(n: nat)
    requires n < 256
    ensures Pad(Text16(n)) == HexOctet(n)
  {
    if n < 16 {
      assert Text16(n) == [HexDigit(n)];
      assert HexDigit(0) == '0';
      assert "0" + [HexDigit(n)] == HexOctet(n);
    } else {
      var m := n / 16;
      assert Text16(m) == [HexDigit(m)];
      assert Text16(n) == [HexDigit(m)] + [HexDigit(n % 16)] == HexOctet(n);
    }
  }

  // Two hexadecimal digits at a time, the padded text is the text of the
  // octets.
  lemma PaddedByOctet(n: nat)
    requires n >= 256
    ensures Pad(Text16(n)) == Pad(Text16(n / 256)) + HexOctet(n % 256)
  {
    Text16Step(n);
    PadAppend(Text16(n / 256), HexOctet(n % 256));
  }

  lemma {:induction false} ReplacePairsAppend(s: string, pair: string)
    requires |s| % 2 == 0 && |pair| == 2
    ensures ReplacePairs(s + pair) == ReplacePairs(s) + pair + ":"
  {
    if s == [] {
      assert s + pair == pair && pair[..2] == pair && pair[2..] == [];
      assert ReplacePairs([]) == "";
    } else {
      assert (s + pair)[..2] == s[..2] && (s + pair)[2..] == s[2..] + pair;
      ReplacePairsAppend(s[2..], pair);
    }
  }

  lemma {:induction false} PairsOfPadded(n: nat)
    ensures ReplacePairs(Pad(Text16(n))) == ColonHex(n) + ":"
    decreases n
  {
    if n < 256 {
      PaddedOctet(n);
      ReplacePairsAppend("", HexOctet(n));
      assert "" + HexOctet(n) == HexOctet(n);
      assert ReplacePairs("") == "";
    } else {
      PaddedByOctet(n);
      PairsOfPadded(n / 256);
      ReplacePairsAppend(Pad(Text16(n / 256)), HexOctet(n % 256));
    }
  }

  lemma ColonHexEndsInDigit(n: nat)
    ensures ColonHex(n) != [] && ColonHex(n)[|ColonHex(n)| - 1] != ':'
  {
    DigitRoundTrip(n % 256 % 16);
  }

  // The formatter produces exactly the format ACM reports.
  lemma GetSerialIsColonHex(n: nat)
    ensures GetSerial(n) == ColonHex(n)
  {
    PairsOfPadded(n);
    ColonHexEndsInDigit(n);
    var s := ColonHex(n) + ":";
    assert s[..|s| - 1] == ColonHex(n);
    assert TrimRightColons(s) == TrimRightColons(ColonHex(n)) == ColonHex(n);
  }

  lemma ParseOctet(s: string, b: nat)
    requires b < 256
    ensures ParseSerial(s + HexOctet(b)) == 256 * ParseSerial(s) + b
  {
    var t := s + HexOctet(b);
    DigitRoundTrip(b / 16);
    DigitRoundTrip(b % 16);
    var u := t[..|t| - 1];
    assert u[..|u| - 1] == s;
    assert ParseSerial(u) == 16 * ParseSerial(s) + b / 16;
  }

  // Formatting loses nothing: the serial can be read back from its text.
  lemma {:induction false} SerialRoundTrip(n: nat)
    ensures ParseSerial(GetSerial(n)) == n
    decreases n
  {
    GetSerialIsColonHex(n);
    if n < 256 {
      ParseOctet("", n);
      assert "" + HexOctet(n) == HexOctet(n);
      assert ParseSerial("") == 0;
    } else {
      SerialRoundTrip(n / 256);
      GetSerialIsColonHex(n / 256);
      var s := ColonHex(n / 256) + ":";
      assert s[..|s| - 1] == ColonHex(n / 256);
      ParseOctet(s, n % 256);
    }
  }

  lemma SerialsDifferIff(a: nat, b: nat)
    ensures GetSerial(a) != ColonHex(b) <==> a != b
  {
    GetSerialIsColonHex(b);
    SerialRoundTrip(a);
    SerialRoundTrip(b);
  }
}
