/** `parseInt(s, 16)` as the gate-time resolver uses it to read the creation second
    embedded in the first 8 characters of a 24-character record identifier. */
module ParseInt {
  import opened JsText

  predicate IsHexDigit(c: char)
  {
    '0' <= c <= '9' || 'a' <= c <= 'f' || 'A' <= c <= 'F'
  }

  ghost predicate AllHex(d: string)
  {
    forall i :: 0 <= i < |d| ==> IsHexDigit(d[i])
  }

  function DigitValue(c: char): (v: nat)
    requires IsHexDigit(c)
    ensures v < 16
  {
    if '0' <= c <= '9' then c as int - '0' as int
    else if 'a' <= c <= 'f' then c as int - 'a' as int + 10
    else c as int - 'A' as int + 10
  }

  /** The lower-case digit for a value below 16 (the encoder the decoder is checked against). */
  function DigitChar(v: nat): (c: char)
    requires v < 16
    ensures IsHexDigit(c) && DigitValue(c) == v
  {
    if v < 10 then ('0' as int + v) as char else ('a' as int + v - 10) as char
  }

  function Pow16(k: nat): nat
  {
    if k == 0 then 1 else 16 * Pow16(k - 1)
  }

  /** The longest prefix of `s` made of hexadecimal digits. */
  function HexRun(s: string): (d: string)
    ensures d <= s && AllHex(d)
    ensures |d| < |s| ==> !IsHexDigit(s[|d|])
  {
    if s != [] && IsHexDigit(s[0]) then [s[0]] + HexRun(s[1..]) else ""
  }

  /** The big-endian value of a run of hexadecimal digits. */
  function HexValue(d: string): (v: nat)
    requires AllHex(d)
    ensures v < Pow16(|d|)
  {
    if d == [] then 0 else HexValue(d[..|d| - 1]) * 16 + DigitValue(d[|d| - 1])
  }

  /** After leading whitespace and an optional sign: the text whose digits are read. */
  function Unsigned(s: string): string
  {
    var t := TrimStart(s);
    if t != [] && (t[0] == '-' || t[0] == '+') then t[1..] else t
  }

  predicate Negative(s: string)
  {
    var t := TrimStart(s);
    t != [] && t[0] == '-'
  }

  /** The digit run `parseInt(s, 16)` reads: a `0x`/`0X` prefix is skipped before it. */
  function DigitsRead(s: string): string
  {
    var u := Unsigned(s);
    if |u| >= 2 && u[0] == '0' && (u[1] == 'x' || u[1] == 'X') then HexRun(u[2..]) else HexRun(u)
  }

  /** `parseInt(s, 16)`; None stands for NaN. */
  function ParseIntHex(s: string): Option<int>
  {
    var d := DigitsRead(s);
    if d == "" then None
    else
      var v: int := HexValue(d);
      if Negative(s) then Some(-v) else Some(v)
  }

  /** `n` written with exactly `width` lower-case hexadecimal digits. */
  function HexDigits(n: nat, width: nat): (d: string)
    ensures |d| == width && AllHex(d)
  {
    if width == 0 then "" else HexDigits(n / 16, width - 1) + [DigitChar(n % 16)]
  }

  /** Decoding the digits of a number that fits gives the number back. */
  lemma {:induction false} HexRoundTrip(n: nat, width: nat)
    requires n < Pow16(width)
    ensures HexValue(HexDigits(n, width)) == n
  {
    if width > 0 {
      assert n / 16 < Pow16(width - 1);
      HexRoundTrip(n / 16, width - 1);
      var d := HexDigits(n, width);
      assert d[..|d| - 1] == HexDigits(n / 16, width - 1);
    }
  }

  /** A non-empty string of hexadecimal digits parses to its big-endian value. */
  lemma ParseAllHex(d: string)
    requires d != "" && AllHex(d)
    ensures ParseIntHex(d) == Some(HexValue(d))
  {
    assert TrimStart(d) == d by { HexDigitNotSpace(d[0]); }
    assert Unsigned(d) == d && !Negative(d) by { assert IsHexDigit(d[0]); }
    assert !(|d| >= 2 && d[0] == '0' && (d[1] == 'x' || d[1] == 'X')) by {
      if |d| >= 2 { assert IsHexDigit(d[1]); }
    }
    HexRunOfHex(d);
  }

  lemma HexDigitNotSpace(c: char)
    requires IsHexDigit(c)
    ensures !IsWhitespace(c)
  {
  }

  lemma {:induction false} HexRunOfHex(d: string)
    requires AllHex(d)
    ensures HexRun(d) == d
  {
    if d != [] {
      HexRunOfHex(d[1..]);
    }
  }

  /** `parseInt` reads back every fixed-width encoding the resolver can meet. */
  lemma ParseHexDigits(n: nat, width: nat)
    requires 0 < width && n < Pow16(width)
    ensures ParseIntHex(HexDigits(n, width)) == Some(n)
  {
    ParseAllHex(HexDigits(n, width));
    HexRoundTrip(n, width);
  }

  lemma HexValueAppend(d: string, c: char)
    requires AllHex(d) && IsHexDigit(c)
    ensures AllHex(d + [c]) && HexValue(d + [c]) == HexValue(d) * 16 + DigitValue(c)
  {
    assert (d + [c])[..|d|] == d;
  }

  /** The creation prefix of the identifier "507f191e810c19729de860ea" reads as 1350506782. */
  lemma ParseObjectIdPrefix()
    ensures ParseIntHex("507f191e") == Some(1350506782)
  {
    assert AllHex("507f191e");
    assert HexValue("507f191e") == 1350506782 by { ObjectIdPrefixValue(); }
    ParseAllHex("507f191e");
  }

  lemma ObjectIdPrefixValue()
    ensures AllHex("507f191e") && HexValue("507f191e") == 1350506782
  {
    HexValueAppend("", '5');
    assert "" + ['5'] == "5";
    assert HexValue("5") == 5;
    HexValueAppend("5", '0');
    assert "5" + ['0'] == "50";
    assert HexValue("50") == 80;
    HexValueAppend("50", '7');
    assert "50" + ['7'] == "507";
    assert HexValue("507") == 1287;
    HexValueAppend("507", 'f');
    assert "507" + ['f'] == "507f";
    assert HexValue("507f") == 20607;
    HexValueAppend("507f", '1');
    assert "507f" + ['1'] == "507f1";
    assert HexValue("507f1") == 329713;
    HexValueAppend("507f1", '9');
    assert "507f1" + ['9'] == "507f19";
    assert HexValue("507f19") == 5275417;
    HexValueAppend("507f19", '1');
    assert "507f19" + ['1'] == "507f191";
    assert HexValue("507f191") == 84406673;
    HexValueAppend("507f191", 'e');
    assert "507f191" + ['e'] == "507f191e";
    assert HexValue("507f191e") == 1350506782;
  }
}
