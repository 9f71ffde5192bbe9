/**
 * The colour picker's value is a string such as "#00FFAA"; the annotation page
 * turns it into a channel triple with the nested helper `hex_to_rgb`: strip every
 * leading '#', cut the rest at offsets 0, 2 and 4 into slices of two characters
 * (Python slices, clamped at the end of the string) and read each slice as a
 * base-16 integer. Python's `int("", 16)` raises, which is `None` here.
 */
module HexColor {

  datatype Option<+T> = None | Some(value: T)

  /** The triple `hex_to_rgb` returns, in the order of the string: red, green, blue. */
  datatype Rgb = Rgb(red: int, green: int, blue: int)

  /** Every component is an 8-bit channel value. */
  predicate InRange(c: Rgb) {
    0 <= c.red < 256 && 0 <= c.green < 256 && 0 <= c.blue < 256
  }

  predicate IsHexDigit(ch: char) {
    '0' <= ch <= '9' || 'a' <= ch <= 'f' || 'A' <= ch <= 'F'
  }

  /** The value of one hexadecimal digit; upper and lower case read alike. */
  function DigitValue(ch: char): (v: nat)
    requires IsHexDigit(ch)
    ensures v < 16
  {
    if '0' <= ch <= '9' then ch as int - '0' as int
    else if 'a' <= ch <= 'f' then ch as int - 'a' as int + 10
    else ch as int - 'A' as int + 10
  }

  /** `s.lstrip('#')`: `s` is some number of '#' followed by the result. */
  function StripHashes(s: string): (r: string)
    ensures |r| <= |s| && s == Hashes(|s| - |r|) + r
    ensures r == [] || r[0] != '#'
  {
    if |s| > 0 && s[0] == '#' then StripHashes(s[1..]) else s
  }

  /** `n` copies of '#'. */
  function Hashes(n: nat): (s: string)
    ensures |s| == n && forall i :: 0 <= i < n ==> s[i] == '#'
  {
    if n == 0 then [] else ['#'] + Hashes(n - 1)
  }

  /** Python's slice `s[i:j]` for 0 <= i <= j: both ends are clamped to the length. */
  function Slice(s: string, i: nat, j: nat): (r: string)
    requires i <= j
    ensures |r| == (if j <= |s| then j - i else if i <= |s| then |s| - i else 0)
    ensures forall k :: 0 <= k < |r| ==> r[k] == s[i + k]
  {
    if i >= |s| then [] else if j >= |s| then s[i..] else s[i..j]
  }

  predicate AllHexDigits(s: string) {
    forall i :: 0 <= i < |s| ==> IsHexDigit(s[i])
  }

  /**
   * The value of a run of hex digits, most significant digit first: `int(s, 16)`
   * for a non-empty run. The empty run gives 0 here; `ParseSlice` reports it as
   * the error `int("", 16)` raises.
   */
  function ParseHex(s: string): (v: nat)
    requires AllHexDigits(s)
    ensures v < Pow16(|s|)
  {
    if s == [] then 0 else ParseHex(s[..|s| - 1]) * 16 + DigitValue(s[|s| - 1])
  }

  function Pow16(n: nat): (p: nat)
    ensures p >= 1
  {
    if n == 0 then 1 else 16 * Pow16(n - 1)
  }

  /** `int(s, 16)` for a slice: the empty slice raises `ValueError`. */
  function ParseSlice(s: string): (r: Option<nat>)
    requires AllHexDigits(s)
    ensures r.None? <==> s == []
    ensures r.Some? ==> r.value < Pow16(|s|)
  {
    if s == [] then None else Some(ParseHex(s))
  }

  /**
   * The inputs the model admits: every character `hex_to_rgb` reads after stripping
   * (at most the first six) is a hexadecimal digit.
   */
  predicate WellFormed(hex: string) {
    var s := StripHashes(hex);
    forall i :: 0 <= i < |s| && i < 6 ==> IsHexDigit(s[i])
  }

  /** The value of the (one- or two-character) group starting at offset `i`. */
  function GroupValue(s: string, i: nat): nat
    requires i < |s|
    requires forall k :: i <= k < |s| && k < i + 2 ==> IsHexDigit(s[k])
  {
    if i + 1 < |s| then 16 * DigitValue(s[i]) + DigitValue(s[i + 1]) else DigitValue(s[i])
  }

  /** `hex_to_rgb(hex_color)`: strip the leading '#', then read the three groups. */
  function HexToRgb(hex: string): (r: Option<Rgb>)
    requires WellFormed(hex)
    ensures r.Some? <==> |StripHashes(hex)| >= 5
    ensures r.Some? ==> InRange(r.value)
  {
    ParseGroups(StripHashes(hex))
  }

  /**
   * The tuple comprehension of `hex_to_rgb` on the stripped string: the components
   * come, in order, from the characters at [0,2), [2,4) and [4,6); nothing from
   * offset 6 on is read. It fails exactly when a slice is empty.
   */
  function ParseGroups(s: string): (r: Option<Rgb>)
    requires forall i :: 0 <= i < |s| && i < 6 ==> IsHexDigit(s[i])
    ensures r.Some? <==> |s| >= 5
    ensures r.Some? ==> InRange(r.value)
    ensures r.Some? ==> r.value == Rgb(GroupValue(s, 0), GroupValue(s, 2), GroupValue(s, 4))
  {
    SlicesParse(s);
    match (ParseSlice(Slice(s, 0, 2)), ParseSlice(Slice(s, 2, 4)), ParseSlice(Slice(s, 4, 6)))
    case (Some(red), Some(green), Some(blue)) => Some(Rgb(red, green, blue))
    case _ => None
  }

  /**
   * The three slices of a stripped string are runs of hex digits; they are all
   * non-empty exactly when the string has at least five characters, and then each
   * reads as the value of its group.
   */
  lemma SlicesParse(s: string)
    requires forall i :: 0 <= i < |s| && i < 6 ==> IsHexDigit(s[i])
    ensures AllHexDigits(Slice(s, 0, 2)) && AllHexDigits(Slice(s, 2, 4)) && AllHexDigits(Slice(s, 4, 6))
    ensures (Slice(s, 0, 2) != [] && Slice(s, 2, 4) != [] && Slice(s, 4, 6) != []) <==> |s| >= 5
    ensures |s| >= 5 ==>
      ParseHex(Slice(s, 0, 2)) == GroupValue(s, 0) < 256 &&
      ParseHex(Slice(s, 2, 4)) == GroupValue(s, 2) < 256 &&
      ParseHex(Slice(s, 4, 6)) == GroupValue(s, 4) < 256
  {
    if |s| >= 5 {
      SliceValue(s, 0);
      SliceValue(s, 2);
      SliceValue(s, 4);
    }
  }

  /** A slice of one or two hex digits reads as the digit value of its group. */
  lemma SliceValue(s: string, i: nat)
    requires i < |s|
    requires forall k :: i <= k < |s| && k < i + 2 ==> IsHexDigit(s[k])
    ensures AllHexDigits(Slice(s, i, i + 2))
    ensures ParseHex(Slice(s, i, i + 2)) == GroupValue(s, i) < 256
  {
    var t := Slice(s, i, i + 2);
    assert t[..|t| - 1][..0] == [];
    if i + 1 < |s| {
      assert t[..1] == [s[i]];
    }
  }

  /** Any number of leading '#' is stripped away, so it does not change the parse. */
  lemma {:induction false} LeadingHashesIgnored(n: nat, hex: string)
    ensures StripHashes(Hashes(n) + hex) == StripHashes(hex)
    ensures WellFormed(hex) ==> WellFormed(Hashes(n) + hex) && HexToRgb(Hashes(n) + hex) == HexToRgb(hex)
  {
    if n > 0 {
      assert (Hashes(n) + hex)[0] == '#';
      assert (Hashes(n) + hex)[1..] == Hashes(n - 1) + hex;
      LeadingHashesIgnored(n - 1, hex);
      assert StripHashes(Hashes(n) + hex) == StripHashes(Hashes(n - 1) + hex);
    } else {
      assert Hashes(n) + hex == hex;
    }
  }

  /** A string that does not begin with '#' is parsed as it stands. */
  lemma NoHashParsedUnchanged(hex: string)
    requires hex == [] || hex[0] != '#'
    requires WellFormed(hex)
    ensures StripHashes(hex) == hex
    ensures HexToRgb(hex) == ParseGroups(hex)
  {
    assert StripHashes(hex) == hex;
  }

  /** Stripping only looks at the front: text appended after a non-empty remainder stays. */
  lemma {:induction false} StripHashesAppend(s: string, tail: string)
    requires StripHashes(s) != []
    ensures StripHashes(s + tail) == StripHashes(s) + tail
  {
    if s[0] == '#' {
      assert (s + tail)[1..] == s[1..] + tail;
      StripHashesAppend(s[1..], tail);
    } else {
      assert (s + tail)[0] == s[0];
    }
  }

  /** Characters from offset 6 onward of the stripped string are never read. */
  lemma TrailingCharactersIgnored(hex: string, tail: string)
    requires WellFormed(hex)
    requires |StripHashes(hex)| >= 6
    ensures WellFormed(hex + tail)
    ensures HexToRgb(hex + tail) == HexToRgb(hex)
  {
    StripHashesAppend(hex, tail);
    var s, t := StripHashes(hex), StripHashes(hex + tail);
    assert forall i :: 0 <= i < 6 ==> t[i] == s[i];
    assert GroupValue(t, 0) == GroupValue(s, 0);
    assert GroupValue(t, 2) == GroupValue(s, 2);
    assert GroupValue(t, 4) == GroupValue(s, 4);
  }

  /** The picker's format, '#' and six hex digits, parses pair by pair. */
  lemma PickerFormat(hex: string)
    requires |hex| == 7 && hex[0] == '#'
    requires forall i :: 1 <= i < 7 ==> IsHexDigit(hex[i])
    ensures WellFormed(hex)
    ensures HexToRgb(hex) == Some(Rgb(16 * DigitValue(hex[1]) + DigitValue(hex[2]),
                                      16 * DigitValue(hex[3]) + DigitValue(hex[4]),
                                      16 * DigitValue(hex[5]) + DigitValue(hex[6])))
  {
    var s := hex[1..];
    assert hex[1..][1..] == hex[2..];
    assert StripHashes(s) == s;
    assert StripHashes(hex) == s;
  }

  /** The colour picker's default value. */
  lemma DefaultColour()
    ensures WellFormed("#00FFAA")
    ensures HexToRgb("#00FFAA") == Some(Rgb(0, 255, 170))
  {
    PickerFormat("#00FFAA");
    assert DigitValue('0') == 0 && DigitValue('F') == 15 && DigitValue('A') == 10;
  }

  /** One hexadecimal digit, as a formatter writes it. */
  function HexDigit(v: nat, upper: bool): (ch: char)
    requires v < 16
    ensures IsHexDigit(ch) && DigitValue(ch) == v
    ensures ch != '#'
  {
    if v < 10 then ('0' as int + v) as char
    else if upper then ('A' as int + v - 10) as char
    else ('a' as int + v - 10) as char
  }

  /** '#' followed by three two-digit hex pairs, the form the colour picker produces. */
  function FormatHex(c: Rgb, upper: bool): (s: string)
    requires InRange(c)
    ensures |s| == 7 && s[0] == '#'
    ensures forall i :: 1 <= i < 7 ==> IsHexDigit(s[i])
  {
    ['#', HexDigit(c.red / 16, upper), HexDigit(c.red % 16, upper),
     HexDigit(c.green / 16, upper), HexDigit(c.green % 16, upper),
     HexDigit(c.blue / 16, upper), HexDigit(c.blue % 16, upper)]
  }

  /** Formatting and then parsing gives back the triple, in either letter case. */
  lemma RoundTrip(c: Rgb, upper: bool)
    requires InRange(c)
    ensures WellFormed(FormatHex(c, upper))
    ensures HexToRgb(FormatHex(c, upper)) == Some(c)
  {
    PickerFormat(FormatHex(c, upper));
  }
}
