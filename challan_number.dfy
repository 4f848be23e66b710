/** Dispatch (challan) numbering: "CH-" followed by a counter padded with
    zeros to at least five digits. The successor is computed from the number
    of the most recently created challan, read back with JavaScript's
    `split('-')[1]` and `parseInt`. */
module ChallanNumber {
  import opened Common

  const Prefix: string := "CH-"
  const Width: nat := 5

  predicate IsDigit(c: char)
  {
    '0' <= c <= '9'
  }

  function DigitChar(d: nat): (c: char)
    requires d < 10
    ensures IsDigit(c) && c as int - '0' as int == d
  {
    "0123456789"[d]
  }

  /** Number.prototype.toString for a non-negative integer. */
  function NatToString(n: nat): (s: string)
    decreases n
  {
    if n < 10 then [DigitChar(n)] else NatToString(n / 10) + [DigitChar(n % 10)]
  }

  /** String.prototype.padStart. */
  function PadStart(s: string, width: nat, fill: char): (r: string)
    ensures |r| == Max(|s|, width)
    ensures r[|r| - |s|..] == s
    ensures forall i :: 0 <= i < |r| - |s| ==> r[i] == fill
  {
    if |s| >= width then s else seq(width - |s|, _ => fill) + s
  }

  /** The challan number for counter value n. */
  function Format(n: nat): string
  {
    Prefix + Padded(n)
  }

  /** The index of the first occurrence of c in s. */
  function IndexOf(s: string, c: char): (r: Option<nat>)
    ensures r.Some? ==> r.value < |s| && s[r.value] == c && c !in s[..r.value]
    ensures r.None? ==> c !in s
  {
    if |s| == 0 then None
    else if s[0] == c then Some(0)
    else match IndexOf(s[1..], c)
      case None => None
      case Some(i) => assert s[1..][..i] == s[1..i + 1]; Some(i + 1)
  }

  /** `s.split('-')[1]`: the text between the first and the second '-', or up
      to the end; `undefined` (None) when s has no '-'. */
  function Segment(s: string): (r: Option<string>)
    ensures r.None? <==> '-' !in s
    ensures r.Some? ==> '-' !in r.value
  {
    match IndexOf(s, '-')
    case None => None
    case Some(i) =>
      var rest := s[i + 1..];
      match IndexOf(rest, '-')
      case None => Some(rest)
      case Some(j) => Some(rest[..j])
  }

  /** The segment is the text that follows the first '-' and runs up to the
      next '-' or to the end. */
  lemma SegmentText(s: string)
    requires '-' in s
    ensures IndexOf(s, '-').Some? && Segment(s).Some?
    ensures var rest := s[IndexOf(s, '-').value + 1..];
      var t := Segment(s).value;
      && |t| <= |rest| && rest[..|t|] == t
      && (|t| == |rest| || rest[|t|] == '-')
  {
    var rest := s[IndexOf(s, '-').value + 1..];
    match IndexOf(rest, '-')
    case None =>
      assert rest[..|rest|] == rest;
    case Some(j) =>
  }

  /** The characters parseInt skips before the number: JavaScript's
      WhiteSpace (tab, vertical tab, form feed, space, no-break space, the
      byte order mark and every other space separator) and LineTerminator
      (line feed, carriage return, line and paragraph separators). */
  predicate IsSpace(c: char)
  {
    || c == '\t' || c == '\n' || c == '\U{000B}' || c == '\U{000C}' || c == '\r' || c == ' '
    || c == '\U{00A0}' || c == '\U{1680}' || '\U{2000}' <= c <= '\U{200A}'
    || c == '\U{2028}' || c == '\U{2029}' || c == '\U{202F}' || c == '\U{205F}' || c == '\U{3000}' || c == '\U{FEFF}'
  }

  function TrimStart(s: string): (r: string)
    ensures |r| <= |s| && (|r| > 0 ==> !IsSpace(r[0]))
  {
    if |s| > 0 && IsSpace(s[0]) then TrimStart(s[1..]) else s
  }

  /** The length of the longest prefix of s made of decimal digits. */
  function DigitRun(s: string): (k: nat)
    ensures k <= |s|
    ensures forall i :: 0 <= i < k ==> IsDigit(s[i])
    ensures k < |s| ==> !IsDigit(s[k])
  {
    if |s| > 0 && IsDigit(s[0]) then 1 + DigitRun(s[1..]) else 0
  }

  /** The decimal value of a string of digits. */
  function DigitsValue(ds: string): nat
    requires forall i :: 0 <= i < |ds| ==> IsDigit(ds[i])
  {
    if |ds| == 0 then 0
    else DigitsValue(ds[..|ds| - 1]) * 10 + DigitOf(ds[|ds| - 1])
  }

  function DigitOf(c: char): nat
    requires IsDigit(c)
  {
    c as int - '0' as int
  }

  predicate IsHexDigit(c: char)
  {
    IsDigit(c) || 'a' <= c <= 'f' || 'A' <= c <= 'F'
  }

  function HexDigitOf(c: char): (d: nat)
    requires IsHexDigit(c)
    ensures d < 16
  {
    if IsDigit(c) then DigitOf(c) else if 'a' <= c <= 'f' then c as int - 'a' as int + 10 else c as int - 'A' as int + 10
  }

  /** The length of the longest prefix of s made of hexadecimal digits. */
  function HexRun(s: string): (k: nat)
    ensures k <= |s|
    ensures forall i :: 0 <= i < k ==> IsHexDigit(s[i])
    ensures k < |s| ==> !IsHexDigit(s[k])
  {
    if |s| > 0 && IsHexDigit(s[0]) then 1 + HexRun(s[1..]) else 0
  }

  /** The hexadecimal value of a string of hexadecimal digits. */
  function HexValue(hs: string): nat
    requires forall i :: 0 <= i < |hs| ==> IsHexDigit(hs[i])
  {
    if |hs| == 0 then 0
    else HexValue(hs[..|hs| - 1]) * 16 + HexDigitOf(hs[|hs| - 1])
  }

  /** Whether u starts with the "0x" or "0X" that makes parseInt read base 16
      when no radix is given. */
  predicate HexPrefixed(u: string)
  {
    |u| >= 2 && u[0] == '0' && (u[1] == 'x' || u[1] == 'X')
  }

  /** parseInt without a radix on a segment; None stands for NaN. Leading
      white space is skipped, then an optional sign; a segment never holds
      '-', so only '+' can occur. A "0x"/"0X" prefix selects base 16,
      anything else base 10, and the longest run of digits of that base is
      read; no digit at all is NaN. */
  function ParseInt(s: Option<string>): Option<nat>
  {
    if s.None? then None
    else
      var t := TrimStart(s.value);
      var u := if |t| > 0 && t[0] == '+' then t[1..] else t;
      if HexPrefixed(u) then
        var h := u[2..];
        var k := HexRun(h);
        if k == 0 then None else Some(HexValue(h[..k]))
      else
        var k := DigitRun(u);
        if k == 0 then None else Some(DigitsValue(u[..k]))
  }

  /** getNextChallanNumber: "CH-00001" when there is no challan yet; otherwise
      the parsed counter plus one, padded. A number that does not parse gives
      NaN, and `(NaN + 1).toString().padStart(5, '0')` is "00NaN". */
  function Next(last: Option<string>): (r: string)
    ensures last.None? ==> r == Format(1)
    ensures |r| >= |Prefix| + Width && r[..|Prefix|] == Prefix
  {
    if last.None? then "CH-00001"
    else match ParseInt(Segment(last.value))
      case Some(n) => Format(n + 1)
      case None => Prefix + PadStart("NaN", Width, '0')
  }

  lemma {:induction false} NatToStringDigits(n: nat)
    ensures |NatToString(n)| > 0
    ensures forall i :: 0 <= i < |NatToString(n)| ==> IsDigit(NatToString(n)[i])
    ensures DigitsValue(NatToString(n)) == n
    decreases n
  {
    if n >= 10 {
      NatToStringDigits(n / 10);
      var s := NatToString(n);
      assert s[..|s| - 1] == NatToString(n / 10);
    }
  }

  lemma {:induction false} ZerosValue(z: string)
    requires forall i :: 0 <= i < |z| ==> z[i] == '0'
    ensures DigitsValue(z) == 0
  {
    if |z| > 0 {
      ZerosValue(z[..|z| - 1]);
    }
  }

  /** Leading zeros do not change the value of a string of digits. */
  lemma {:induction false} LeadingZerosValue(z: string, s: string)
    requires forall i :: 0 <= i < |z| ==> z[i] == '0'
    requires forall i :: 0 <= i < |s| ==> IsDigit(s[i])
    ensures DigitsValue(z + s) == DigitsValue(s)
    decreases |s|
  {
    if |s| == 0 {
      assert z + s == z;
      ZerosValue(z);
    } else {
      LeadingZerosValue(z, s[..|s| - 1]);
      assert (z + s)[..|z + s| - 1] == z + s[..|s| - 1];
    }
  }

  /** The zero-padded digits of a challan number. */
  function Padded(n: nat): string
  {
    PadStart(NatToString(n), Width, '0')
  }

  lemma PaddedDigits(n: nat)
    ensures |Padded(n)| > 0
    ensures forall i :: 0 <= i < |Padded(n)| ==> IsDigit(Padded(n)[i])
    ensures DigitsValue(Padded(n)) == n
  {
    var digits := NatToString(n);
    NatToStringDigits(n);
    var padded := Padded(n);
    forall i | 0 <= i < |padded|
      ensures IsDigit(padded[i])
    {
      if i >= |padded| - |digits| {
        assert padded[i] == padded[|padded| - |digits|..][i - (|padded| - |digits|)];
      }
    }
    var z := padded[..|padded| - |digits|];
    assert padded == z + padded[|padded| - |digits|..];
    LeadingZerosValue(z, digits);
  }

  lemma SegmentOfFormat(n: nat)
    ensures Segment(Format(n)) == Some(Padded(n))
  {
    PaddedDigits(n);
    var f := Format(n);
    assert f[..2] == "CH";
    assert IndexOf(f, '-') == Some(2);
    assert f[3..] == Padded(n);
    assert '-' !in Padded(n) by {
      forall i | 0 <= i < |Padded(n)| ensures Padded(n)[i] != '-' {
        assert IsDigit(Padded(n)[i]);
      }
    }
  }

  lemma ParseDigits(s: string)
    requires |s| > 0 && forall i :: 0 <= i < |s| ==> IsDigit(s[i])
    ensures ParseInt(Some(s)) == Some(DigitsValue(s))
  {
    assert TrimStart(s) == s;
    assert !HexPrefixed(s) by {
      if |s| >= 2 {
        assert IsDigit(s[1]);
      }
    }
    assert DigitRun(s) == |s| by { DigitRunAll(s); }
    assert s[..|s|] == s;
  }

  lemma {:induction false} DigitRunAll(s: string)
    requires forall i :: 0 <= i < |s| ==> IsDigit(s[i])
    ensures DigitRun(s) == |s|
  {
    if |s| > 0 {
      DigitRunAll(s[1..]);
    }
  }

  /** Reading back the counter of a formatted challan number gives the counter. */
  lemma ParseFormat(n: nat)
    ensures ParseInt(Segment(Format(n))) == Some(n)
  {
    SegmentOfFormat(n);
    PaddedDigits(n);
    ParseDigits(Padded(n));
  }

  lemma HexSegment()
    ensures Segment("CH-0x10") == Some("0x10")
  {
    var s := "CH-0x10";
    assert s[..2] == "CH" && s[2] == '-';
    assert IndexOf(s, '-') == Some(2);
    assert s[3..] == "0x10";
    assert IndexOf("0x10", '-') == None;
  }

  lemma HexParse()
    ensures ParseInt(Some("0x10")) == Some(16)
  {
    var h := "10";
    assert TrimStart("0x10") == "0x10";
    assert HexPrefixed("0x10") && "0x10"[2..] == h;
    assert HexRun(h) == 2 by {
      assert h[1..] == "0" && "0"[1..] == "";
    }
    assert h[..2] == h && h[..1] == "1";
    assert HexValue(h) == HexValue("1") * 16 + 0;
    assert HexValue("1") == HexValue("") * 16 + 1 by { assert "1"[..0] == ""; }
  }

  /** A stored number whose counter reads as hexadecimal: parseInt takes
      "0x10" as 16, so the next number is CH-00017. */
  lemma HexCounter()
    ensures Next(Some("CH-0x10")) == Format(17)
  {
    HexSegment();
    HexParse();
  }

  /** The successor of a formatted number is the formatted successor. */
  lemma SuccessorOfFormat(n: nat)
    ensures Next(Some(Format(n))) == Format(n + 1)
  {
    ParseFormat(n);
  }

  /** Distinct counters give distinct challan numbers. */
  lemma FormatInjective(n: nat, m: nat)
    ensures Format(n) == Format(m) <==> n == m
  {
    if Format(n) == Format(m) {
      ParseFormat(n);
      ParseFormat(m);
    }
  }
}
