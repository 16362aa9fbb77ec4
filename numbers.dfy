/**
 * `int.TryParse(s, out v)` and `int.ToString()` as the core uses them: the default
 * `NumberStyles.Integer` (optional blanks around, an optional leading sign, decimal digits,
 * and the Int32 range) and the plain decimal rendering with a leading '-' for negatives.
 */
module Numbers {
  import opened Wrappers
  import opened Int32s
  import opened Text

  predicate IsDigit(c: char) {
    '0' <= c <= '9'
  }

  predicate AllDigits(s: string) {
    forall i :: 0 <= i < |s| ==> IsDigit(s[i])
  }

  function DigitValue(c: char): nat
    requires IsDigit(c)
  {
    c as int - '0' as int
  }

  function DigitChar(d: nat): (c: char)
    requires d < 10
    ensures IsDigit(c) && DigitValue(c) == d
  {
    ('0' as int + d) as char
  }

  /** The value of a string of decimal digits, most significant first. */
  function DigitsValue(s: string): nat
    requires AllDigits(s)
  {
    if |s| == 0 then 0 else 10 * DigitsValue(s[..|s| - 1]) + DigitValue(s[|s| - 1])
  }

  /** The value of `s` when every character of it is a decimal digit. */
  function ScanDigits(s: string): Option<nat> {
    if |s| == 0 then Some(0)
    else
      match ScanDigits(s[..|s| - 1])
      case None => None
      case Some(v) => if IsDigit(s[|s| - 1]) then Some(10 * v + DigitValue(s[|s| - 1])) else None
  }

  /** ScanDigits accepts exactly the strings of digits, and reads their value. */
  lemma {:induction false} ScanDigitsSpec(s: string)
    ensures ScanDigits(s).Some? <==> AllDigits(s)
    ensures ScanDigits(s).Some? ==> ScanDigits(s).value == DigitsValue(s)
  {
    if |s| > 0 {
      var init := s[..|s| - 1];
      ScanDigitsSpec(init);
      assert forall i :: 0 <= i < |s| - 1 ==> init[i] == s[i];
    }
  }

  /** The value a sign and a magnitude give, if it is an Int32. */
  function Signed(negative: bool, magnitude: nat): Option<Int32> {
    var v: int := if negative then -(magnitude as int) else magnitude;
    if InRange(v) then Some(v) else None
  }

  /** `int.TryParse(s, out v)`; `None` where it returns false. After the digits and the trailing
      blanks the .NET number parser also lets a run of '\0' characters end the text. */
  function ParseInt32(s: string): Option<Int32> {
    ParseTrimmedInt32(TrimBy(DropTrailingNuls(s), NumberWhite))
  }

  /** `s` without the run of '\0' characters at its end. */
  function DropTrailingNuls(s: string): string {
    if |s| > 0 && s[|s| - 1] == '\0' then DropTrailingNuls(s[..|s| - 1]) else s
  }

  /** What is dropped is exactly the longest all-'\0' suffix. */
  lemma {:induction false} DropTrailingNulsSpec(s: string)
    ensures var r := DropTrailingNuls(s);
      |r| <= |s| && r == s[..|r|]
      && (forall i :: |r| <= i < |s| ==> s[i] == '\0')
      && (|r| > 0 ==> r[|r| - 1] != '\0')
  {
    if |s| > 0 && s[|s| - 1] == '\0' {
      DropTrailingNulsSpec(s[..|s| - 1]);
    }
  }

  /** A text that does not end in '\0' keeps everything. */
  lemma KeepsNulFreeEnd(s: string)
    requires |s| == 0 || s[|s| - 1] != '\0'
    ensures DropTrailingNuls(s) == s
  {
  }

  /** A run of '\0' after a text that does not end in '\0' changes nothing: "1\0" reads as 1. */
  lemma ParseIgnoresTrailingNuls(u: string, nuls: nat)
    requires |u| == 0 || u[|u| - 1] != '\0'
    ensures ParseInt32(u + seq(nuls, _ => '\0')) == ParseInt32(u)
  {
    DropNulRun(u, nuls);
  }

  /** Dropping the '\0' run after a text that does not end in '\0' gives that text. */
  lemma {:induction false} DropNulRun(u: string, nuls: nat)
    requires |u| == 0 || u[|u| - 1] != '\0'
    ensures DropTrailingNuls(u + seq(nuls, _ => '\0')) == u
    decreases nuls
  {
    if nuls == 0 {
      assert u + seq(nuls, _ => '\0') == u;
    } else {
      var v := u + seq(nuls, _ => '\0');
      assert v[..|v| - 1] == u + seq(nuls - 1, _ => '\0');
      DropNulRun(u, nuls - 1);
    }
  }

  /** An optional sign followed by at least one decimal digit, in the Int32 range. */
  function ParseTrimmedInt32(t: string): Option<Int32> {
    if |t| == 0 then None
    else
      var signed := t[0] == '-' || t[0] == '+';
      var digits := if signed then t[1..] else t;
      if |digits| == 0 then None
      else
        match ScanDigits(digits)
        case None => None
        case Some(m) => Signed(t[0] == '-', m)
  }

  /** The shortest decimal digits of `n`. */
  function NatToString(n: nat): (r: string)
    ensures |r| > 0 && AllDigits(r) && DigitsValue(r) == n
    ensures |r| > 1 ==> r[0] != '0'
  {
    if n < 10 then [DigitChar(n)]
    else
      var r := NatToString(n / 10) + [DigitChar(n % 10)];
      assert r[..|r| - 1] == NatToString(n / 10);
      r
  }

  /** `n.ToString()` for a C# int. */
  function IntToString(n: int): string {
    if n < 0 then "-" + NatToString(-n) else NatToString(n)
  }

  /** Parsing what `ToString` printed gives the number back. */
  lemma ParseIntToString(n: Int32)
    ensures ParseInt32(IntToString(n)) == Some(n)
  {
    var s := IntToString(n);
    var m: nat := if n < 0 then -(n as int) else n;
    var digits := NatToString(m);
    assert s[|s| - 1] == digits[|digits| - 1];
    TrimByNoOp(s, NumberWhite);
    ScanDigitsSpec(digits);
    if n < 0 {
      assert s[1..] == digits;
    }
  }

  /** On ASCII text `char.IsWhiteSpace` and the number parser's blanks coincide. */
  lemma AsciiWhiteSpaceIsNumberWhite(c: char)
    requires IsAsciiChar(c)
    ensures IsWhiteSpace(c) == IsNumberWhite(c)
  {
  }

  /** For ASCII text without '\0', trimming a field before `int.TryParse` changes nothing. */
  lemma ParseIgnoresTrim(s: string)
    requires IsAscii(s) && '\0' !in s
    ensures ParseInt32(Trim(s)) == ParseInt32(s)
  {
    var a := TrimByIsSlice(s, WhiteSpace);
    var t := Trim(s);
    assert '\0' !in t by {
      assert forall i :: 0 <= i < |t| ==> t[i] == s[a + i];
    }
    KeepsNulFreeEnd(s);
    KeepsNulFreeEnd(t);
    forall i | 0 <= i < |s| ensures IsSpace(WhiteSpace, s[i]) == IsSpace(NumberWhite, s[i]) {
      AsciiWhiteSpaceIsNumberWhite(s[i]);
    }
    TrimByAgree(s, WhiteSpace, NumberWhite);
    TrimByIdempotent(s, NumberWhite);
  }

  /** With a '\0' before a trailing blank, trimming does matter: "1\0 " is refused, since the
      blank after the '\0' is neither a digit, a trailing blank nor a '\0', while its trim "1\0"
      reads as 1. */
  lemma TrimMattersAfterNul()
    ensures ParseInt32("1\0 ") == None
    ensures Trim("1\0 ") == "1\0" && ParseInt32("1\0") == Some(1)
  {
    assert DropTrailingNuls("1\0 ") == "1\0 ";
    assert TrimBy("1\0 ", NumberWhite) == "1\0" by {
      assert TrimStartBy("1\0 ", NumberWhite) == "1\0 ";
      assert "1\0 "[..2] == "1\0";
      assert "1\0"[..1] == "1";
    }
    assert ScanDigits("1\0").None? by {
      assert "1\0"[..1] == "1";
    }
    assert Trim("1\0 ") == "1\0" by {
      assert TrimStartBy("1\0 ", WhiteSpace) == "1\0 ";
      assert "1\0 "[..2] == "1\0";
    }
    assert DropTrailingNuls("1\0") == "1" by {
      assert "1\0"[..1] == "1";
    }
    assert ScanDigits("1") == Some(1) by {
      assert "1"[..0] == "";
    }
  }
}
