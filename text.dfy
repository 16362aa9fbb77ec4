/**
 * The string primitives the core relies on: `char.IsWhiteSpace`, `string.IsNullOrWhiteSpace`,
 * `string.Trim`, `string.Split(char)` and `Encoding.ASCII.GetString`.
 */
module Text {

  newtype byte = b: int | 0 <= b < 256

  /** `char.IsWhiteSpace`: the characters Unicode marks White_Space. */
  predicate IsWhiteSpace(c: char) {
    ('\t' <= c <= '\r') || c == ' ' || c == '\U{85}' || c == '\U{A0}' || c == '\U{1680}'
    || ('\U{2000}' <= c <= '\U{200A}') || c == '\U{2028}' || c == '\U{2029}'
    || c == '\U{202F}' || c == '\U{205F}' || c == '\U{3000}'
  }

  /** `string.IsNullOrWhiteSpace` on a (non-null) string. */
  predicate IsBlank(s: string) {
    forall i :: 0 <= i < |s| ==> IsWhiteSpace(s[i])
  }

  predicate IsAsciiChar(c: char) {
    c < 128 as char
  }

  predicate IsAscii(s: string) {
    forall i :: 0 <= i < |s| ==> IsAsciiChar(s[i])
  }

  /** The blanks `int.TryParse` skips under `NumberStyles.Integer`: U+0009 to U+000D and U+0020. */
  predicate IsNumberWhite(c: char) {
    c == ' ' || '\t' <= c <= '\r'
  }

  /** Which characters a trim removes: `char.IsWhiteSpace`, or the number parser's blanks. */
  datatype Blanks = WhiteSpace | NumberWhite

  predicate IsSpace(k: Blanks, c: char) {
    if k.WhiteSpace? then IsWhiteSpace(c) else IsNumberWhite(c)
  }

  /** Drops the longest prefix of blanks. */
  function TrimStartBy(s: string, k: Blanks): string {
    if |s| > 0 && IsSpace(k, s[0]) then TrimStartBy(s[1..], k) else s
  }

  /** Drops the longest suffix of blanks. */
  function TrimEndBy(s: string, k: Blanks): string {
    if |s| > 0 && IsSpace(k, s[|s| - 1]) then TrimEndBy(s[..|s| - 1], k) else s
  }

  function TrimBy(s: string, k: Blanks): string {
    TrimEndBy(TrimStartBy(s, k), k)
  }

  /** `string.Trim()`. */
  function Trim(s: string): string {
    TrimBy(s, WhiteSpace)
  }

  /** TrimStartBy leaves a suffix that does not start with a blank, and cuts off only blanks. */
  lemma {:induction false} TrimStartSpec(s: string, k: Blanks)
    ensures var r := TrimStartBy(s, k);
      && |r| <= |s| && r == s[|s| - |r|..]
      && (forall i :: 0 <= i < |s| - |r| ==> IsSpace(k, s[i]))
      && (|r| > 0 ==> !IsSpace(k, r[0]))
  {
    if |s| > 0 && IsSpace(k, s[0]) {
      TrimStartSpec(s[1..], k);
      var r := TrimStartBy(s, k);
      forall i | 1 <= i < |s| - |r| ensures IsSpace(k, s[i]) {
        assert s[i] == s[1..][i - 1];
      }
    }
  }

  /** TrimEndBy leaves a prefix that does not end with a blank, and cuts off only blanks. */
  lemma {:induction false} TrimEndSpec(s: string, k: Blanks)
    ensures var r := TrimEndBy(s, k);
      && |r| <= |s| && r == s[..|r|]
      && (forall i :: |r| <= i < |s| ==> IsSpace(k, s[i]))
      && (|r| > 0 ==> !IsSpace(k, r[|r| - 1]))
  {
    if |s| > 0 && IsSpace(k, s[|s| - 1]) {
      TrimEndSpec(s[..|s| - 1], k);
      var r := TrimEndBy(s, k);
      forall i | |r| <= i < |s| - 1 ensures IsSpace(k, s[i]) {
        assert s[i] == s[..|s| - 1][i];
      }
    }
  }

  /** Trim removes exactly the blank margins: it leaves the contiguous piece `s[a..a + |r|]` of the
      input that neither starts nor ends with a blank, and everything cut off is a blank. */
  lemma TrimByIsSlice(s: string, k: Blanks) returns (a: nat)
    ensures a + |TrimBy(s, k)| <= |s|
    ensures TrimBy(s, k) == s[a..a + |TrimBy(s, k)|]
    ensures forall i :: 0 <= i < a ==> IsSpace(k, s[i])
    ensures forall i :: a + |TrimBy(s, k)| <= i < |s| ==> IsSpace(k, s[i])
    ensures |TrimBy(s, k)| > 0 ==> !IsSpace(k, TrimBy(s, k)[0]) && !IsSpace(k, TrimBy(s, k)[|TrimBy(s, k)| - 1])
  {
    var t := TrimStartBy(s, k);
    TrimStartSpec(s, k);
    TrimEndSpec(t, k);
    var r := TrimEndBy(t, k);
    a := |s| - |t|;
    assert r == t[..|r|];
    assert r == s[a..a + |r|];
    if |r| > 0 {
      assert r[0] == t[0];
    }
    forall i | a + |r| <= i < |s| ensures IsSpace(k, s[i]) {
      assert s[i] == t[i - a];
    }
  }

  /** A string with no blank at either end is its own trim. */
  lemma TrimByNoOp(s: string, k: Blanks)
    requires |s| > 0 ==> !IsSpace(k, s[0]) && !IsSpace(k, s[|s| - 1])
    ensures TrimBy(s, k) == s
  {
  }

  /** Trimming twice is trimming once. */
  lemma TrimByIdempotent(s: string, k: Blanks)
    ensures TrimBy(TrimBy(s, k), k) == TrimBy(s, k)
  {
    var _ := TrimByIsSlice(s, k);
    TrimByNoOp(TrimBy(s, k), k);
  }

  /** Two kinds of blank that agree on every character of `s` trim it alike. */
  lemma {:induction false} TrimByAgree(s: string, p: Blanks, q: Blanks)
    requires forall i :: 0 <= i < |s| ==> IsSpace(p, s[i]) == IsSpace(q, s[i])
    ensures TrimBy(s, p) == TrimBy(s, q)
  {
    TrimStartAgree(s, p, q);
    var t := TrimStartBy(s, p);
    TrimStartSpec(s, p);
    forall i | 0 <= i < |t| ensures IsSpace(p, t[i]) == IsSpace(q, t[i]) {
      assert t[i] == s[|s| - |t| + i];
    }
    TrimEndAgree(t, p, q);
  }

  lemma {:induction false} TrimStartAgree(s: string, p: Blanks, q: Blanks)
    requires forall i :: 0 <= i < |s| ==> IsSpace(p, s[i]) == IsSpace(q, s[i])
    ensures TrimStartBy(s, p) == TrimStartBy(s, q)
  {
    if |s| > 0 && IsSpace(p, s[0]) {
      assert forall i :: 0 <= i < |s[1..]| ==> s[1..][i] == s[i + 1];
      TrimStartAgree(s[1..], p, q);
    }
  }

  lemma {:induction false} TrimEndAgree(s: string, p: Blanks, q: Blanks)
    requires forall i :: 0 <= i < |s| ==> IsSpace(p, s[i]) == IsSpace(q, s[i])
    ensures TrimEndBy(s, p) == TrimEndBy(s, q)
  {
    if |s| > 0 && IsSpace(p, s[|s| - 1]) {
      assert forall i :: 0 <= i < |s| - 1 ==> s[..|s| - 1][i] == s[i];
      TrimEndAgree(s[..|s| - 1], p, q);
    }
  }

  /** `IsNullOrWhiteSpace(s)` holds exactly when `s.Trim()` is empty. */
  lemma BlankIffTrimEmpty(s: string)
    ensures IsBlank(s) <==> Trim(s) == ""
  {
    var a := TrimByIsSlice(s, WhiteSpace);
    var r := Trim(s);
    if |r| > 0 {
      assert r[0] == s[a] && !IsWhiteSpace(s[a]);
    }
  }

  /** A trimmed ASCII string is ASCII. */
  lemma TrimAscii(s: string)
    requires IsAscii(s)
    ensures IsAscii(Trim(s))
  {
    var a := TrimByIsSlice(s, WhiteSpace);
    var r := Trim(s);
    assert forall i :: 0 <= i < |r| ==> r[i] == s[a + i];
  }

  /** Trimming adds no character: one missing from `s` is missing from its trim. */
  lemma TrimLacks(s: string, c: char)
    requires c !in s
    ensures c !in Trim(s)
  {
    var a := TrimByIsSlice(s, WhiteSpace);
    var r := Trim(s);
    assert forall i :: 0 <= i < |r| ==> r[i] == s[a + i];
  }

  /** Number of occurrences of `c` in `s`. */
  function Occurrences(s: string, c: char): nat {
    if |s| == 0 then 0 else (if s[0] == c then 1 else 0) + Occurrences(s[1..], c)
  }

  /** `s.Split(sep)`: the pieces between separators, one more piece than there are separators. */
  function Split(s: string, sep: char): (parts: seq<string>)
    ensures |parts| == Occurrences(s, sep) + 1
    ensures forall i :: 0 <= i < |parts| ==> sep !in parts[i]
  {
    if |s| == 0 then [""]
    else
      var rest := Split(s[1..], sep);
      if s[0] == sep then [""] + rest
      else [[s[0]] + rest[0]] + rest[1..]
  }

  /** `string.Join(sep, parts)`, the inverse of `Split`. */
  function Join(parts: seq<string>, sep: char): string {
    if |parts| == 0 then ""
    else if |parts| == 1 then parts[0]
    else parts[0] + [sep] + Join(parts[1..], sep)
  }

  lemma {:induction false} JoinSplit(s: string, sep: char)
    ensures Join(Split(s, sep), sep) == s
  {
    if |s| > 0 {
      var rest := Split(s[1..], sep);
      JoinSplit(s[1..], sep);
      if s[0] == sep {
        assert Split(s, sep) == [""] + rest;
      } else {
        assert Split(s, sep) == [[s[0]] + rest[0]] + rest[1..];
        if |rest| == 1 {
          assert rest == [rest[0]];
        } else {
          assert rest[1..][1..] == rest[2..];
        }
      }
    }
  }

  /** Splitting a piece without separators, then a separator, then more. */
  lemma {:induction false} SplitAfterPiece(a: string, sep: char, b: string)
    requires sep !in a
    ensures Split(a + [sep] + b, sep) == [a] + Split(b, sep)
  {
    if |a| > 0 {
      SplitAfterPiece(a[1..], sep, b);
      assert (a + [sep] + b)[1..] == a[1..] + [sep] + b;
      assert (a + [sep] + b)[0] == a[0] && a[0] != sep;
      assert [a[0]] + a[1..] == a;
    } else {
      assert a + [sep] + b == [sep] + b;
    }
  }

  lemma {:induction false} SplitPiece(a: string, sep: char)
    requires sep !in a
    ensures Split(a, sep) == [a]
  {
    if |a| > 0 {
      SplitPiece(a[1..], sep);
      assert [a[0]] + a[1..] == a;
    }
  }

  /** Joining separator-free pieces and splitting again gives the pieces back. */
  lemma {:induction false} SplitJoin(parts: seq<string>, sep: char)
    requires |parts| >= 1
    requires forall i :: 0 <= i < |parts| ==> sep !in parts[i]
    ensures Split(Join(parts, sep), sep) == parts
  {
    if |parts| == 1 {
      SplitPiece(parts[0], sep);
    } else {
      SplitJoin(parts[1..], sep);
      SplitAfterPiece(parts[0], sep, Join(parts[1..], sep));
    }
  }

  /** Every piece of an ASCII string is ASCII. */
  lemma {:induction false} SplitAscii(s: string, sep: char)
    requires IsAscii(s)
    ensures forall i :: 0 <= i < |Split(s, sep)| ==> IsAscii(Split(s, sep)[i])
  {
    if |s| > 0 {
      SplitAscii(s[1..], sep);
    }
  }

  /** Splitting adds no character: one missing from `s` is missing from every piece. */
  lemma {:induction false} SplitLacks(s: string, sep: char, c: char)
    requires c !in s
    ensures forall i :: 0 <= i < |Split(s, sep)| ==> c !in Split(s, sep)[i]
  {
    if |s| > 0 {
      assert c !in s[1..];
      SplitLacks(s[1..], sep, c);
    }
  }

  /** `Encoding.ASCII.GetString`: bytes above 0x7F decode to '?'. */
  function AsciiDecode(bytes: seq<byte>): (s: string)
    ensures |s| == |bytes| && IsAscii(s)
  {
    if |bytes| == 0 then ""
    else [if bytes[0] < 128 then (bytes[0] as int) as char else '?'] + AsciiDecode(bytes[1..])
  }

  /** The bytes of an ASCII string (what `Encoding.UTF8.GetBytes` yields for one). */
  function AsciiEncode(s: string): (bytes: seq<byte>)
    requires IsAscii(s)
    ensures |bytes| == |s|
  {
    if |s| == 0 then [] else [(s[0] as int) as byte] + AsciiEncode(s[1..])
  }

  /** What the sender writes for an ASCII string the receiver decodes unchanged. */
  lemma {:induction false} AsciiRoundTrip(s: string)
    requires IsAscii(s)
    ensures AsciiDecode(AsciiEncode(s)) == s
  {
    if |s| > 0 {
      AsciiRoundTrip(s[1..]);
      assert AsciiEncode(s)[1..] == AsciiEncode(s[1..]);
    }
  }
}
