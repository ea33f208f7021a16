/** The parts of `java.lang.String` and `java.lang.Long` the core relies on, restricted
    to ASCII case mapping: `toLowerCase`, `equalsIgnoreCase`, `trim`, `contains`,
    `indexOf`, `split` with a one-character delimiter, `Long.toString` and
    `Long.parseLong`. */
module JavaStrings {
  import opened Base

  predicate IsAsciiUpper(c: char) { 'A' <= c <= 'Z' }
  predicate IsAsciiLower(c: char) { 'a' <= c <= 'z' }
  predicate IsAsciiLetter(c: char) { IsAsciiUpper(c) || IsAsciiLower(c) }
  predicate IsAsciiDigit(c: char) { '0' <= c <= '9' }

  /** `Character.toLowerCase` on ASCII; every other character is left as it is. */
  function LowerChar(c: char): (d: char)
    ensures !IsAsciiUpper(d)
    ensures IsAsciiUpper(c) ==> IsAsciiLower(d) && d as int == c as int + 32
    ensures !IsAsciiUpper(c) ==> d == c
  {
    if IsAsciiUpper(c) then (c as int + 32) as char else c
  }

  /** `String.toLowerCase()`. */
  function ToLower(s: string): (r: string)
    ensures |r| == |s|
    ensures forall i :: 0 <= i < |s| ==> r[i] == LowerChar(s[i])
  {
    seq(|s|, i requires 0 <= i < |s| => LowerChar(s[i]))
  }

  lemma ToLowerHasNoUpper(s: string)
    ensures forall i :: 0 <= i < |ToLower(s)| ==> !IsAsciiUpper(ToLower(s)[i])
  {
  }

  lemma ToLowerIdempotent(s: string)
    ensures ToLower(ToLower(s)) == ToLower(s)
  {
  }

  /** How Java renders a possibly-null string in a concatenation or a log argument. */
  function StringOf(s: Option<string>): (r: string)
    ensures s.Some? ==> r == s.value
    ensures s.None? ==> r == "null"
  {
    match s
    case Some(v) => v
    case None => "null"
  }

  /** `String.valueOf(boolean)`. */
  function BoolToString(b: bool): (r: string)
    ensures r == "true" || r == "false"
    ensures (r == "true") <==> b
  {
    if b then "true" else "false"
  }

  /** `String.equalsIgnoreCase` for a non-null argument. */
  predicate EqualsIgnoreCase(a: string, b: string)
  {
    ToLower(a) == ToLower(b)
  }

  // ---------------------------------------------------------------- trim

  /** Number of leading characters at or below U+0020, the ones `trim` strips. */
  function LeadingBlanks(s: string): (n: nat)
    ensures n <= |s|
    ensures forall k :: 0 <= k < n ==> s[k] <= ' '
    ensures n < |s| ==> s[n] > ' '
  {
    if |s| == 0 || s[0] > ' ' then 0 else 1 + LeadingBlanks(s[1..])
  }

  /** Number of trailing characters at or below U+0020. */
  function TrailingBlanks(s: string): (n: nat)
    ensures n <= |s|
    ensures forall k :: |s| - n <= k < |s| ==> s[k] <= ' '
    ensures n < |s| ==> s[|s| - 1 - n] > ' '
  {
    if |s| == 0 || s[|s| - 1] > ' ' then 0 else 1 + TrailingBlanks(s[..|s| - 1])
  }

  /** `String.trim()`: the slice of `s` left after dropping blanks at both ends. */
  function Trim(s: string): (r: string)
    ensures |r| <= |s| && LeadingBlanks(s) + |r| <= |s|
    ensures r == [] <==> forall k :: 0 <= k < |s| ==> s[k] <= ' '
    ensures r != [] ==> r[0] > ' ' && r[|r| - 1] > ' '
  {
    var a := LeadingBlanks(s);
    if a == |s| then []
    else
      var b := |s| - TrailingBlanks(s);
      s[a..b]
  }

  /** The trim is the text from the first non-blank on, in order. */
  lemma TrimIsSlice(s: string)
    ensures forall k :: 0 <= k < |Trim(s)| ==> Trim(s)[k] == s[LeadingBlanks(s) + k]
  {
  }

  /** Trimming adds no character: one absent from `s` is absent from its trim. */
  lemma TrimKeepsAbsence(s: string, c: char)
    requires c !in s
    ensures c !in Trim(s)
  {
    TrimIsSlice(s);
    forall k | 0 <= k < |Trim(s)| ensures Trim(s)[k] != c {
      assert Trim(s)[k] == s[LeadingBlanks(s) + k];
    }
  }

  /** A string with no blank at either end is its own trim. */
  lemma TrimOfTrimmed(t: string)
    requires t == [] || (t[0] > ' ' && t[|t| - 1] > ' ')
    ensures Trim(t) == t
  {
    if t != [] {
      assert LeadingBlanks(t) == 0;
      assert TrailingBlanks(t) == 0;
    }
  }

  lemma TrimIdempotent(s: string)
    ensures Trim(Trim(s)) == Trim(s)
  {
    var t := Trim(s);
    assert t == [] || (t[0] > ' ' && t[|t| - 1] > ' ');
    TrimOfTrimmed(t);
  }

  // ------------------------------------------------------- searching

  /** `s.indexOf(c)`, None for -1. Its other properties are the lemmas below. */
  function IndexOf(s: string, c: char): (r: Option<nat>)
    ensures r.Some? ==> r.value < |s| && s[r.value] == c
  {
    if |s| == 0 then None
    else if s[0] == c then Some(0)
    else match IndexOf(s[1..], c)
      case None => None
      case Some(k) => Some(k + 1)
  }

  /** `indexOf` finds nothing exactly when the character does not occur, and what it
      finds is the first occurrence. */
  lemma {:induction false} IndexOfIsFirst(s: string, c: char)
    ensures IndexOf(s, c).None? <==> c !in s
    ensures IndexOf(s, c).Some? ==> c !in s[..IndexOf(s, c).value]
  {
    if |s| > 0 && s[0] != c {
      IndexOfIsFirst(s[1..], c);
      assert s == [s[0]] + s[1..];
      match IndexOf(s[1..], c)
      case None =>
      case Some(k) =>
        assert s[..k + 1] == [s[0]] + s[1..][..k];
    }
  }

  /** The first occurrence of `c` in `a + [c] + b`, when `a` has none, is at `|a|`. */
  lemma {:induction false} IndexOfAfter(a: string, b: string, c: char)
    requires c !in a
    ensures IndexOf(a + [c] + b, c) == Some(|a|)
  {
    if |a| > 0 {
      assert (a + [c] + b)[0] == a[0];
      assert (a + [c] + b)[1..] == a[1..] + [c] + b;
      IndexOfAfter(a[1..], b, c);
    }
  }

  /** `s.lastIndexOf(c)`, None for -1. */
  function LastIndexOf(s: string, c: char): (r: Option<nat>)
    ensures r.Some? ==> r.value < |s| && s[r.value] == c && c !in s[r.value + 1..]
    ensures r.None? <==> c !in s
  {
    if |s| == 0 then None
    else if s[|s| - 1] == c then Some(|s| - 1)
    else
      var r := LastIndexOf(s[..|s| - 1], c);
      assert s == s[..|s| - 1] + [s[|s| - 1]];
      assert r.Some? ==> s[r.value + 1..] == s[..|s| - 1][r.value + 1..] + [s[|s| - 1]];
      r
  }

  /** `s.substring(0, s.indexOf(c))` when `s.contains(c)`, else `s`. */
  function Before(s: string, c: char): (r: string)
    ensures |r| <= |s| && r == s[..|r|]
  {
    match IndexOf(s, c)
    case None => s
    case Some(k) => s[..k]
  }

  /** The text before the first `c` holds no `c`, and stops short of the end exactly
      when `c` occurs, at an occurrence of `c`. */
  lemma BeforeIsPrefixFree(s: string, c: char)
    ensures c !in Before(s, c)
    ensures c in s <==> |Before(s, c)| < |s|
    ensures |Before(s, c)| < |s| ==> s[|Before(s, c)|] == c
  {
    IndexOfIsFirst(s, c);
  }

  predicate StartsWith(s: string, prefix: string)
  {
    |prefix| <= |s| && s[..|prefix|] == prefix
  }

  /** `s.contains(sub)`. */
  predicate Contains(s: string, sub: string)
  {
    exists i :: 0 <= i <= |s| && StartsWith(s[i..], sub)
  }

  // ----------------------------------------------------------- split

  /** The fields between the occurrences of `c`, every empty field kept. */
  function Pieces(s: string, c: char): (r: seq<string>)
    ensures |r| >= 1
    decreases |s|
  {
    match IndexOf(s, c)
    case None => [s]
    case Some(k) => [s[..k]] + Pieces(s[k + 1..], c)
  }

  /** What `String.split` does to its field list: empty fields at the end are removed. */
  function DropTrailingEmpty(p: seq<string>): (r: seq<string>)
    ensures |r| <= |p| && r == p[..|r|]
    ensures |r| > 0 ==> r[|r| - 1] != ""
    ensures forall i :: |r| <= i < |p| ==> p[i] == ""
  {
    if |p| == 0 then []
    else if p[|p| - 1] == "" then DropTrailingEmpty(p[..|p| - 1])
    else p
  }

  /** `s.split(c)` for a delimiter that is not a regex metacharacter (`","`, `"/"`): if
      `c` does not occur the result is `[s]`, otherwise the fields with trailing empty
      fields removed. */
  function Split(s: string, c: char): (r: seq<string>)
    ensures c !in s ==> r == [s]
  {
    if c !in s then [s] else DropTrailingEmpty(Pieces(s, c))
  }

  /** The first field is the text before the first delimiter. */
  lemma PiecesHead(s: string, c: char)
    ensures Pieces(s, c)[0] == Before(s, c)
  {
  }

  /** The fields of a delimiter-free head, a delimiter, and the rest. */
  lemma PiecesAfter(a: string, b: string, c: char)
    requires c !in a
    ensures Pieces(a + [c] + b, c) == [a] + Pieces(b, c)
  {
    var s := a + [c] + b;
    IndexOfAfter(a, b, c);
    assert s[..|a|] == a;
    assert s[|a| + 1..] == b;
  }

  /** A string without the delimiter is a single field. */
  lemma PiecesOfUndelimited(a: string, c: char)
    requires c !in a
    ensures Pieces(a, c) == [a]
  {
    IndexOfIsFirst(a, c);
  }

  /** Splitting keeps any leading run of fields that ends in a non-empty one. */
  lemma SplitKeepsHead(s: string, c: char, head: seq<string>, rest: seq<string>)
    requires c in s && Pieces(s, c) == head + rest
    requires |head| > 0 && head[|head| - 1] != ""
    ensures |head| <= |Split(s, c)| && Split(s, c)[..|head|] == head
  {
    var r := DropTrailingEmpty(head + rest);
    assert (head + rest)[|head| - 1] == head[|head| - 1];
    assert (head + rest)[..|head|] == head;
  }

  /** If every field is empty, the string consists of delimiters only. */
  lemma {:induction false} AllPiecesEmpty(s: string, c: char)
    requires forall i :: 0 <= i < |Pieces(s, c)| ==> Pieces(s, c)[i] == ""
    ensures forall k :: 0 <= k < |s| ==> s[k] == c
    decreases |s|
  {
    match IndexOf(s, c)
    case None =>
      assert s == Pieces(s, c)[0];
    case Some(k) =>
      var rest := Pieces(s[k + 1..], c);
      assert Pieces(s, c) == [s[..k]] + rest;
      assert k == 0 by { assert Pieces(s, c)[0] == s[..k]; }
      forall i | 0 <= i < |rest| ensures rest[i] == "" {
        assert rest[i] == Pieces(s, c)[i + 1];
      }
      AllPiecesEmpty(s[k + 1..], c);
      forall j | 0 <= j < |s| ensures s[j] == c {
        if j > 0 { assert s[j] == s[k + 1..][j - 1]; }
      }
  }

  /** `s.split(c)[0]` exists as soon as `s` holds a character other than `c`, and it
      is the text before the first `c`. */
  lemma SplitHead(s: string, c: char)
    requires exists k :: 0 <= k < |s| && s[k] != c
    ensures |Split(s, c)| > 0 && Split(s, c)[0] == Before(s, c)
  {
    if c in s {
      var p := Pieces(s, c);
      var r := DropTrailingEmpty(p);
      if |r| == 0 {
        forall i | 0 <= i < |p| ensures p[i] == "" { }
        AllPiecesEmpty(s, c);
        assert false;
      }
      assert r[0] == p[0];
    }
  }

  // --------------------------------------------------- Long <-> text

  const MinLong: int := -0x8000_0000_0000_0000
  const MaxLong: int := 0x7FFF_FFFF_FFFF_FFFF

  /** The values a Java `long` can hold. */
  predicate InLongRange(n: int) { MinLong <= n <= MaxLong }

  predicate AllDigits(s: string)
  {
    forall i :: 0 <= i < |s| ==> IsAsciiDigit(s[i])
  }

  function DigitChar(d: nat): (c: char)
    requires d < 10
    ensures IsAsciiDigit(c) && c as int - '0' as int == d
  {
    ('0' as int + d) as char
  }

  /** The decimal digits of `n`, without leading zeros. */
  function NatToString(n: nat): (s: string)
    ensures |s| >= 1 && AllDigits(s)
    decreases n
  {
    if n < 10 then [DigitChar(n)] else NatToString(n / 10) + [DigitChar(n % 10)]
  }

  /** `String.valueOf(long)` / `Long.toString(long)`. */
  function LongToString(n: int): (s: string)
    ensures |s| >= 1
    ensures (s[0] == '-') <==> n < 0
  {
    if n < 0 then "-" + NatToString(-n) else NatToString(n)
  }

  /** The value of a string of decimal digits. */
  function DigitsValue(s: string): nat
    requires AllDigits(s)
  {
    if |s| == 0 then 0 else 10 * DigitsValue(s[..|s| - 1]) + (s[|s| - 1] as int - '0' as int)
  }

  /** `Long.parseLong(s)`: an optional sign, then one or more decimal digits, with
      a value that fits in a `long`; None where Java throws NumberFormatException. */
  function ParseLong(s: string): (r: Option<int>)
    ensures r.Some? ==> InLongRange(r.value)
    ensures r.Some? ==> exists k :: 0 <= k < |s| && IsAsciiDigit(s[k])
  {
    if |s| == 0 then None
    else
      var digits := if s[0] == '-' || s[0] == '+' then s[1..] else s;
      if |digits| == 0 || !AllDigits(digits) then None
      else
        var v: int := if s[0] == '-' then -(DigitsValue(digits) as int) else DigitsValue(digits);
        assert IsAsciiDigit(s[|s| - 1]);
        if InLongRange(v) then Some(v) else None
  }

  lemma {:induction false} DigitsValueOfNatToString(n: nat)
    ensures DigitsValue(NatToString(n)) == n
    decreases n
  {
    if n >= 10 {
      var s := NatToString(n);
      assert s[..|s| - 1] == NatToString(n / 10);
      DigitsValueOfNatToString(n / 10);
    }
  }

  /** Printing a `long` and parsing it back gives the value again. */
  lemma ParseLongOfLongToString(n: int)
    requires InLongRange(n)
    ensures ParseLong(LongToString(n)) == Some(n)
  {
    var s := LongToString(n);
    if n < 0 {
      assert s[1..] == NatToString(-n);
      DigitsValueOfNatToString(-n);
    } else {
      assert s[0] != '-' && s[0] != '+';
      DigitsValueOfNatToString(n);
    }
  }
}
