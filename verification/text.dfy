/**
 * The JavaScript string operations the application relies on, over Dafny strings
 * (a string is a sequence of characters): String.prototype.trim, toLowerCase,
 * toUpperCase, startsWith, includes and split, Number.prototype.toString and the
 * global parseInt.
 */
module Text {

  // ---------------------------------------------------------------------------
  // Whitespace and trim
  // ---------------------------------------------------------------------------

  /** The characters String.prototype.trim removes: WhiteSpace and LineTerminator of ECMA-262. */
  predicate IsSpace(c: char)
  {
    var n := c as int;
    (9 <= n <= 13) || n == 0x20 || n == 0xA0 || n == 0x1680 || (0x2000 <= n <= 0x200A)
    || n == 0x2028 || n == 0x2029 || n == 0x202F || n == 0x205F || n == 0x3000 || n == 0xFEFF
  }

  /** Number of whitespace characters at the start of s. */
  function LeadingSpaces(s: string): (k: nat)
    ensures k <= |s|
    ensures forall i :: 0 <= i < k ==> IsSpace(s[i])
    ensures k < |s| ==> !IsSpace(s[k])
  {
    if |s| == 0 || !IsSpace(s[0]) then 0 else 1 + LeadingSpaces(s[1..])
  }

  /** Number of whitespace characters at the end of s. */
  function TrailingSpaces(s: string): (k: nat)
    ensures k <= |s|
    ensures forall i :: |s| - k <= i < |s| ==> IsSpace(s[i])
    ensures k < |s| ==> !IsSpace(s[|s| - k - 1])
  {
    if |s| == 0 || !IsSpace(s[|s| - 1]) then 0 else 1 + TrailingSpaces(s[..|s| - 1])
  }

  function TrimStart(s: string): string
  {
    s[LeadingSpaces(s)..]
  }

  /** String.prototype.trim. */
  function Trim(s: string): (r: string)
    ensures |r| <= |s|
    ensures r != [] ==> !IsSpace(r[0]) && !IsSpace(r[|r| - 1])
  {
    var t := TrimStart(s);
    t[..|t| - TrailingSpaces(t)]
  }

  /** A string is blank (`!s.trim()` in the source) exactly when all of it is whitespace. */
  lemma BlankIffAllSpace(s: string)
    ensures Trim(s) == [] <==> forall i :: 0 <= i < |s| ==> IsSpace(s[i])
  {
    var k := LeadingSpaces(s);
    var t := s[k..];
    if Trim(s) == [] {
      assert TrailingSpaces(t) == |t|;
    }
  }

  // ---------------------------------------------------------------------------
  // Case mapping (ASCII letters; see README)
  // ---------------------------------------------------------------------------

  function Lower(c: char): char
  {
    if 'A' <= c <= 'Z' then (c as int + 32) as char else c
  }

  function Upper(c: char): char
  {
    if 'a' <= c <= 'z' then (c as int - 32) as char else c
  }

  /** String.prototype.toLowerCase. */
  function ToLower(s: string): (r: string)
    ensures |r| == |s| && forall i :: 0 <= i < |s| ==> r[i] == Lower(s[i])
  {
    seq(|s|, i requires 0 <= i < |s| => Lower(s[i]))
  }

  /** String.prototype.toUpperCase. */
  function ToUpper(s: string): (r: string)
    ensures |r| == |s| && forall i :: 0 <= i < |s| ==> r[i] == Upper(s[i])
  {
    seq(|s|, i requires 0 <= i < |s| => Upper(s[i]))
  }

  /** `a.toLowerCase() === b.toLowerCase()` */
  predicate SameIgnoringCase(a: string, b: string)
  {
    ToLower(a) == ToLower(b)
  }

  // ---------------------------------------------------------------------------
  // startsWith, includes, split
  // ---------------------------------------------------------------------------

  predicate StartsWith(s: string, prefix: string)
  {
    |prefix| <= |s| && s[..|prefix|] == prefix
  }

  /** String.prototype.includes: sub occurs somewhere in s (the empty string occurs everywhere). */
  predicate Contains(s: string, sub: string)
  {
    exists i :: 0 <= i <= |s| - |sub| && OccursAt(s, sub, i)
  }

  predicate OccursAt(s: string, sub: string, i: int)
    requires 0 <= i <= |s| - |sub|
  {
    s[i..i + |sub|] == sub
  }

  /** Index of the first occurrence of c in s. */
  function IndexOfChar(s: string, c: char): (i: nat)
    requires c in s
    ensures i < |s| && s[i] == c && c !in s[..i]
  {
    if s[0] == c then 0 else 1 + IndexOfChar(s[1..], c)
  }

  /** String.prototype.split with a one-character separator. */
  function Split(s: string, sep: char): (parts: seq<string>)
    ensures |parts| >= 1
    ensures forall k :: 0 <= k < |parts| ==> sep !in parts[k]
    ensures sep !in s ==> parts == [s]
    decreases |s|
  {
    if sep !in s then [s]
    else
      var i := IndexOfChar(s, sep);
      [s[..i]] + Split(s[i + 1..], sep)
  }

  /** Array.prototype.join with a one-character separator. */
  function Join(parts: seq<string>, sep: char): string
  {
    if |parts| == 0 then "" else if |parts| == 1 then parts[0] else parts[0] + [sep] + Join(parts[1..], sep)
  }

  /** Splitting loses nothing: joining the parts with the separator gives back the input. */
  lemma {:induction false} JoinSplit(s: string, sep: char)
    ensures Join(Split(s, sep), sep) == s
    decreases |s|
  {
    if sep in s {
      var i := IndexOfChar(s, sep);
      var rest := s[i + 1..];
      JoinSplit(rest, sep);
      assert Split(s, sep) == [s[..i]] + Split(rest, sep);
      assert s == s[..i] + [sep] + rest;
    }
  }

  /** Joining one more part appends the separator and the part. */
  lemma {:induction false} JoinSnoc(parts: seq<string>, x: string, sep: char)
    requires |parts| >= 1
    ensures Join(parts + [x], sep) == Join(parts, sep) + [sep] + x
    decreases |parts|
  {
    if |parts| == 1 {
      assert (parts + [x])[1..] == [x];
    } else {
      assert (parts + [x])[1..] == parts[1..] + [x];
      JoinSnoc(parts[1..], x, sep);
    }
  }

  /** Parts free of the separator come back from splitting their join. */
  lemma {:induction false} SplitJoin(parts: seq<string>, sep: char)
    requires |parts| >= 1 && forall k :: 0 <= k < |parts| ==> sep !in parts[k]
    ensures Split(Join(parts, sep), sep) == parts
    decreases |parts|
  {
    if |parts| > 1 {
      var head := parts[0];
      var rest := Join(parts[1..], sep);
      var s := head + [sep] + rest;
      assert s[|head|] == sep;
      var i := IndexOfChar(s, sep);
      assert i == |head|;
      assert s[..i] == head;
      assert s[i + 1..] == rest;
      SplitJoin(parts[1..], sep);
    }
  }

  // ---------------------------------------------------------------------------
  // Decimal numbers
  // ---------------------------------------------------------------------------

  predicate IsDigit(c: char)
  {
    '0' <= c <= '9'
  }

  function DigitChar(d: nat): char
    requires d < 10
  {
    ('0' as int + d) as char
  }

  /** Number.prototype.toString() of a non-negative integer. */
  function NatToString(n: nat): (s: string)
    ensures |s| >= 1
    ensures forall i :: 0 <= i < |s| ==> IsDigit(s[i])
    ensures n >= 10 ==> |s| >= 2
  {
    if n < 10 then [DigitChar(n)] else NatToString(n / 10) + [DigitChar(n % 10)]
  }

  /** Number.prototype.toString() of an integer. */
  function IntToString(n: int): string
  {
    if n < 0 then "-" + NatToString(-n) else NatToString(n)
  }

  /** A character of a printed integer: a digit or the minus sign. */
  predicate IsNumberChar(c: char)
  {
    IsDigit(c) || c == '-'
  }

  /** Printing an integer is injective, and prints only digits and a leading minus sign. */
  lemma IntToStringLaws(m: int, n: int)
    ensures forall i :: 0 <= i < |IntToString(n)| ==> IsNumberChar(IntToString(n)[i])
    ensures IntToString(m) == IntToString(n) ==> m == n
  {
    assert m >= 0 ==> IsDigit(IntToString(m)[0]);
    assert n >= 0 ==> IsDigit(IntToString(n)[0]);
    if IntToString(m) == IntToString(n) {
      if m < 0 && n < 0 {
        assert NatToString(-m) == IntToString(m)[1..];
        NatToStringInjective(-m, -n);
      } else if m >= 0 && n >= 0 {
        NatToStringInjective(m, n);
      }
    }
  }

  function DigitValue(c: char, radix: nat): (v: int)
  {
    if '0' <= c <= '9' then c as int - '0' as int
    else if 'a' <= c <= 'z' then c as int - 'a' as int + 10
    else if 'A' <= c <= 'Z' then c as int - 'A' as int + 10
    else radix
  }

  predicate IsRadixDigit(c: char, radix: nat)
  {
    0 <= DigitValue(c, radix) < radix
  }

  /** Number of leading characters of s that are digits in the given radix. */
  function DigitRun(s: string, radix: nat): (k: nat)
    ensures k <= |s|
    ensures forall i :: 0 <= i < k ==> IsRadixDigit(s[i], radix)
  {
    if |s| == 0 || !IsRadixDigit(s[0], radix) then 0 else 1 + DigitRun(s[1..], radix)
  }

  /** The value of a string of digits, most significant first. */
  function DigitsValue(s: string, radix: nat): nat
  {
    if |s| == 0 then 0
    else
      var d := DigitValue(s[|s| - 1], radix);
      DigitsValue(s[..|s| - 1], radix) * radix + (if 0 <= d then d else 0)
  }

  /**
   * The global parseInt(s) with no radix: skip leading whitespace, read an optional
   * sign, read "0x"/"0X" as radix 16, then the longest run of digits.
   */
  function ParseInt(s: string): (r: Parsed)
  {
    var t := TrimStart(s);
    var negative := |t| > 0 && t[0] == '-';
    var u := if |t| > 0 && (t[0] == '-' || t[0] == '+') then t[1..] else t;
    match ParseMagnitude(u)
    case NaN => NaN
    case Num(v) => Num(if negative then -v else v)
  }

  /** What parseInt reads after the sign: "0x"/"0X" selects radix 16, then the longest run of digits. */
  function ParseMagnitude(u: string): (r: Parsed)
    ensures r.Num? ==> r.value >= 0
  {
    var hex := |u| >= 2 && u[0] == '0' && (u[1] == 'x' || u[1] == 'X');
    var radix := if hex then 16 else 10;
    var body := if hex then u[2..] else u;
    var k := DigitRun(body, radix);
    if k == 0 then NaN else Num(DigitsValue(body[..k], radix))
  }

  /** The result of parseInt: a number, or NaN. */
  datatype Parsed = NaN | Num(value: int)

  /** `parseInt(s) || d`: NaN and 0 are falsy. */
  function ParseIntOr(s: string, d: int): int
  {
    match ParseInt(s)
    case NaN => d
    case Num(v) => if v == 0 then d else v
  }

  lemma {:induction false} DigitsValueOfNatToString(n: nat)
    ensures DigitsValue(NatToString(n), 10) == n
  {
    var s := NatToString(n);
    if n >= 10 {
      DigitsValueOfNatToString(n / 10);
      assert s[..|s| - 1] == NatToString(n / 10);
    }
  }

  /** Decimal rendering is injective: two numbers print the same only when they are equal. */
  lemma NatToStringInjective(m: nat, n: nat)
    requires NatToString(m) == NatToString(n)
    ensures m == n
  {
    DigitsValueOfNatToString(m);
    DigitsValueOfNatToString(n);
  }

  /** parseInt reads back what toString printed. */
  lemma ParseIntOfNatToString(n: nat)
    ensures ParseInt(NatToString(n)) == Num(n)
  {
    DigitsValueOfNatToString(n);
    ParseIntOfDigits(NatToString(n));
    MagnitudeOfDigits(NatToString(n), n);
  }

  /** parseInt of a run of decimal digits has no whitespace or sign to skip. */
  lemma ParseIntOfDigits(s: string)
    requires |s| > 0 && forall i :: 0 <= i < |s| ==> IsDigit(s[i])
    ensures ParseInt(s) == ParseMagnitude(s)
  {
    assert IsDigit(s[0]);
    assert LeadingSpaces(s) == 0;
    assert TrimStart(s) == s;
    assert s[0] != '-' && s[0] != '+';
  }

  lemma MagnitudeOfDigits(s: string, v: nat)
    requires |s| > 0 && forall i :: 0 <= i < |s| ==> IsDigit(s[i])
    requires DigitsValue(s, 10) == v
    ensures ParseMagnitude(s) == Num(v)
  {
    assert !(|s| >= 2 && s[0] == '0' && (s[1] == 'x' || s[1] == 'X')) by {
      if |s| >= 2 {
        assert IsDigit(s[1]);
      }
    }
    DigitRunAllDigits(s);
    assert s[..|s|] == s;
  }

  lemma {:induction false} DigitRunAllDigits(s: string)
    requires forall i :: 0 <= i < |s| ==> IsDigit(s[i])
    ensures DigitRun(s, 10) == |s|
  {
    if |s| > 0 {
      DigitRunAllDigits(s[1..]);
    }
  }

  /** trim leaves a string alone when neither end is whitespace. */
  lemma TrimNoOuterSpace(s: string)
    requires |s| > 0 && !IsSpace(s[0]) && !IsSpace(s[|s| - 1])
    ensures Trim(s) == s
  {
    assert LeadingSpaces(s) == 0;
    assert TrimStart(s) == s;
    assert TrailingSpaces(s) == 0;
  }

  /** The first piece of a split keeps a prefix that has no separator in it. */
  lemma SplitHeadPrefix(s: string, sep: char, prefix: string)
    requires StartsWith(s, prefix) && sep !in prefix
    ensures StartsWith(Split(s, sep)[0], prefix)
  {
    if sep in s {
      var i := IndexOfChar(s, sep);
      assert forall j :: 0 <= j < |prefix| ==> s[j] == prefix[j] && s[j] != sep;
      assert Split(s, sep)[0] == s[..i];
    }
  }

  /** parseInt of text without a minus sign is never negative. */
  lemma ParseIntUnsigned(s: string)
    requires '-' !in s
    ensures ParseInt(s).Num? ==> ParseInt(s).value >= 0
  {
    var t := TrimStart(s);
    if |t| > 0 {
      assert t[0] == s[LeadingSpaces(s)];
    }
  }
}
