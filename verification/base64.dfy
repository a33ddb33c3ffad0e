/**
 * The browser's btoa and atob: base64 with the alphabet and padding of section 4 of
 * RFC 4648 for encoding, and the "forgiving-base64 decode" of the WHATWG Infra
 * standard for decoding (ASCII whitespace ignored, padding optional, any other
 * character outside the alphabet rejected). JavaScript strings are sequences of
 * UTF-16 code units (bv16).
 */
module Base64 {
  import opened Types

  type Unit = bv16

  /** A base64 digit value, 0..63. */
  type Sextet = v: bv8 | v < 64

  const PadChar: Unit := 61   // '='

  /** The character of the RFC 4648 alphabet for v: A-Z, a-z, 0-9, '+', '/'. */
  function Char(v: Sextet): (c: Unit)
    ensures c != PadChar
  {
    if v < 26 then v as Unit + 65
    else if v < 52 then v as Unit + 71
    else if v < 62 then v as Unit - 4
    else if v == 62 then 43
    else 47
  }

  /** The alphabet value of c, or None when c is not in the alphabet ('=' is not). */
  function Value(c: Unit): (r: Option<Sextet>)
    ensures r.Some? ==> Char(r.value) == c
  {
    if 65 <= c <= 90 then Some((c - 65) as bv8)
    else if 97 <= c <= 122 then Some((c - 71) as bv8)
    else if 48 <= c <= 57 then Some((c + 4) as bv8)
    else if c == 43 then Some(62)
    else if c == 47 then Some(63)
    else None
  }

  /** Decoding a character of the alphabet gives back its value. */
  lemma ValueOfChar(v: Sextet)
    ensures Value(Char(v)) == Some(v)
  {
  }

  predicate InAlphabet(c: Unit)
  {
    Value(c).Some?
  }

  // ---------------------------------------------------------------------------
  // Encoding (btoa)
  // ---------------------------------------------------------------------------

  function S0(b0: bv8): Sextet { b0 >> 2 }
  function S1(b0: bv8, b1: bv8): Sextet { ((b0 & 3) << 4) | (b1 >> 4) }
  function S2(b1: bv8, b2: bv8): Sextet { ((b1 & 15) << 2) | (b2 >> 6) }
  function S3(b2: bv8): Sextet { b2 & 63 }

  /** The base64 digits of b without padding: 4 per 3 bytes, 2 or 3 for a 1- or 2-byte tail. */
  function Digits(b: seq<bv8>): (r: seq<Unit>)
    ensures forall i :: 0 <= i < |r| ==> InAlphabet(r[i])
  {
    if |b| == 0 then []
    else if |b| == 1 then
      ValueOfChar(S0(b[0]));
      ValueOfChar(S1(b[0], 0));
      [Char(S0(b[0])), Char(S1(b[0], 0))]
    else if |b| == 2 then
      ValueOfChar(S0(b[0]));
      ValueOfChar(S1(b[0], b[1]));
      ValueOfChar(S2(b[1], 0));
      [Char(S0(b[0])), Char(S1(b[0], b[1])), Char(S2(b[1], 0))]
    else
      Quad(b[0], b[1], b[2]) + Digits(b[3..])
  }

  /** The four digits of a full 3-byte group. */
  function Quad(b0: bv8, b1: bv8, b2: bv8): (q: seq<Unit>)
    ensures |q| == 4 && forall i :: 0 <= i < 4 ==> InAlphabet(q[i])
  {
    ValueOfChar(S0(b0));
    ValueOfChar(S1(b0, b1));
    ValueOfChar(S2(b1, b2));
    ValueOfChar(S3(b2));
    [Char(S0(b0)), Char(S1(b0, b1)), Char(S2(b1, b2)), Char(S3(b2))]
  }

  /** '=' padding that brings the digits up to a multiple of 4. */
  function Padding(tail: nat): seq<Unit>
  {
    if tail == 1 then [PadChar, PadChar] else if tail == 2 then [PadChar] else []
  }

  /** Base64 encoding of a byte string as section 4 of RFC 4648 defines it. */
  function Encode(b: seq<bv8>): seq<Unit>
  {
    Digits(b) + Padding(|b| % 3)
  }

  lemma {:induction false} DigitsLength(b: seq<bv8>)
    ensures |Digits(b)| == 4 * (|b| / 3) + (if |b| % 3 == 0 then 0 else |b| % 3 + 1)
  {
    if |b| >= 3 {
      DigitsLength(b[3..]);
    }
  }

  /** The encoding takes 4 characters per started group of 3 bytes. */
  lemma EncodeLength(b: seq<bv8>)
    ensures |Encode(b)| == 4 * ((|b| + 2) / 3)
    ensures |Encode(b)| % 4 == 0
  {
    DigitsLength(b);
  }

  /** A binary string: every code unit fits in a byte. */
  predicate IsBinary(s: seq<Unit>)
  {
    forall i :: 0 <= i < |s| ==> s[i] <= 0xFF
  }

  function ToBytes(s: seq<Unit>): (b: seq<bv8>)
    requires IsBinary(s)
    ensures |b| == |s|
    ensures forall i :: 0 <= i < |s| ==> b[i] as Unit == s[i]
  {
    if |s| == 0 then [] else [s[0] as bv8] + ToBytes(s[1..])
  }

  function ToUnits(b: seq<bv8>): (s: seq<Unit>)
    ensures |s| == |b| && IsBinary(s)
    ensures forall i :: 0 <= i < |b| ==> s[i] == b[i] as Unit
  {
    if |b| == 0 then [] else [b[0] as Unit] + ToUnits(b[1..])
  }

  /** btoa: throws InvalidCharacterError when some code unit is above 0xFF. */
  function Btoa(s: seq<Unit>): (r: Result<seq<Unit>>)
    ensures r.Success? <==> IsBinary(s)
  {
    if IsBinary(s) then Success(Encode(ToBytes(s))) else Failure("InvalidCharacterError")
  }

  // ---------------------------------------------------------------------------
  // Forgiving decoding (atob)
  // ---------------------------------------------------------------------------

  /** ASCII whitespace: TAB, LF, FF, CR, SPACE. */
  predicate IsAsciiWhitespace(c: Unit)
  {
    c == 9 || c == 10 || c == 12 || c == 13 || c == 32
  }

  function RemoveWhitespace(s: seq<Unit>): (r: seq<Unit>)
    ensures |r| <= |s|
    ensures forall i :: 0 <= i < |r| ==> !IsAsciiWhitespace(r[i])
  {
    if |s| == 0 then []
    else if IsAsciiWhitespace(s[0]) then RemoveWhitespace(s[1..])
    else [s[0]] + RemoveWhitespace(s[1..])
  }

  /** With a length that is a multiple of 4, drop a final "==" or else a final "=". */
  function StripPadding(s: seq<Unit>): seq<Unit>
  {
    if |s| % 4 != 0 then s
    else if |s| >= 2 && s[|s| - 1] == PadChar && s[|s| - 2] == PadChar then s[..|s| - 2]
    else if |s| >= 1 && s[|s| - 1] == PadChar then s[..|s| - 1]
    else s
  }

  /** Bytes of a run of alphabet characters: 3 per 4, 1 for a 2-char tail, 2 for a 3-char tail. */
  function DecodeDigits(s: seq<Unit>): (b: seq<bv8>)
    requires |s| % 4 != 1
    requires forall i :: 0 <= i < |s| ==> InAlphabet(s[i])
  {
    if |s| == 0 then []
    else
      assert InAlphabet(s[0]) && InAlphabet(s[1]);
      var a := Value(s[0]).value;
      var b := Value(s[1]).value;
      if |s| == 2 then [(a << 2) | (b >> 4)]
      else
        assert InAlphabet(s[2]);
        var c := Value(s[2]).value;
        if |s| == 3 then [(a << 2) | (b >> 4), ((b & 15) << 4) | (c >> 2)]
        else
          assert InAlphabet(s[3]);
          var d := Value(s[3]).value;
          [(a << 2) | (b >> 4), ((b & 15) << 4) | (c >> 2), ((c & 3) << 6) | d] + DecodeDigits(s[4..])
  }

  /** The forgiving-base64 decode: the decoded bytes, or failure (InvalidCharacterError). */
  function Decode(s: seq<Unit>): (r: Result<seq<bv8>>)
    ensures r.Failure? <==>
      (|StripPadding(RemoveWhitespace(s))| % 4 == 1
       || exists i :: 0 <= i < |StripPadding(RemoveWhitespace(s))| && !InAlphabet(StripPadding(RemoveWhitespace(s))[i]))
  {
    var t := StripPadding(RemoveWhitespace(s));
    if |t| % 4 == 1 then Failure("InvalidCharacterError")
    else if exists i :: 0 <= i < |t| && !InAlphabet(t[i]) then Failure("InvalidCharacterError")
    else Success(DecodeDigits(t))
  }

  /** atob: the decoded bytes as a binary string. */
  function Atob(s: seq<Unit>): (r: Result<seq<Unit>>)
    ensures r.Success? ==> IsBinary(r.value)
  {
    match Decode(s)
    case Failure(m) => Failure(m)
    case Success(b) => Success(ToUnits(b))
  }

  // ---------------------------------------------------------------------------
  // Round trip
  // ---------------------------------------------------------------------------

  lemma GroupRoundTrip(b0: bv8, b1: bv8, b2: bv8)
    ensures (S0(b0) << 2) | (S1(b0, b1) >> 4) == b0
    ensures ((S1(b0, b1) & 15) << 4) | (S2(b1, b2) >> 2) == b1
    ensures ((S2(b1, b2) & 3) << 6) | S3(b2) == b2
  {
  }

  lemma DecodeQuad(b0: bv8, b1: bv8, b2: bv8)
    ensures DecodeDigits(Quad(b0, b1, b2)) == [b0, b1, b2]
  {
    ValueOfChar(S0(b0));
    ValueOfChar(S1(b0, b1));
    ValueOfChar(S2(b1, b2));
    ValueOfChar(S3(b2));
    GroupRoundTrip(b0, b1, b2);
    var q := Quad(b0, b1, b2);
    assert q[4..] == [];
  }

  lemma DecodePair(b0: bv8)
    ensures DecodeDigits([Char(S0(b0)), Char(S1(b0, 0))]) == [b0]
  {
    ValueOfChar(S0(b0));
    ValueOfChar(S1(b0, 0));
    GroupRoundTrip(b0, 0, 0);
  }

  lemma DecodeTriple(b0: bv8, b1: bv8)
    ensures DecodeDigits([Char(S0(b0)), Char(S1(b0, b1)), Char(S2(b1, 0))]) == [b0, b1]
  {
    ValueOfChar(S0(b0));
    ValueOfChar(S1(b0, b1));
    ValueOfChar(S2(b1, 0));
    GroupRoundTrip(b0, b1, 0);
  }

  lemma DecodeDigitsAppend(x: seq<Unit>, y: seq<Unit>)
    requires |x| == 4 && |y| % 4 != 1
    requires forall i :: 0 <= i < |x| ==> InAlphabet(x[i])
    requires forall i :: 0 <= i < |y| ==> InAlphabet(y[i])
    ensures forall i :: 0 <= i < |x + y| ==> InAlphabet((x + y)[i])
    ensures DecodeDigits(x + y) == DecodeDigits(x) + DecodeDigits(y)
  {
    var xy := x + y;
    assert xy[4..] == y;
    assert x[4..] == [];
    assert xy[0] == x[0] && xy[1] == x[1] && xy[2] == x[2] && xy[3] == x[3];
  }

  lemma {:induction false} DecodeDigitsOfDigits(b: seq<bv8>)
    ensures |Digits(b)| % 4 != 1
    ensures DecodeDigits(Digits(b)) == b
  {
    if |b| < 3 {
      DecodeDigitsShort(b);
    } else {
      DecodeDigitsOfDigits(b[3..]);
      DecodeDigitsGroup(b);
    }
  }

  /** Fewer than three bytes: no digits, a pair or a triple. */
  lemma DecodeDigitsShort(b: seq<bv8>)
    requires |b| < 3
    ensures |Digits(b)| % 4 != 1
    ensures DecodeDigits(Digits(b)) == b
  {
    DigitsLength(b);
    if |b| == 1 {
      assert Digits(b) == [Char(S0(b[0])), Char(S1(b[0], 0))];
      DecodePair(b[0]);
    } else if |b| == 2 {
      assert Digits(b) == [Char(S0(b[0])), Char(S1(b[0], b[1])), Char(S2(b[1], 0))];
      DecodeTriple(b[0], b[1]);
    }
  }

  /** A leading group of three bytes decodes from its four digits, in front of the rest. */
  lemma DecodeDigitsGroup(b: seq<bv8>)
    requires |b| >= 3
    requires |Digits(b[3..])| % 4 != 1 && DecodeDigits(Digits(b[3..])) == b[3..]
    ensures |Digits(b)| % 4 != 1
    ensures DecodeDigits(Digits(b)) == b
  {
    var q := Quad(b[0], b[1], b[2]);
    var rest := Digits(b[3..]);
    assert Digits(b) == q + rest;
    PlusFourMod(|rest|);
    DecodeDigitsAppend(q, rest);
    DecodeQuad(b[0], b[1], b[2]);
    calc {
      DecodeDigits(Digits(b));
      DecodeDigits(q) + DecodeDigits(rest);
      [b[0], b[1], b[2]] + b[3..];
      b;
    }
  }

  lemma PlusFourMod(n: nat)
    ensures (4 + n) % 4 == n % 4
  {
  }

  lemma {:induction false} RemoveWhitespaceNone(s: seq<Unit>)
    requires forall i :: 0 <= i < |s| ==> !IsAsciiWhitespace(s[i])
    ensures RemoveWhitespace(s) == s
  {
    if |s| > 0 {
      RemoveWhitespaceNone(s[1..]);
    }
  }

  lemma StripPaddingOfEncode(b: seq<bv8>)
    ensures StripPadding(Encode(b)) == Digits(b)
  {
    var d := Digits(b);
    var e := Encode(b);
    EncodeLength(b);
    var tail := |b| % 3;
    assert e == d + Padding(tail);
    if tail == 1 {
      assert e[..|e| - 2] == d;
    } else if tail == 2 {
      assert e[..|e| - 1] == d;
      DigitsLength(b);
      assert e[|e| - 2] == d[|d| - 1];
      assert InAlphabet(d[|d| - 1]);
    } else {
      assert e == d;
      if |d| > 0 {
        assert InAlphabet(d[|d| - 1]);
      }
    }
  }

  /** Decoding what was encoded gives back the bytes. */
  lemma DecodeEncode(b: seq<bv8>)
    ensures Decode(Encode(b)) == Success(b)
  {
    var e := Encode(b);
    forall i | 0 <= i < |e| ensures !IsAsciiWhitespace(e[i]) {
      if i < |Digits(b)| {
        assert e[i] == Digits(b)[i];
      } else {
        assert e[i] == PadChar;
      }
    }
    RemoveWhitespaceNone(e);
    StripPaddingOfEncode(b);
    DecodeDigitsOfDigits(b);
  }

  /** atob undoes btoa on every string btoa accepts. */
  lemma AtobBtoa(s: seq<Unit>)
    requires Btoa(s).Success?
    ensures Atob(Btoa(s).value) == Success(s)
  {
    DecodeEncode(ToBytes(s));
    assert ToUnits(ToBytes(s)) == s;
  }
}
