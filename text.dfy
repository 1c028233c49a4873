/**
 * The JavaScript string operations the screens rely on, on `string` as a
 * sequence of characters: `trim`, `toLowerCase`, `includes`, `split`,
 * `padStart`, `String(n)`, `parseInt(s, 10)` and `parseFloat(s)`.
 */
module Text {
  import opened Wrappers

  // ---------------------------------------------------------------- whitespace

  /**
   * The white-space and line-terminator characters `trim`, `parseInt` and
   * `parseFloat` skip: tab, vertical tab, form feed, the BOM, every space
   * separator of category Zs, and the four line terminators.
   */
  predicate IsWhite(c: char)
  {
    c == '\t' || c == '\n' || c == '\r' || c == '\U{000B}' || c == '\U{000C}' || c == '\U{FEFF}'
    || c == ' ' || c == '\U{00A0}' || c == '\U{1680}' || ('\U{2000}' <= c <= '\U{200A}')
    || c == '\U{202F}' || c == '\U{205F}' || c == '\U{3000}'
    || c == '\U{2028}' || c == '\U{2029}'
  }

  predicate AllWhite(s: string)
  {
    forall i :: 0 <= i < |s| ==> IsWhite(s[i])
  }

  /** `trimStart`: the suffix left after dropping leading white space. */
  function TrimStart(s: string): (r: string)
    ensures |r| <= |s| && r == s[|s| - |r|..]
    ensures AllWhite(s[..|s| - |r|])
    ensures r == [] || !IsWhite(r[0])
  {
    if |s| > 0 && IsWhite(s[0]) then
      var r := TrimStart(s[1..]);
      TrimStartStep(s, r);
      r
    else s
  }

  /** `trimEnd`: the prefix left after dropping trailing white space. */
  function TrimEnd(s: string): (r: string)
    ensures |r| <= |s| && r == s[..|r|]
    ensures AllWhite(s[|r|..])
    ensures r == [] || !IsWhite(r[|r| - 1])
  {
    if |s| > 0 && IsWhite(s[|s| - 1]) then
      var r := TrimEnd(s[..|s| - 1]);
      TrimEndStep(s, r);
      r
    else s
  }

  /** Dropping one more white character in front keeps the white prefix and the suffix. */
  lemma TrimStartStep(s: string, r: string)
    requires |s| > 0 && IsWhite(s[0])
    requires |r| <= |s| - 1 && r == s[1..][|s| - 1 - |r|..] && AllWhite(s[1..][..|s| - 1 - |r|])
    ensures r == s[|s| - |r|..] && AllWhite(s[..|s| - |r|])
  {
    var k := |s| - |r|;
    assert s[..k] == [s[0]] + s[1..][..k - 1];
    forall i | 0 <= i < k ensures IsWhite(s[..k][i]) {
      if i > 0 {
        assert s[..k][i] == s[1..][..k - 1][i - 1];
      }
    }
  }

  /** Dropping one more white character at the end keeps the prefix and the white suffix. */
  lemma TrimEndStep(s: string, r: string)
    requires |s| > 0 && IsWhite(s[|s| - 1])
    requires |r| <= |s| - 1 && r == s[..|s| - 1][..|r|] && AllWhite(s[..|s| - 1][|r|..])
    ensures r == s[..|r|] && AllWhite(s[|r|..])
  {
    assert s[|r|..] == s[..|s| - 1][|r|..] + [s[|s| - 1]];
    forall i | 0 <= i < |s| - |r| ensures IsWhite(s[|r|..][i]) {
      if i < |s| - 1 - |r| {
        assert s[|r|..][i] == s[..|s| - 1][|r|..][i];
      }
    }
  }

  /** `r` is `s` with the white space `s[..i]` before it and `s[i + |r|..]` after it removed. */
  predicate TrimmedAt(s: string, r: string, i: int)
  {
    0 <= i <= |s| - |r| && r == s[i..i + |r|] && AllWhite(s[..i]) && AllWhite(s[i + |r|..])
  }

  /** `trim`: a slice of `s` that neither starts nor ends with white space. */
  function Trim(s: string): (r: string)
    ensures r == [] || (!IsWhite(r[0]) && !IsWhite(r[|r| - 1]))
    ensures exists i :: TrimmedAt(s, r, i)
  {
    var t := TrimStart(s);
    var r := TrimEnd(t);
    var i := |s| - |t|;
    assert r != [] ==> r[0] == t[0];
    TrimSlices(s, t, r, i);
    assert TrimmedAt(s, r, i);
    r
  }

  lemma TrimSlices(s: string, t: string, r: string, i: int)
    requires 0 <= i <= |s| && t == s[i..] && AllWhite(s[..i])
    requires |r| <= |t| && r == t[..|r|] && AllWhite(t[|r|..])
    ensures TrimmedAt(s, r, i)
  {
    assert s[i + |r|..] == t[|r|..];
  }

  /** Trimming a string twice is trimming it once. */
  lemma TrimIdempotent(s: string)
    ensures Trim(Trim(s)) == Trim(s)
  {
    var r := Trim(s);
    assert TrimStart(r) == r;
    assert TrimEnd(r) == r;
  }

  /** Neither starts nor ends with white space: what `trim` leaves. */
  predicate Unpadded(s: string)
  {
    s == [] || (!IsWhite(s[0]) && !IsWhite(s[|s| - 1]))
  }

  lemma TrimIsUnpadded(s: string)
    ensures Unpadded(Trim(s))
  {
  }

  /** A text without white space at either end is its own trim. */
  lemma TrimUnpadded(s: string)
    requires Unpadded(s)
    ensures Trim(s) == s
  {
    assert TrimStart(s) == s;
    assert TrimEnd(s) == s;
  }

  /** `s.trim() === ""` exactly when `s` is all white space. */
  lemma TrimEmpty(s: string)
    ensures Trim(s) == "" <==> AllWhite(s)
  {
    var r := Trim(s);
    var i :| TrimmedAt(s, r, i);
    if r == "" {
      forall k | 0 <= k < |s| ensures IsWhite(s[k]) {
        if k < i {
          assert s[..i][k] == s[k];
        } else {
          assert s[i..][k - i] == s[k];
        }
      }
    } else {
      assert r[0] == s[i];
    }
  }

  // ---------------------------------------------------------------- case

  /** `toLowerCase` on one character (the ASCII letters). */
  function LowerChar(c: char): (d: char)
    ensures 'A' <= c <= 'Z' ==> 'a' <= d <= 'z'
    ensures !('A' <= c <= 'Z') ==> d == c
  {
    if 'A' <= c <= 'Z' then (c as int + 32) as char else c
  }

  function Lower(s: string): (r: string)
    ensures |r| == |s|
    ensures forall i :: 0 <= i < |s| ==> r[i] == LowerChar(s[i])
  {
    seq(|s|, i requires 0 <= i < |s| => LowerChar(s[i]))
  }

  /** Lower-casing is idempotent, so a lower-cased term is its own lower case. */
  lemma LowerIdempotent(s: string)
    ensures Lower(Lower(s)) == Lower(s)
  {
  }

  // ---------------------------------------------------------------- includes

  /** `t` occurs in `s` at position `i`. */
  predicate OccursAt(s: string, t: string, i: int)
  {
    0 <= i && i + |t| <= |s| && s[i..i + |t|] == t
  }

  /** `s.includes(t)`. */
  function Includes(s: string, t: string): (b: bool)
    ensures b <==> exists i :: OccursAt(s, t, i)
  {
    if |s| < |t| then false
    else if s[..|t|] == t then
      assert OccursAt(s, t, 0);
      true
    else if |s| == |t| then
      assert forall i :: OccursAt(s, t, i) ==> i == 0;
      false
    else
      var b := Includes(s[1..], t);
      forall i | 0 <= i ensures OccursAt(s[1..], t, i) ==> OccursAt(s, t, i + 1) {
        OccursAtShift(s, t, i);
      }
      forall j | 1 <= j ensures OccursAt(s, t, j) ==> OccursAt(s[1..], t, j - 1) {
        OccursAtShift(s, t, j - 1);
      }
      b
  }

  /** An occurrence in the tail is an occurrence one place further on in the whole. */
  lemma OccursAtShift(s: string, t: string, i: nat)
    requires |s| > 0
    ensures OccursAt(s[1..], t, i) <==> OccursAt(s, t, i + 1)
  {
    if i + 1 + |t| <= |s| {
      assert s[1..][i..i + |t|] == s[i + 1..i + 1 + |t|];
    }
  }

  /** The empty search term occurs everywhere. */
  lemma IncludesEmpty(s: string)
    ensures Includes(s, "")
  {
    assert OccursAt(s, "", 0);
  }

  /** Case-insensitive containment, as the search boxes test it. */
  predicate ContainsIgnoringCase(field: string, term: string)
  {
    Includes(Lower(field), Lower(term))
  }

  // ---------------------------------------------------------------- split

  /** Inverse of `split`: the pieces joined with the separator between them. */
  function Join(parts: seq<string>, sep: char): string
  {
    if parts == [] then ""
    else if |parts| == 1 then parts[0]
    else parts[0] + [sep] + Join(parts[1..], sep)
  }

  /** `s.split(sep)`: the maximal separator-free pieces, in order. */
  function Split(s: string, sep: char): (parts: seq<string>)
    ensures |parts| >= 1
    ensures Join(parts, sep) == s
    ensures forall i :: 0 <= i < |parts| ==> sep !in parts[i]
  {
    if s == [] then [""]
    else
      var rest := Split(s[1..], sep);
      if s[0] == sep then
        assert s == [sep] + s[1..];
        [""] + rest
      else
        var parts := [[s[0]] + rest[0]] + rest[1..];
        assert parts[1..] == rest[1..];
        assert s == [s[0]] + s[1..];
        parts
  }

  /** A string without the separator is one piece; its count is one more than the separators. */
  lemma {:induction false} SplitCount(s: string, sep: char)
    ensures |Split(s, sep)| == multiset(s)[sep] + 1
  {
    if s != [] {
      SplitCount(s[1..], sep);
      SplitLength(s, sep);
      CountCons(s, sep);
    }
  }

  /** The first character counts once more than the rest of the string does. */
  lemma CountCons(s: string, c: char)
    requires s != []
    ensures multiset(s)[c] == multiset(s[1..])[c] + if s[0] == c then 1 else 0
  {
    assert s == [s[0]] + s[1..];
    assert multiset(s) == multiset{s[0]} + multiset(s[1..]);
  }

  /** A leading separator starts a new piece; any other first character joins the first piece. */
  lemma SplitLength(s: string, sep: char)
    requires s != []
    ensures |Split(s, sep)| == |Split(s[1..], sep)| + if s[0] == sep then 1 else 0
  {
  }

  // ---------------------------------------------------------------- numbers

  predicate IsDigit(c: char)
  {
    '0' <= c <= '9'
  }

  predicate AllDigits(s: string)
  {
    forall i :: 0 <= i < |s| ==> IsDigit(s[i])
  }

  function DigitChar(d: nat): (c: char)
    requires d < 10
    ensures IsDigit(c)
  {
    ('0' as int + d) as char
  }

  /** The value of a run of decimal digits, most significant first. */
  function DigitsValue(s: string): nat
    requires AllDigits(s)
  {
    if s == [] then 0 else DigitsValue(s[..|s| - 1]) * 10 + (s[|s| - 1] as int - '0' as int)
  }

  /** Leading zeros do not change the value of a digit run. */
  lemma {:induction false} DigitsValueLeadingZeros(z: string, s: string)
    requires AllDigits(s) && forall i :: 0 <= i < |z| ==> z[i] == '0'
    ensures AllDigits(z + s) && DigitsValue(z + s) == DigitsValue(s)
  {
    if s == [] {
      assert z + s == z;
      ZerosValue(z);
    } else {
      assert (z + s)[..|z + s| - 1] == z + s[..|s| - 1];
      DigitsValueLeadingZeros(z, s[..|s| - 1]);
    }
  }

  lemma {:induction false} ZerosValue(z: string)
    requires forall i :: 0 <= i < |z| ==> z[i] == '0'
    ensures AllDigits(z) && DigitsValue(z) == 0
  {
    if z != [] {
      ZerosValue(z[..|z| - 1]);
    }
  }

  /** `String(n)` for a non-negative integer: its decimal digits, no leading zero. */
  function NatText(n: nat): (s: string)
    ensures |s| >= 1 && AllDigits(s)
    ensures DigitsValue(s) == n
    ensures |s| > 1 ==> s[0] != '0'
    ensures n < 10 <==> |s| == 1
  {
    if n < 10 then [DigitChar(n)]
    else
      var s := NatText(n / 10) + [DigitChar(n % 10)];
      assert s[..|s| - 1] == NatText(n / 10);
      s
  }

  /** `String(i)` for an integer. */
  function IntText(i: int): (s: string)
    ensures |s| >= 1
    ensures i >= 0 ==> s == NatText(i)
    ensures i < 0 ==> s[0] == '-' && s[1..] == NatText(-i)
  {
    if i < 0 then "-" + NatText(-i) else NatText(i)
  }

  function Repeat(c: char, n: nat): (s: string)
    ensures |s| == n && forall i :: 0 <= i < n ==> s[i] == c
  {
    if n == 0 then "" else [c] + Repeat(c, n - 1)
  }

  /** `s.padStart(n, c)` with a one-character pad. */
  function PadStart(s: string, n: nat, c: char): (r: string)
    ensures |r| == if |s| < n then n else |s|
    ensures r[|r| - |s|..] == s
    ensures forall i :: 0 <= i < |r| - |s| ==> r[i] == c
  {
    if |s| < n then Repeat(c, n - |s|) + s else s
  }

  /** The longest prefix made of digits. */
  function DigitPrefix(s: string): (d: string)
    ensures AllDigits(d) && |d| <= |s| && d == s[..|d|]
    ensures |d| == |s| || !IsDigit(s[|d|])
  {
    if |s| > 0 && IsDigit(s[0]) then
      var d := [s[0]] + DigitPrefix(s[1..]);
      d
    else ""
  }

  lemma {:induction false} DigitPrefixOfDigits(s: string, rest: string)
    requires AllDigits(s) && (rest == [] || !IsDigit(rest[0]))
    ensures DigitPrefix(s + rest) == s
  {
    if s != [] {
      assert (s + rest)[1..] == s[1..] + rest;
      DigitPrefixOfDigits(s[1..], rest);
    } else {
      assert s + rest == rest;
    }
  }

  /** An optional sign after the leading white space: the multiplier and what follows it. */
  function SignAndBody(s: string): (int, string)
  {
    var t := TrimStart(s);
    if |t| > 0 && t[0] == '-' then (-1, t[1..])
    else if |t| > 0 && t[0] == '+' then (1, t[1..])
    else (1, t)
  }

  /**
   * `parseInt(s, 10)`: white space, an optional sign, then the longest run of
   * digits; `None` stands for NaN (no digit there).
   */
  function ParseInt(s: string): (r: Option<int>)
    ensures r.None? <==> DigitPrefix(SignAndBody(s).1) == []
  {
    var (sign, body) := SignAndBody(s);
    var d := DigitPrefix(body);
    if d == [] then None else Some(sign * DigitsValue(d))
  }

  /** A run of digits parses to its value, however many leading zeros it has. */
  lemma ParseIntDigits(s: string)
    requires |s| >= 1 && AllDigits(s)
    ensures ParseInt(s) == Some(DigitsValue(s))
  {
    DigitsBody(s);
  }

  /** A run of digits followed by anything but a digit parses to the value of the run. */
  lemma ParseIntLeadingDigits(d: string, rest: string)
    requires |d| >= 1 && AllDigits(d) && (rest == [] || !IsDigit(rest[0]))
    ensures ParseInt(d + rest) == Some(DigitsValue(d))
  {
    var s := d + rest;
    assert s[0] == d[0];
    assert !IsWhite(s[0]);
    assert TrimStart(s) == s;
    assert SignAndBody(s) == (1, s);
    DigitPrefixOfDigits(d, rest);
  }

  /** `parseInt(String(i)) == i`. */
  lemma ParseIntText(i: int)
    ensures ParseInt(IntText(i)) == Some(i)
  {
    if i < 0 {
      ParseIntNegative(i);
    } else {
      ParseIntDigits(IntText(i));
    }
  }

  /** A negative number's text is a minus sign before the digits of its magnitude. */
  lemma ParseIntNegative(i: int)
    requires i < 0
    ensures ParseInt(IntText(i)) == Some(i)
  {
    var d := NatText(-i);
    assert IntText(i) == "-" + d;
    MinusBody(d);
    DigitsBody(d);
  }

  /** A minus sign in front: the multiplier -1 and the text after the sign. */
  lemma MinusBody(d: string)
    ensures SignAndBody("-" + d) == (-1, d)
  {
    var s := "-" + d;
    assert s[0] == '-' && !IsWhite(s[0]);
    assert TrimStart(s) == s;
    assert s[1..] == d;
  }

  /** The value of the digits after the decimal point: `0.d0d1d2...`, below 1. */
  function Fraction(d: string): (f: real)
    requires AllDigits(d)
    ensures 0.0 <= f < 1.0
  {
    if d == [] then 0.0 else ((d[0] as int - '0' as int) as real + Fraction(d[1..])) / 10.0
  }

  /**
   * `parseFloat(s)` for plain decimal notation: white space, an optional
   * sign, digits, optionally a point and more digits, with at least one digit
   * overall; `None` stands for NaN.
   */
  function ParseFloat(s: string): (r: Option<real>)
    ensures r.None? ==> DigitPrefix(SignAndBody(s).1) == []
    ensures var (sign, body) := SignAndBody(s);
      |body| >= 1 && DigitPrefix(body) == body ==>
        r == Some(if sign < 0 then -(DigitsValue(body) as real) else DigitsValue(body) as real)
  {
    var (sign, body) := SignAndBody(s);
    ParseUnsigned(sign, body)
  }

  /** What `parseFloat` reads after the white space and the sign: digits, then optionally a point and digits. */
  function ParseUnsigned(sign: int, body: string): (r: Option<real>)
    ensures r.None? ==> DigitPrefix(body) == []
    ensures |body| >= 1 && DigitPrefix(body) == body ==>
      r == Some(if sign < 0 then -(DigitsValue(body) as real) else DigitsValue(body) as real)
  {
    var whole := DigitPrefix(body);
    var after := body[|whole|..];
    assert whole == body ==> after == [];
    var frac := if |after| > 0 && after[0] == '.' then DigitPrefix(after[1..]) else "";
    if whole == [] && frac == [] then None
    else
      var magnitude := DigitsValue(whole) as real + Fraction(frac);
      Some(if sign < 0 then -magnitude else magnitude)
  }

  /** `parseFloat(String(n)) == n` for a non-negative integer. */
  lemma ParseFloatNatText(n: nat)
    ensures ParseFloat(NatText(n)) == Some(n as real)
  {
    ParseFloatDigits(NatText(n));
  }

  /** A run of digits alone parses to its value. */
  lemma ParseFloatDigits(s: string)
    requires |s| >= 1 && AllDigits(s)
    ensures ParseFloat(s) == Some(DigitsValue(s) as real)
  {
    DigitsBody(s);
  }

  /** A decimal `w.f` followed by anything but a digit parses to its whole part plus its fraction. */
  lemma ParseFloatDecimal(w: string, f: string, rest: string)
    requires |w| >= 1 && AllDigits(w) && AllDigits(f) && (rest == [] || !IsDigit(rest[0]))
    ensures ParseFloat(w + "." + f + rest) == Some(DigitsValue(w) as real + Fraction(f))
  {
    var tail := "." + f + rest;
    var s := w + tail;
    assert s == w + "." + f + rest;
    DigitsFirst(w, tail, s);
    WholePart(s, w, tail);
    FractionAfter(w, f, rest, s);
    ParseFloatOfParts(s, w, f);
  }

  lemma DigitsFirst(w: string, tail: string, s: string)
    requires |w| >= 1 && AllDigits(w) && s == w + tail
    ensures SignAndBody(s) == (1, s)
  {
    assert s[0] == w[0];
    DigitStartBody(s);
  }

  lemma WholePart(s: string, w: string, tail: string)
    requires AllDigits(w) && |tail| >= 1 && tail[0] == '.' && s == w + tail
    ensures DigitPrefix(s) == w && |s| > |w| && s[|w|] == '.'
  {
    DigitPrefixOfDigits(w, tail);
  }

  lemma FractionAfter(w: string, f: string, rest: string, s: string)
    requires AllDigits(f) && (rest == [] || !IsDigit(rest[0]))
    requires s == w + ("." + f + rest)
    ensures |s| > |w| && s[|w|] == '.' && DigitPrefix(s[|w| + 1..]) == f
  {
    assert s[|w| + 1..] == f + rest;
    DigitPrefixOfDigits(f, rest);
  }

  lemma DigitStartBody(s: string)
    requires |s| >= 1 && IsDigit(s[0])
    ensures SignAndBody(s) == (1, s)
  {
    assert !IsWhite(s[0]);
    assert TrimStart(s) == s;
  }

  lemma ParseFloatOfParts(s: string, w: string, f: string)
    requires SignAndBody(s) == (1, s) && |w| >= 1 && DigitPrefix(s) == w && AllDigits(f)
    requires |s| > |w| && s[|w|] == '.' && DigitPrefix(s[|w| + 1..]) == f
    ensures ParseFloat(s) == Some(DigitsValue(w) as real + Fraction(f))
  {
    assert ParseFloat(s) == ParseUnsigned(1, s);
    UnsignedOfParts(s, w, f);
  }

  lemma UnsignedOfParts(body: string, w: string, f: string)
    requires |w| >= 1 && DigitPrefix(body) == w && AllDigits(f)
    requires |body| > |w| && body[|w|] == '.' && DigitPrefix(body[|w| + 1..]) == f
    ensures ParseUnsigned(1, body) == Some(DigitsValue(w) as real + Fraction(f))
  {
    assert body[|w|..][1..] == body[|w| + 1..];
  }

  /** A run of digits has no sign and no white space before it, and is all digit prefix. */
  lemma DigitsBody(s: string)
    requires |s| >= 1 && AllDigits(s)
    ensures SignAndBody(s) == (1, s) && DigitPrefix(s) == s
  {
    assert !IsWhite(s[0]);
    assert TrimStart(s) == s;
    DigitPrefixOfDigits(s, "");
    assert s + "" == s;
  }

  /** The characters the dashboard keeps when cleaning an amount: `[0-9.-]`. */
  predicate IsNumericChar(c: char)
  {
    IsDigit(c) || c == '.' || c == '-'
  }

  /** `s.replace(/[^0-9.-]/g, '')`. */
  function StripNonNumeric(s: string): (r: string)
    ensures forall i :: 0 <= i < |r| ==> IsNumericChar(r[i])
    ensures |r| <= |s|
  {
    if s == [] then ""
    else if IsNumericChar(s[0]) then [s[0]] + StripNonNumeric(s[1..])
    else StripNonNumeric(s[1..])
  }

  /** Cleaning keeps every numeric character of the input, in order, and is idempotent. */
  lemma {:induction false} StripNonNumericKeeps(s: string)
    ensures (forall i :: 0 <= i < |s| ==> IsNumericChar(s[i])) ==> StripNonNumeric(s) == s
    ensures StripNonNumeric(StripNonNumeric(s)) == StripNonNumeric(s)
  {
    if s != [] {
      StripNonNumericKeeps(s[1..]);
      if IsNumericChar(s[0]) {
        assert ([s[0]] + StripNonNumeric(s[1..]))[1..] == StripNonNumeric(s[1..]);
      }
    }
  }

  /** Cleaning works piece by piece. */
  lemma {:induction false} StripNonNumericAppend(a: string, b: string)
    ensures StripNonNumeric(a + b) == StripNonNumeric(a) + StripNonNumeric(b)
  {
    if a == [] {
      assert a + b == b;
    } else {
      assert (a + b)[1..] == a[1..] + b;
      StripNonNumericAppend(a[1..], b);
    }
  }

  /** Cleaning never brings in a digit. */
  lemma {:induction false} StripNonNumericNoDigits(s: string)
    requires forall i :: 0 <= i < |s| ==> !IsDigit(s[i])
    ensures forall i :: 0 <= i < |StripNonNumeric(s)| ==> !IsDigit(StripNonNumeric(s)[i])
  {
    if s != [] {
      StripNonNumericNoDigits(s[1..]);
    }
  }

  /** A text without a single digit is not a number. */
  lemma ParseFloatNoDigits(s: string)
    requires forall i :: 0 <= i < |s| ==> !IsDigit(s[i])
    ensures ParseFloat(s).None?
  {
    NoDigitsAfterSign(s);
    var body := SignAndBody(s).1;
    NoLeadingDigit(body);
    if |body| > 1 {
      NoLeadingDigit(body[1..]);
    }
  }

  /** Dropping white space and a sign brings in no digit. */
  lemma NoDigitsAfterSign(s: string)
    requires forall i :: 0 <= i < |s| ==> !IsDigit(s[i])
    ensures forall i :: 0 <= i < |SignAndBody(s).1| ==> !IsDigit(SignAndBody(s).1[i])
  {
    var t := TrimStart(s);
    forall i | 0 <= i < |t| ensures !IsDigit(t[i]) {
      assert t[i] == s[|s| - |t| + i];
    }
    var body := SignAndBody(s).1;
    if |t| > 0 && (t[0] == '-' || t[0] == '+') {
      assert body == t[1..];
      forall i | 0 <= i < |body| ensures !IsDigit(body[i]) {
        assert body[i] == t[i + 1];
      }
    } else {
      assert body == t;
    }
  }

  /** A text that does not start with a digit has no digit prefix. */
  lemma NoLeadingDigit(x: string)
    requires x == [] || !IsDigit(x[0])
    ensures DigitPrefix(x) == []
  {
  }

  /**
   * `String(x)` for the amounts the model computes: the digits of the whole
   * part and, when there is a fractional part, a point and up to twenty digits.
   */
  function AmountText(x: real): (s: string)
    ensures |s| >= 1
    ensures x >= 0.0 && x == x.Floor as real ==> s == NatText(x.Floor)
  {
    var m := if x < 0.0 then -x else x;
    var w := m.Floor;
    var f := m - w as real;
    (if x < 0.0 then "-" else "") + NatText(w) + (if f == 0.0 then "" else "." + FractionDigits(f, 20))
  }

  /** Up to `k` decimal digits of a fraction in [0, 1). */
  function FractionDigits(f: real, k: nat): (s: string)
    requires 0.0 <= f < 1.0
    ensures AllDigits(s) && |s| <= k
    decreases k
  {
    if f == 0.0 || k == 0 then ""
    else
      var d := (f * 10.0).Floor;
      [DigitChar(d)] + FractionDigits(f * 10.0 - d as real, k - 1)
  }
}
