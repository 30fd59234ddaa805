/** `BigInt(string)` as the handlers use it: the StringToBigInt abstract
    operation of ECMA-262 (section 7.1.14, "StringToBigInt", with the
    StringIntegerLiteral grammar of section 7.1.14.1). The string is stripped
    of StrWhiteSpace at both ends; what remains is empty (value 0), a decimal
    integer with an optional sign, or an unsigned 0x/0o/0b literal. Anything
    else makes `BigInt` throw a SyntaxError, modelled as `None`. The value is
    an arbitrary-precision integer, so `int` is exact. */
module BigIntParse {
  import opened Wrappers

  /** StrWhiteSpaceChar: WhiteSpace (TAB, VT, FF, ZWNBSP, every Zs code
      point) or LineTerminator (LF, CR, LS, PS). */
  predicate IsStrWhiteSpaceChar(c: char) {
    var u := c as int;
    || u == 0x09 || u == 0x0B || u == 0x0C || u == 0xFEFF
    || u == 0x20 || u == 0xA0 || u == 0x1680 || (0x2000 <= u <= 0x200A)
    || u == 0x202F || u == 0x205F || u == 0x3000
    || u == 0x0A || u == 0x0D || u == 0x2028 || u == 0x2029
  }

  /** `s` without its leading StrWhiteSpace. */
  function TrimStart(s: string): (r: string)
    ensures |r| <= |s| && r == s[|s| - |r|..]
    ensures r == [] || !IsStrWhiteSpaceChar(r[0])
    ensures forall i :: 0 <= i < |s| - |r| ==> IsStrWhiteSpaceChar(s[i])
  {
    if |s| > 0 && IsStrWhiteSpaceChar(s[0]) then
      var r := TrimStart(s[1..]);
      TrimStartStep(s, s[1..], r);
      r
    else s
  }

  lemma TrimStartStep(s: string, t: string, r: string)
    requires |s| > 0 && IsStrWhiteSpaceChar(s[0]) && t == s[1..]
    requires |r| <= |t| && r == t[|t| - |r|..]
    requires forall i :: 0 <= i < |t| - |r| ==> IsStrWhiteSpaceChar(t[i])
    ensures r == s[|s| - |r|..]
    ensures forall i :: 0 <= i < |s| - |r| ==> IsStrWhiteSpaceChar(s[i])
  {
    assert t[|t| - |r|..] == s[|s| - |r|..];
    forall i | 0 <= i < |s| - |r|
      ensures IsStrWhiteSpaceChar(s[i])
    {
      if i > 0 {
        assert s[i] == t[i - 1];
      }
    }
  }

  /** `s` without its trailing StrWhiteSpace. */
  function TrimEnd(s: string): (r: string)
    ensures |r| <= |s| && r == s[..|r|]
    ensures r == [] || !IsStrWhiteSpaceChar(r[|r| - 1])
    ensures forall i :: |r| <= i < |s| ==> IsStrWhiteSpaceChar(s[i])
  {
    if |s| > 0 && IsStrWhiteSpaceChar(s[|s| - 1]) then
      var r := TrimEnd(s[..|s| - 1]);
      TrimEndStep(s, s[..|s| - 1], r);
      r
    else s
  }

  lemma TrimEndStep(s: string, t: string, r: string)
    requires |s| > 0 && IsStrWhiteSpaceChar(s[|s| - 1]) && t == s[..|s| - 1]
    requires |r| <= |t| && r == t[..|r|]
    requires forall i :: |r| <= i < |t| ==> IsStrWhiteSpaceChar(t[i])
    ensures r == s[..|r|]
    ensures forall i :: |r| <= i < |s| ==> IsStrWhiteSpaceChar(s[i])
  {
    assert t[..|r|] == s[..|r|];
    forall i | |r| <= i < |s|
      ensures IsStrWhiteSpaceChar(s[i])
    {
      if i < |s| - 1 {
        assert s[i] == t[i];
      }
    }
  }

  /** `r` sits in `s` at offset `k`, with nothing but StrWhiteSpace before
      and after it. */
  predicate IsPaddedSlice(s: string, r: string, k: int) {
    && 0 <= k && k + |r| <= |s| && r == s[k..k + |r|]
    && (forall i :: 0 <= i < k ==> IsStrWhiteSpaceChar(s[i]))
    && (forall i :: k + |r| <= i < |s| ==> IsStrWhiteSpaceChar(s[i]))
  }

  /** The part of `s` that the StringIntegerLiteral grammar has to match
      once the optional StrWhiteSpace around it is taken away: `s` itself,
      in place and in order, minus its leading and trailing StrWhiteSpace. */
  function Trim(s: string): (r: string)
    ensures r == [] || (!IsStrWhiteSpaceChar(r[0]) && !IsStrWhiteSpaceChar(r[|r| - 1]))
    ensures exists k :: IsPaddedSlice(s, r, k)
    ensures s == [] || (!IsStrWhiteSpaceChar(s[0]) && !IsStrWhiteSpaceChar(s[|s| - 1])) ==> r == s
  {
    var t := TrimStart(s);
    var r := TrimEnd(t);
    assert r != [] ==> r[0] == t[0];
    TrimIsSlice(s, |s| - |t|, t, r);
    PaddedSliceOfUnpadded(s, r, |s| - |t|);
    r
  }

  /** Text with no StrWhiteSpace at either end is its own only padded slice. */
  lemma PaddedSliceOfUnpadded(s: string, r: string, k: int)
    requires IsPaddedSlice(s, r, k)
    ensures s == [] || (!IsStrWhiteSpaceChar(s[0]) && !IsStrWhiteSpaceChar(s[|s| - 1])) ==> r == s
  {
    if s != [] && !IsStrWhiteSpaceChar(s[0]) && !IsStrWhiteSpaceChar(s[|s| - 1]) {
      assert k == 0;
      assert k + |r| == |s|;
      assert s[0..|s|] == s;
    }
  }

  lemma TrimIsSlice(s: string, k: nat, t: string, r: string)
    requires k + |t| == |s| && t == s[k..] && forall i :: 0 <= i < k ==> IsStrWhiteSpaceChar(s[i])
    requires |r| <= |t| && r == t[..|r|] && forall i :: |r| <= i < |t| ==> IsStrWhiteSpaceChar(t[i])
    ensures IsPaddedSlice(s, r, k)
  {
    assert t == s[k..];
    forall i | k + |r| <= i < |s|
      ensures IsStrWhiteSpaceChar(s[i])
    {
      assert s[i] == t[i - k];
    }
  }

  /** The value of a hexadecimal digit character, None for any other character. */
  function DigitValue(c: char): (v: Option<int>)
    ensures v.Some? ==> 0 <= v.value < 16
  {
    if '0' <= c <= '9' then Some(c as int - '0' as int)
    else if 'a' <= c <= 'f' then Some(c as int - 'a' as int + 10)
    else if 'A' <= c <= 'F' then Some(c as int - 'A' as int + 10)
    else None
  }

  predicate IsDigitOf(c: char, radix: nat) {
    DigitValue(c).Some? && DigitValue(c).value < radix
  }

  predicate AllDigitsOf(d: string, radix: nat) {
    forall i :: 0 <= i < |d| ==> IsDigitOf(d[i], radix)
  }

  /** The mathematical value (MV) of a digit string in the given radix. */
  function MV(d: string, radix: nat): nat
    requires AllDigitsOf(d, radix)
  {
    if d == [] then 0 else MV(d[..|d| - 1], radix) * radix + DigitValue(d[|d| - 1]).value
  }

  /** DecimalDigits, HexDigits, OctalDigits or BinaryDigits: one digit or more. */
  function ParseDigits(d: string, radix: nat): Option<int> {
    if |d| > 0 && AllDigitsOf(d, radix) then Some(MV(d, radix)) else None
  }

  function Negate(v: Option<int>): Option<int> {
    match v
    case None => None
    case Some(n) => Some(-n)
  }

  /** StringToBigInt(s): `Some(n)` when `BigInt(s)` returns `n`, `None`
      when it throws. */
  function StringToBigInt(s: string): Option<int> {
    ParseTrimmed(Trim(s))
  }

  /** StringIntegerLiteral on text with no StrWhiteSpace at either end:
      nothing at all, a NonDecimalIntegerLiteral (no sign allowed), or a
      SignedInteger. */
  function ParseTrimmed(t: string): Option<int> {
    if t == [] then Some(0)
    else if |t| >= 2 && t[0] == '0' && (t[1] == 'x' || t[1] == 'X') then ParseDigits(t[2..], 16)
    else if |t| >= 2 && t[0] == '0' && (t[1] == 'o' || t[1] == 'O') then ParseDigits(t[2..], 8)
    else if |t| >= 2 && t[0] == '0' && (t[1] == 'b' || t[1] == 'B') then ParseDigits(t[2..], 2)
    else if t[0] == '+' then ParseDigits(t[1..], 10)
    else if t[0] == '-' then Negate(ParseDigits(t[1..], 10))
    else ParseDigits(t, 10)
  }

  // ---------------------------------------------------------------------
  // A reference rendering: the canonical decimal text of an integer, as
  // `n.toString()` produces it for a BigInt.

  function DigitChar(d: nat): (c: char)
    requires d < 10
    ensures IsDigitOf(c, 10) && DigitValue(c) == Some(d)
  {
    ('0' as int + d) as char
  }

  function NatToDecimal(n: nat): (r: string)
    ensures |r| > 0
  {
    if n < 10 then [DigitChar(n)] else NatToDecimal(n / 10) + [DigitChar(n % 10)]
  }

  function DecimalString(n: int): (r: string) {
    if n < 0 then "-" + NatToDecimal(-n) else NatToDecimal(n)
  }

  lemma {:induction false} NatToDecimalValue(n: nat)
    ensures AllDigitsOf(NatToDecimal(n), 10)
    ensures MV(NatToDecimal(n), 10) == n
  {
    var r := NatToDecimal(n);
    if n >= 10 {
      var p := NatToDecimal(n / 10);
      NatToDecimalValue(n / 10);
      assert r == p + [DigitChar(n % 10)];
      assert r[..|r| - 1] == p;
    }
  }

  lemma DigitIsNotWhiteSpace(c: char)
    requires IsDigitOf(c, 10)
    ensures !IsStrWhiteSpaceChar(c) && c != '+' && c != '-'
    ensures c != 'x' && c != 'X' && c != 'o' && c != 'O' && c != 'b' && c != 'B'
  {
  }

  /** Unsigned decimal digits parse to their value. */
  lemma ParseUnsignedDecimal(t: string)
    requires |t| > 0 && AllDigitsOf(t, 10)
    ensures ParseTrimmed(t) == Some(MV(t, 10))
  {
    DigitIsNotWhiteSpace(t[0]);
    if |t| >= 2 {
      DigitIsNotWhiteSpace(t[1]);
    }
  }

  /** A minus sign followed by decimal digits parses to the negated value. */
  lemma ParseNegativeDecimal(t: string)
    requires |t| > 1 && t[0] == '-' && AllDigitsOf(t[1..], 10)
    ensures ParseTrimmed(t) == Some(-(MV(t[1..], 10) as int))
  {
  }

  /** Parsing the canonical decimal text of any integer gives that integer
      back, negative numbers and numbers beyond 2^53 included. */
  lemma {:induction false} DecimalRoundTrip(n: int)
    ensures StringToBigInt(DecimalString(n)) == Some(n)
  {
    var s := DecimalString(n);
    var m := if n < 0 then -n else n;
    var d := NatToDecimal(m);
    NatToDecimalValue(m);
    DigitIsNotWhiteSpace(d[0]);
    DigitIsNotWhiteSpace(d[|d| - 1]);
    if n < 0 {
      assert s == "-" + d && s[1..] == d;
      assert Trim(s) == s;
      ParseNegativeDecimal(s);
    } else {
      assert s == d;
      assert Trim(s) == s;
      ParseUnsignedDecimal(s);
    }
  }

  /** TrimStart drops exactly the StrWhiteSpace before the first other character. */
  lemma {:induction false} TrimStartSkips(s: string, a: nat)
    requires a < |s| && !IsStrWhiteSpaceChar(s[a])
    requires forall i :: 0 <= i < a ==> IsStrWhiteSpaceChar(s[i])
    ensures TrimStart(s) == s[a..]
    decreases a
  {
    if a > 0 {
      assert s[1..][a - 1] == s[a];
      TrimStartSkips(s[1..], a - 1);
      assert s[1..][a - 1..] == s[a..];
    }
  }

  /** TrimEnd drops exactly the StrWhiteSpace after the last other character. */
  lemma {:induction false} TrimEndSkips(s: string, b: nat)
    requires 0 < b <= |s| && !IsStrWhiteSpaceChar(s[b - 1])
    requires forall i :: b <= i < |s| ==> IsStrWhiteSpaceChar(s[i])
    ensures TrimEnd(s) == s[..b]
    decreases |s| - b
  {
    if b < |s| {
      var t := s[..|s| - 1];
      assert t[b - 1] == s[b - 1];
      TrimEndSkips(t, b);
      assert t[..b] == s[..b];
    }
  }

  /** When `s` holds only StrWhiteSpace outside `s[a..b]`, and that slice
      has no StrWhiteSpace at its ends, the two trims leave that slice. */
  lemma TrimEndsOfPaddedAt(s: string, a: int, b: int)
    requires 0 <= a < b <= |s|
    requires forall i :: 0 <= i < a ==> IsStrWhiteSpaceChar(s[i])
    requires forall i :: b <= i < |s| ==> IsStrWhiteSpaceChar(s[i])
    requires !IsStrWhiteSpaceChar(s[a]) && !IsStrWhiteSpaceChar(s[b - 1])
    ensures TrimEnd(TrimStart(s)) == s[a..b]
  {
    TrimStartSkips(s, a);
    TrimEndOfSuffix(s, a, b);
  }

  lemma TrimEndOfSuffix(s: string, a: int, b: int)
    requires 0 <= a < b <= |s|
    requires forall i :: b <= i < |s| ==> IsStrWhiteSpaceChar(s[i])
    requires !IsStrWhiteSpaceChar(s[b - 1])
    ensures TrimEnd(s[a..]) == s[a..b]
  {
    var t := s[a..];
    assert t[b - a - 1] == s[b - 1];
    assert forall i :: b - a <= i < |t| ==> IsStrWhiteSpaceChar(t[i]) by {
      forall i | b - a <= i < |t| ensures IsStrWhiteSpaceChar(t[i]) {
        assert t[i] == s[i + a];
      }
    }
    TrimEndSkips(t, b - a);
    SliceOfSuffix(s, a, b);
  }

  lemma SliceOfSuffix(s: string, a: int, b: int)
    requires 0 <= a <= b <= |s|
    ensures s[a..][..b - a] == s[a..b]
  {
  }

  /** StrWhiteSpace around text with none at its ends is all that Trim takes away. */
  lemma TrimOfPadded(pre: string, t: string, post: string)
    requires forall i :: 0 <= i < |pre| ==> IsStrWhiteSpaceChar(pre[i])
    requires forall i :: 0 <= i < |post| ==> IsStrWhiteSpaceChar(post[i])
    requires t == [] || (!IsStrWhiteSpaceChar(t[0]) && !IsStrWhiteSpaceChar(t[|t| - 1]))
    ensures Trim(pre + t + post) == t
  {
    var s := pre + t + post;
    var a := |pre|;
    var b := |pre| + |t|;
    assert forall i :: 0 <= i < a ==> s[i] == pre[i];
    assert forall i :: b <= i < |s| ==> s[i] == post[i - b];
    assert t != [] ==> s[a] == t[0] && s[b - 1] == t[|t| - 1];
    assert s[a..b] == t;
    if t == [] {
      assert forall i :: 0 <= i < |s| ==> IsStrWhiteSpaceChar(s[i]);
      TrimOfWhiteSpace(s);
    } else {
      TrimEndsOfPaddedAt(s, a, b);
    }
  }

  /** The first and last characters of a canonical decimal are not StrWhiteSpace. */
  lemma DecimalStringUnpadded(n: int)
    ensures var d := DecimalString(n); !IsStrWhiteSpaceChar(d[0]) && !IsStrWhiteSpaceChar(d[|d| - 1])
  {
    var m := if n < 0 then -n else n;
    var d := NatToDecimal(m);
    NatToDecimalValue(m);
    DigitIsNotWhiteSpace(d[0]);
    DigitIsNotWhiteSpace(d[|d| - 1]);
    if n < 0 {
      assert DecimalString(n) == "-" + d;
    }
  }

  /** A form field holding an integer's decimal text with StrWhiteSpace
      around it (" 5 ", "\t-12\n") parses to that integer. */
  lemma PaddedDecimalRoundTrip(pre: string, n: int, post: string)
    requires forall i :: 0 <= i < |pre| ==> IsStrWhiteSpaceChar(pre[i])
    requires forall i :: 0 <= i < |post| ==> IsStrWhiteSpaceChar(post[i])
    ensures StringToBigInt(pre + DecimalString(n) + post) == Some(n)
  {
    DecimalStringUnpadded(n);
    TrimOfPadded(pre, DecimalString(n), post);
    TrimOfPadded([], DecimalString(n), []);
    assert [] + DecimalString(n) + [] == DecimalString(n);
    DecimalRoundTrip(n);
  }

  /** In the decimal branch, that is with no 0x, 0o or 0b prefix, a
      character after the optional sign that is not a decimal digit makes
      `BigInt` throw ("abc", "12a", "-x1"); so does a sign with no digits. */
  lemma DecimalNonDigitRejected(s: string, i: int)
    requires var t := Trim(s);
      && t != []
      && !(|t| >= 2 && t[0] == '0' && t[1] in "xXoObB")
      && (if t[0] == '+' || t[0] == '-' then 1 else 0) <= i < |t|
      && !IsDigitOf(t[i], 10)
    ensures StringToBigInt(s) == None
  {
    DecimalNonDigitRejectedTrimmed(Trim(s), i);
  }

  lemma DecimalNonDigitRejectedTrimmed(t: string, i: int)
    requires t != []
    requires !(|t| >= 2 && t[0] == '0' && t[1] in "xXoObB")
    requires (if t[0] == '+' || t[0] == '-' then 1 else 0) <= i < |t|
    requires !IsDigitOf(t[i], 10)
    ensures ParseTrimmed(t) == None
  {
    if t[0] == '+' || t[0] == '-' {
      assert t[1..][i - 1] == t[i];
    }
  }

  lemma SignAloneRejected(s: string)
    requires Trim(s) == "+" || Trim(s) == "-"
    ensures StringToBigInt(s) == None
  {
    var t := Trim(s);
    assert |t| == 1 && t[1..] == [];
    assert ParseDigits(t[1..], 10) == None;
  }

  /** " 5 " is the integer 5. */
  lemma SpacedFieldExample()
    ensures StringToBigInt(" 5 ") == Some(5)
  {
    assert DecimalString(5) == "5";
    assert " " + "5" + " " == " 5 ";
    PaddedDecimalRoundTrip(" ", 5, " ");
  }

  /** "abc" is rejected, though every one of its letters is a hex digit. */
  lemma LetterFieldExample()
    ensures StringToBigInt("abc") == None
  {
    var s := "abc";
    assert !IsStrWhiteSpaceChar(s[0]) && !IsStrWhiteSpaceChar(s[2]);
    assert Trim(s) == s;
    assert !IsDigitOf(s[0], 10);
    DecimalNonDigitRejected(s, 0);
  }

  // ---------------------------------------------------------------------
  // What Trim keeps and drops.

  lemma TrimKeepsNonWhiteSpace(s: string, i: int)
    requires 0 <= i < |s| && !IsStrWhiteSpaceChar(s[i])
    ensures exists j :: 0 <= j < |Trim(s)| && Trim(s)[j] == s[i]
  {
    var t := TrimStart(s);
    var r := TrimEnd(t);
    var k := |s| - |t|;
    assert i >= k;
    var j := i - k;
    assert t[j] == s[i] by { assert t == s[k..]; }
    assert j < |r|;
    assert r[j] == t[j] by { assert r == t[..|r|]; }
    assert Trim(s) == r && 0 <= j < |r| && r[j] == s[i];
  }

  lemma TrimOfWhiteSpace(s: string)
    requires forall i :: 0 <= i < |s| ==> IsStrWhiteSpaceChar(s[i])
    ensures Trim(s) == []
  {
  }

  /** A string made only of StrWhiteSpace, the empty string included, is
      the integer 0. */
  lemma WhiteSpaceIsZero(s: string)
    requires forall i :: 0 <= i < |s| ==> IsStrWhiteSpaceChar(s[i])
    ensures StringToBigInt(s) == Some(0)
  {
    TrimOfWhiteSpace(s);
  }

  /** Characters that some accepted input can contain. */
  predicate MayOccur(c: char) {
    IsStrWhiteSpaceChar(c) || DigitValue(c).Some?
    || c == '+' || c == '-' || c == 'x' || c == 'X' || c == 'o' || c == 'O'
  }

  /** One character outside `MayOccur` anywhere in the string (a decimal
      point, a comma, a numeric separator) makes `BigInt` throw: "1.0",
      "1,000" and "1_000" are all rejected. */
  lemma ForeignCharRejected(s: string, i: int)
    requires 0 <= i < |s| && !MayOccur(s[i])
    ensures StringToBigInt(s) == None
  {
    TrimKeepsNonWhiteSpace(s, i);
    var t := Trim(s);
    var j :| 0 <= j < |t| && t[j] == s[i];
    ParseTrimmedRejects(t, j);
  }

  lemma ParseTrimmedRejects(t: string, j: int)
    requires 0 <= j < |t| && !MayOccur(t[j])
    ensures ParseTrimmed(t) == None
  {
    if |t| >= 2 && t[0] == '0' && (t[1] in "xXoObB") {
      assert j >= 2 && t[2..][j - 2] == t[j];
    } else if t[0] == '+' || t[0] == '-' {
      assert j >= 1 && t[1..][j - 1] == t[j];
    } else {
      assert !IsDigitOf(t[j], 10);
    }
  }

  /** The decimal point case the numeric form fields produce. */
  lemma DecimalFractionRejected(s: string)
    requires exists i :: 0 <= i < |s| && s[i] == '.'
    ensures StringToBigInt(s) == None
  {
    var i :| 0 <= i < |s| && s[i] == '.';
    ForeignCharRejected(s, i);
  }
}
