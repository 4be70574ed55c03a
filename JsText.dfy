/**
 * The few JavaScript string and number primitives the pages rely on:
 * `String.prototype.trim`, `Number.prototype.toString` on integers and
 * `Number(s)` on decimal integer strings. Strings are sequences of code
 * points here, not UTF-16 code units.
 */
module JsText {
  import opened Wrappers

  // ---------------------------------------------------------------------
  // trim
  // ---------------------------------------------------------------------

  /** The characters `trim` removes: ECMAScript WhiteSpace and LineTerminator. */
  predicate IsWhiteSpace(c: char) {
    var k := c as int;
    k == 0x09 || k == 0x0A || k == 0x0B || k == 0x0C || k == 0x0D ||
    k == 0x20 || k == 0xA0 || k == 0x1680 || (0x2000 <= k <= 0x200A) ||
    k == 0x2028 || k == 0x2029 || k == 0x202F || k == 0x205F ||
    k == 0x3000 || k == 0xFEFF
  }

  /** True when some character of `s` is not white space. */
  ghost predicate HasVisible(s: string) {
    exists i :: 0 <= i < |s| && !IsWhiteSpace(s[i])
  }

  /** `s` without its leading white space: a suffix of `s`. */
  function TrimStart(s: string): (r: string)
    ensures |r| <= |s| && r == s[|s| - |r|..]
    ensures forall i :: 0 <= i < |s| - |r| ==> IsWhiteSpace(s[i])
    ensures r != [] ==> !IsWhiteSpace(r[0])
  {
    if s != [] && IsWhiteSpace(s[0]) then TrimStart(s[1..]) else s
  }

  /** `s` without its trailing white space: a prefix of `s`. */
  function TrimEnd(s: string): (r: string)
    ensures |r| <= |s| && r == s[..|r|]
    ensures forall i :: |r| <= i < |s| ==> IsWhiteSpace(s[i])
    ensures r != [] ==> !IsWhiteSpace(r[|r| - 1])
  {
    if s != [] && IsWhiteSpace(s[|s| - 1]) then TrimEnd(s[..|s| - 1]) else s
  }

  /** `r` is `s[i..j]` and everything of `s` outside it is white space. */
  ghost predicate IsTrimmedPiece(s: string, r: string, i: int, j: int) {
    0 <= i <= j <= |s| && r == s[i..j] &&
    (forall k :: 0 <= k < i ==> IsWhiteSpace(s[k])) &&
    (forall k :: j <= k < |s| ==> IsWhiteSpace(s[k]))
  }

  /** `s.trim()`: empty exactly when `s` is all white space, otherwise
      a piece of `s` that neither starts nor ends with white space. */
  function Trim(s: string): (r: string)
    ensures |r| <= |s|
    ensures exists i, j :: IsTrimmedPiece(s, r, i, j)
    ensures r == [] <==> !HasVisible(s)
    ensures r != [] ==> !IsWhiteSpace(r[0]) && !IsWhiteSpace(r[|r| - 1])
  {
    TrimIsPiece(s);
    TrimVisible(s);
    TrimEnd(TrimStart(s))
  }

  lemma TrimPiece(s: string) returns (i: int, j: int)
    ensures IsTrimmedPiece(s, TrimEnd(TrimStart(s)), i, j)
  {
    var t := TrimStart(s);
    var r := TrimEnd(t);
    i := |s| - |t|;
    j := i + |r|;
    assert r == s[i..j];
    assert forall k :: 0 <= k < i ==> IsWhiteSpace(s[k]);
    forall k | j <= k < |s| ensures IsWhiteSpace(s[k]) {
      assert s[k] == t[k - i];
    }
    assert IsTrimmedPiece(s, r, i, j);
  }

  lemma TrimIsPiece(s: string)
    ensures exists i, j :: IsTrimmedPiece(s, TrimEnd(TrimStart(s)), i, j)
  {
    var i, j := TrimPiece(s);
  }

  lemma TrimVisible(s: string)
    ensures TrimEnd(TrimStart(s)) == [] <==> !HasVisible(s)
  {
    var t := TrimStart(s);
    if TrimEnd(t) != [] {
      assert t[0] == s[|s| - |t|];
    }
  }

  /** `!s.trim()`: the empty string is the only falsy string, so a text is
      blank exactly when it holds no visible character. */
  predicate IsBlank(s: string): (b: bool)
    ensures b <==> !HasVisible(s)
  {
    Trim(s) == ""
  }

  // ---------------------------------------------------------------------
  // integers as decimal strings
  // ---------------------------------------------------------------------

  predicate IsDigit(c: char) {
    '0' <= c <= '9'
  }

  predicate AllDigits(s: string) {
    forall i :: 0 <= i < |s| ==> IsDigit(s[i])
  }

  function DigitValue(c: char): (d: nat)
    requires IsDigit(c)
    ensures d < 10
  {
    (c as int) - ('0' as int)
  }

  function Digit(d: nat): (c: char)
    requires d < 10
    ensures IsDigit(c) && DigitValue(c) == d
  {
    ((('0' as int) + d) as char)
  }

  /** The decimal numeral of `n`, without leading zeros. */
  function NatToString(n: nat): (r: string)
    ensures r != [] && AllDigits(r)
    ensures r[0] == '0' <==> n == 0
    ensures n == 0 ==> r == "0"
  {
    if n < 10 then [Digit(n)] else NatToString(n / 10) + [Digit(n % 10)]
  }

  /** `n.toString()` for an integral number of magnitude below 2^53, which
      JavaScript prints as a plain decimal numeral. */
  function IntToString(n: int): (r: string)
    ensures r != []
    ensures r[0] == '-' <==> n < 0
  {
    if n < 0 then "-" + NatToString(-n) else NatToString(n)
  }

  /** The value of a string of decimal digits, most significant first. */
  function ParseDigits(s: string): (n: nat)
    requires AllDigits(s)
    ensures s != [] && s[0] != '0' ==> n > 0
  {
    if s == [] then 0 else ParseDigits(s[..|s| - 1]) * 10 + DigitValue(s[|s| - 1])
  }

  /** `Number(s)` on a decimal integer numeral: an optional minus sign and
      one or more digits (leading zeros allowed). `None` stands for every
      other string, which this model does not convert. */
  predicate IsDecimalNumeral(s: string) {
    (|s| >= 1 && AllDigits(s)) || (|s| >= 2 && s[0] == '-' && AllDigits(s[1..]))
  }

  /** A numeral as `toString` prints it: no leading zero and no `-0`. */
  predicate IsCanonicalNumeral(s: string) {
    (|s| >= 1 && AllDigits(s) && (s[0] == '0' ==> |s| == 1)) ||
    (|s| >= 2 && s[0] == '-' && AllDigits(s[1..]) && s[1] != '0')
  }

  function ParseId(s: string): (r: Option<int>)
    ensures r.Some? <==> IsDecimalNumeral(s)
    ensures r.Some? ==> (r.value < 0 ==> s[0] == '-')
    ensures r.Some? && s[0] != '-' ==> r.value >= 0
  {
    if |s| >= 2 && s[0] == '-' && AllDigits(s[1..]) then Some(0 - ParseDigits(s[1..]) as int)
    else if |s| >= 1 && AllDigits(s) then Some(ParseDigits(s))
    else None
  }

  lemma {:induction false} ParseNatToString(n: nat)
    ensures ParseDigits(NatToString(n)) == n
  {
    if n >= 10 {
      var s := NatToString(n / 10);
      ParseNatToString(n / 10);
      assert (s + [Digit(n % 10)])[..|s|] == s;
    }
  }

  /** `Number(n.toString()) == n`: the route built from an id parses back to it. */
  lemma {:induction false} ParseIdOfIntToString(n: int)
    ensures ParseId(IntToString(n)) == Some(n)
  {
    if n < 0 {
      var s := IntToString(n);
      assert s[1..] == NatToString(-n);
      ParseNatToString(-n);
    } else {
      ParseNatToString(n);
    }
  }

  lemma {:induction false} NatToStringOfParseDigits(s: string)
    requires |s| >= 1 && AllDigits(s) && (s[0] == '0' ==> |s| == 1)
    ensures NatToString(ParseDigits(s)) == s
  {
    var p, c := s[..|s| - 1], s[|s| - 1];
    assert Digit(DigitValue(c)) == c;
    if |s| > 1 {
      assert p[0] == s[0];
      NatToStringOfParseDigits(p);
      var n := ParseDigits(s);
      assert n / 10 == ParseDigits(p) && n % 10 == DigitValue(c);
      assert s == p + [c];
    }
  }

  /** `Number(s).toString() == s` for a numeral written as `toString` would
      write it: on those strings conversion and printing are inverse. */
  lemma {:induction false} IntToStringOfParseId(s: string)
    requires IsCanonicalNumeral(s)
    ensures ParseId(s).Some? && IntToString(ParseId(s).value) == s
  {
    if s[0] == '-' {
      NatToStringOfParseDigits(s[1..]);
      assert s == "-" + s[1..];
    } else {
      NatToStringOfParseDigits(s);
    }
  }

  /** Distinct ids have distinct string forms. */
  lemma {:induction false} IntToStringInjective(a: int, b: int)
    ensures IntToString(a) == IntToString(b) <==> a == b
  {
    ParseIdOfIntToString(a);
    ParseIdOfIntToString(b);
  }
}
