/**
 * String helpers with the JavaScript meaning the components rely on:
 * ASCII case mapping, `trim`, `includes`, decimal rendering of integers
 * (template literals), `indexOf`, `split` at a character and `join`.
 */
module Text {
  import opened Wrappers

  predicate IsDigit(c: char) { '0' <= c <= '9' }

  predicate IsUpperLetter(c: char) { 'A' <= c <= 'Z' }

  predicate IsLowerLetter(c: char) { 'a' <= c <= 'z' }

  /**
   * The characters `String.prototype.trim` removes: ECMAScript's white space
   * (tab, vertical tab, form feed, space, no-break space, the byte order mark
   * and the other space separators of Unicode category Zs) and its line
   * terminators (line feed, carriage return, U+2028 and U+2029).
   */
  predicate IsSpace(c: char) {
    c == ' ' || c == '\t' || c == '\n' || c == '\r' || c == '\U{0B}' || c == '\U{0C}'
    || c == '\U{A0}' || c == '\U{FEFF}' || c == '\U{1680}' || '\U{2000}' <= c <= '\U{200A}'
    || c == '\U{2028}' || c == '\U{2029}' || c == '\U{202F}' || c == '\U{205F}' || c == '\U{3000}'
  }

  predicate AllDigits(s: string) { forall k :: 0 <= k < |s| ==> IsDigit(s[k]) }

  function LowerChar(c: char): char {
    if IsUpperLetter(c) then (c as int + 32) as char else c
  }

  function UpperChar(c: char): char {
    if IsLowerLetter(c) then (c as int - 32) as char else c
  }

  /** `toLowerCase` on ASCII letters. */
  function Lower(s: string): (r: string)
    ensures |r| == |s|
  {
    seq(|s|, i requires 0 <= i < |s| => LowerChar(s[i]))
  }

  /** `toUpperCase` on ASCII letters. */
  function Upper(s: string): (r: string)
    ensures |r| == |s|
  {
    seq(|s|, i requires 0 <= i < |s| => UpperChar(s[i]))
  }

  /** Lower-casing twice is lower-casing once. */
  lemma LowerIdempotent(s: string)
    ensures Lower(Lower(s)) == Lower(s)
  {
    var l := Lower(s);
    forall k | 0 <= k < |s| ensures Lower(l)[k] == l[k] {
      assert l[k] == LowerChar(s[k]);
    }
  }

  /** Upper-casing twice is upper-casing once. */
  lemma UpperIdempotent(s: string)
    ensures Upper(Upper(s)) == Upper(s)
  {
    var u := Upper(s);
    forall k | 0 <= k < |s| ensures Upper(u)[k] == u[k] {
      assert u[k] == UpperChar(s[k]);
    }
  }

  /** Lower-casing forgets an earlier upper-casing. */
  lemma LowerOfUpper(s: string)
    ensures Lower(Upper(s)) == Lower(s)
  {
    var u := Upper(s);
    forall k | 0 <= k < |s| ensures Lower(u)[k] == Lower(s)[k] {
      assert u[k] == UpperChar(s[k]);
    }
  }

  /** `part` occurs in `s` starting at position `i`. */
  predicate OccursAt(s: string, part: string, i: int) {
    0 <= i && i + |part| <= |s| && s[i..i + |part|] == part
  }

  /** `s.includes(part)`. */
  predicate Contains(s: string, part: string) {
    exists i | 0 <= i <= |s| - |part| :: OccursAt(s, part, i)
  }

  predicate StartsWith(s: string, prefix: string) {
    |prefix| <= |s| && s[..|prefix|] == prefix
  }

  /** Leading white space removed. */
  function TrimStart(s: string): (r: string)
    ensures |r| <= |s| && r == s[|s| - |r|..]
    ensures r == [] || !IsSpace(r[0])
    ensures forall k :: 0 <= k < |s| - |r| ==> IsSpace(s[k])
  {
    if |s| > 0 && IsSpace(s[0]) then TrimStart(s[1..]) else s
  }

  /** Trailing white space removed. */
  function TrimEnd(s: string): (r: string)
    ensures |r| <= |s| && r == s[..|r|]
    ensures r == [] || !IsSpace(r[|r| - 1])
    ensures forall k :: |r| <= k < |s| ==> IsSpace(s[k])
  {
    if |s| > 0 && IsSpace(s[|s| - 1]) then TrimEnd(s[..|s| - 1]) else s
  }

  /** `r` is `s[i..i + |r|]` and everything of `s` around it is white space. */
  predicate IsSpacedSlice(s: string, r: string, i: int) {
    0 <= i <= i + |r| <= |s| && r == s[i..i + |r|]
    && (forall k :: 0 <= k < i ==> IsSpace(s[k]))
    && (forall k :: i + |r| <= k < |s| ==> IsSpace(s[k]))
  }

  /** `s.trim()`: the longest middle part of `s` that neither starts nor ends with white space. */
  function Trim(s: string): (r: string)
    ensures exists i :: IsSpacedSlice(s, r, i)
    ensures r == [] || (!IsSpace(r[0]) && !IsSpace(r[|r| - 1]))
  {
    var a := TrimStart(s);
    var r := TrimEnd(a);
    var i := |s| - |a|;
    assert IsSpacedSlice(s, r, i);
    r
  }

  /** A string of only white space trims to the empty string, which JavaScript treats as false. */
  lemma {:induction false} TrimEmptyIffAllSpace(s: string)
    ensures Trim(s) == [] <==> forall k :: 0 <= k < |s| ==> IsSpace(s[k])
  {
    if forall k :: 0 <= k < |s| ==> IsSpace(s[k]) {
      AllSpaceTrimsStartToEmpty(s);
    }
  }

  lemma {:induction false} AllSpaceTrimsStartToEmpty(s: string)
    requires forall k :: 0 <= k < |s| ==> IsSpace(s[k])
    ensures TrimStart(s) == []
  {
    if |s| > 0 {
      AllSpaceTrimsStartToEmpty(s[1..]);
    }
  }

  function DigitChar(d: int): (c: char)
    requires 0 <= d < 10
    ensures IsDigit(c)
  {
    ('0' as int + d) as char
  }

  function DigitValue(c: char): int { c as int - '0' as int }

  /** Decimal text of a natural number, as JavaScript prints it. */
  function NatToString(n: nat): (r: string)
    ensures |r| >= 1
    decreases n
  {
    if n < 10 then [DigitChar(n)] else NatToString(n / 10) + [DigitChar(n % 10)]
  }

  /** Decimal text of an integer, with a leading '-' when negative. */
  function IntToString(n: int): (r: string)
    ensures |r| >= 1
  {
    if n < 0 then "-" + NatToString(-n) else NatToString(n)
  }

  /**
   * The printed natural number is all digits. (Stated apart from the function,
   * so that texts built from printed numbers stay cheap to reason about.)
   */
  lemma {:induction false} NatToStringDigits(n: nat)
    ensures AllDigits(NatToString(n))
    decreases n
  {
    if n >= 10 {
      NatToStringDigits(n / 10);
    }
  }

  /** The printed integer is all digits, after a '-' when negative. */
  lemma IntToStringDigits(n: int)
    ensures n >= 0 ==> AllDigits(IntToString(n))
    ensures n < 0 ==> IntToString(n)[0] == '-' && AllDigits(IntToString(n)[1..]) && |IntToString(n)| >= 2
  {
    if n < 0 {
      NatToStringDigits(-n);
      assert IntToString(n)[1..] == NatToString(-n);
    } else {
      NatToStringDigits(n);
    }
  }

  /** The value of a string of decimal digits. */
  function ParseNat(s: string): int {
    if s == [] then 0 else ParseNat(s[..|s| - 1]) * 10 + DigitValue(s[|s| - 1])
  }

  /** The value of an optionally signed string of decimal digits. */
  function ParseInt(s: string): int {
    if |s| > 0 && s[0] == '-' then -ParseNat(s[1..]) else ParseNat(s)
  }

  /** A string that IntToString could have produced. */
  predicate IsIntText(s: string) {
    (|s| > 0 && AllDigits(s)) || (|s| > 1 && s[0] == '-' && AllDigits(s[1..]))
  }

  lemma {:induction false} ParseNatOfNatToString(n: nat)
    ensures ParseNat(NatToString(n)) == n
    decreases n
  {
    if n >= 10 {
      var s := NatToString(n);
      assert s[..|s| - 1] == NatToString(n / 10);
      ParseNatOfNatToString(n / 10);
    }
  }

  /** Reading back the printed integer gives the integer. */
  lemma ParseIntOfIntToString(n: int)
    ensures IsIntText(IntToString(n))
    ensures ParseInt(IntToString(n)) == n
  {
    IntToStringDigits(n);
    if n < 0 {
      assert IntToString(n)[1..] == NatToString(-n);
      ParseNatOfNatToString(-n);
    } else {
      ParseNatOfNatToString(n);
    }
  }

  /** The printed integer holds no character outside digits and '-'. */
  lemma IntToStringChars(n: int)
    ensures forall k :: 0 <= k < |IntToString(n)| ==> IsDigit(IntToString(n)[k]) || IntToString(n)[k] == '-'
  {
    var s := IntToString(n);
    IntToStringDigits(n);
    if n < 0 {
      forall k | 1 <= k < |s| ensures IsDigit(s[k]) {
        assert s[k] == s[1..][k - 1];
      }
    }
  }

  /** The printed integer holds no space. */
  lemma NoSpaceInIntText(n: int)
    ensures ' ' !in IntToString(n)
  {
    IntToStringChars(n);
    var s := IntToString(n);
    forall k | 0 <= k < |s| ensures s[k] != ' ' { }
  }

  /** `s.indexOf(c)`: the position of the first `c`, if any. */
  function IndexOf(s: string, c: char): (r: Option<nat>)
    ensures r.None? <==> c !in s
    ensures r.Some? ==> r.value < |s| && s[r.value] == c && c !in s[..r.value]
  {
    if |s| == 0 then None
    else if s[0] == c then Some(0)
    else match IndexOf(s[1..], c)
      case None => None
      case Some(i) =>
        assert s[..i + 1] == [s[0]] + s[1..][..i];
        Some(i + 1)
  }

  /** The first `c` in `a + [c] + b` is the one after `a` when `a` holds none. */
  lemma IndexOfAfterPrefix(a: string, c: char, b: string)
    requires c !in a
    ensures IndexOf(a + [c] + b, c) == Some(|a|)
  {
    var s := a + [c] + b;
    assert s[..|a|] == a;
    assert s[|a|] == c;
  }

  /** `s.split(c)[0]`: the part of `s` before the first `c`. */
  function Before(s: string, c: char): (r: string)
    ensures |r| <= |s| && r == s[..|r|]
    ensures c !in r
    ensures |r| < |s| ==> s[|r|] == c
  {
    match IndexOf(s, c)
    case None => s
    case Some(i) => s[..i]
  }

  /** `parts.join(sep)`. */
  function Join(parts: seq<string>, sep: string): string {
    if |parts| == 0 then ""
    else if |parts| == 1 then parts[0]
    else parts[0] + sep + Join(parts[1..], sep)
  }
}
