/**
 * The string primitives the command interpreter is built from: JavaScript's `\s` and
 * `\d` classes, `toLowerCase`, `trim`, `includes`, `parseInt` applied to a string of
 * decimal digits, and the decimal rendering of a number inside a template string.
 */
module Text {

  /** JavaScript's `\s`; `String.prototype.trim` removes exactly these characters. */
  predicate IsBlank(c: char) {
    || c == ' ' || c == '\t' || c == '\n' || c == '\r'
    || c == '\U{000B}' || c == '\U{000C}' || c == '\U{00A0}' || c == '\U{1680}'
    || ('\U{2000}' <= c <= '\U{200A}')
    || c == '\U{2028}' || c == '\U{2029}' || c == '\U{202F}' || c == '\U{205F}'
    || c == '\U{3000}' || c == '\U{FEFF}'
  }

  /** JavaScript's `\d`. */
  predicate IsDigit(c: char) {
    '0' <= c <= '9'
  }

  /** The class `[a-zA-Z &]` that the property-name patterns capture. */
  predicate IsNameChar(c: char) {
    ('a' <= c <= 'z') || ('A' <= c <= 'Z') || c == ' ' || c == '&'
  }

  datatype CharClass = Blank | Digit | NameChar

  predicate InClass(c: char, cls: CharClass) {
    match cls
    case Blank => IsBlank(c)
    case Digit => IsDigit(c)
    case NameChar => IsNameChar(c)
  }

  /** Where the longest run of `cls` characters that starts at `i` ends. */
  function RunEnd(s: string, i: nat, cls: CharClass): (k: nat)
    requires i <= |s|
    ensures i <= k <= |s|
    ensures forall j :: i <= j < k ==> InClass(s[j], cls)
    ensures k == |s| || !InClass(s[k], cls)
    decreases |s| - i
  {
    if i < |s| && InClass(s[i], cls) then RunEnd(s, i + 1, cls) else i
  }

  // ---------------------------------------------------------------- lower case

  /** `toLowerCase` on one character; only ASCII letters are mapped. */
  function LowerChar(c: char): (r: char)
    ensures !('A' <= r <= 'Z')
    ensures 'A' <= c <= 'Z' || r == c
    ensures IsNameChar(r) <==> IsNameChar(c)
    ensures IsBlank(r) <==> IsBlank(c)
    ensures IsDigit(r) <==> IsDigit(c)
  {
    if 'A' <= c <= 'Z' then (c as int + 32) as char else c
  }

  function Lower(s: string): (r: string)
    ensures |r| == |s|
    ensures forall i :: 0 <= i < |r| ==> !('A' <= r[i] <= 'Z')
    ensures forall i :: 0 <= i < |s| && !('A' <= s[i] <= 'Z') ==> r[i] == s[i]
  {
    seq(|s|, i requires 0 <= i < |s| => LowerChar(s[i]))
  }

  lemma LowerConcat(a: string, b: string)
    ensures Lower(a + b) == Lower(a) + Lower(b)
  {
    assert forall i :: 0 <= i < |a + b| ==> Lower(a + b)[i] == (Lower(a) + Lower(b))[i];
  }

  lemma LowerIdempotent(s: string)
    ensures Lower(Lower(s)) == Lower(s)
  {
  }

  /** A string without upper-case ASCII letters is its own lower case. */
  lemma LowerOfLower(s: string)
    requires forall i :: 0 <= i < |s| ==> !('A' <= s[i] <= 'Z')
    ensures Lower(s) == s
  {
  }

  // ---------------------------------------------------------------- trim

  function TrimEnd(s: string, i: nat, j: nat): (r: nat)
    requires i <= j <= |s|
    ensures i <= r <= j
    ensures forall k :: r <= k < j ==> IsBlank(s[k])
    ensures r == i || !IsBlank(s[r - 1])
    decreases j
  {
    if i < j && IsBlank(s[j - 1]) then TrimEnd(s, i, j - 1) else j
  }

  /** `trim`: the string without its leading and trailing blanks. */
  function Trim(s: string): (r: string)
    ensures |r| <= |s|
    ensures r == [] || (!IsBlank(r[0]) && !IsBlank(r[|r| - 1]))
    ensures forall c :: c in r ==> c in s
    ensures s == [] || (!IsBlank(s[0]) && !IsBlank(s[|s| - 1])) ==> r == s
    ensures (forall k :: 0 <= k < |s| ==> IsBlank(s[k])) ==> r == []
  {
    var i := RunEnd(s, 0, Blank);
    var j := TrimEnd(s, i, |s|);
    assert forall c :: c in s[i..j] ==> c in s by {
      forall c | c in s[i..j] ensures c in s {
        var k :| 0 <= k < j - i && s[i..j][k] == c;
        assert s[i + k] == c;
      }
    }
    s[i..j]
  }

  // ---------------------------------------------------------------- includes

  /** `w` occurs in `s` at index `i`. */
  predicate MatchesAt(s: string, i: nat, w: string) {
    i + |w| <= |s| && s[i..i + |w|] == w
  }

  /** `s.includes(w)`. */
  predicate Contains(s: string, w: string) {
    exists i :: 0 <= i <= |s| && MatchesAt(s, i, w)
  }

  /** Character-by-character scan, evaluated by the verifier on short literals. */
  function Occurs(s: string, w: string, i: nat, k: nat): bool
    decreases |w| - k
  {
    k >= |w| || (i + k < |s| && s[i + k] == w[k] && Occurs(s, w, i, k + 1))
  }

  function OccursFrom(s: string, w: string, i: nat): bool
    decreases |s| - i
  {
    i + |w| <= |s| && (Occurs(s, w, i, 0) || OccursFrom(s, w, i + 1))
  }

  lemma {:induction false} OccursIsMatch(s: string, w: string, i: nat, k: nat)
    requires k <= |w|
    requires i + k <= |s| && s[i..i + k] == w[..k]
    ensures Occurs(s, w, i, k) <==> MatchesAt(s, i, w)
    decreases |w| - k
  {
    if k < |w| {
      if i + k < |s| && s[i + k] == w[k] {
        assert s[i..i + k + 1] == w[..k + 1] by {
          assert s[i..i + k + 1] == s[i..i + k] + [s[i + k]];
          assert w[..k + 1] == w[..k] + [w[k]];
        }
        OccursIsMatch(s, w, i, k + 1);
      } else if i + |w| <= |s| {
        assert s[i..i + |w|][k] == s[i + k];
      }
    } else {
      assert w[..k] == w;
    }
  }

  lemma {:induction false} OccursFromIsContains(s: string, w: string, i: nat)
    ensures OccursFrom(s, w, i) <==> exists j :: i <= j <= |s| && MatchesAt(s, j, w)
    decreases |s| - i
  {
    if i + |w| <= |s| {
      OccursIsMatch(s, w, i, 0);
      OccursFromIsContains(s, w, i + 1);
      if exists j :: i <= j <= |s| && MatchesAt(s, j, w) {
        var j :| i <= j <= |s| && MatchesAt(s, j, w);
        assert j == i || (i + 1 <= j <= |s| && MatchesAt(s, j, w));
      }
    }
  }

  /** The scan decides `includes`. */
  lemma ContainsByScan(s: string, w: string)
    ensures Contains(s, w) <==> OccursFrom(s, w, 0)
  {
    OccursFromIsContains(s, w, 0);
  }

  /** A word without blanks that occurs in `a + " " + b` occurs in `a` or in `b`. */
  lemma {:induction false} ContainsJoin(a: string, b: string, w: string)
    requires ' ' !in w
    ensures Contains(a + " " + b, w) ==> Contains(a, w) || Contains(b, w)
  {
    var s := a + " " + b;
    if Contains(s, w) {
      var i :| 0 <= i <= |s| && MatchesAt(s, i, w);
      assert forall k :: i <= k < i + |w| ==> s[k] == w[k - i] by {
        forall k | i <= k < i + |w| ensures s[k] == w[k - i] {
          assert s[i..i + |w|][k - i] == s[k];
        }
      }
      assert s[|a|] == ' ';
      if i + |w| <= |a| {
        assert s[i..i + |w|] == a[i..i + |w|];
        assert MatchesAt(a, i, w);
      } else {
        assert s[i..i + |w|] == b[i - |a| - 1..i - |a| - 1 + |w|];
        assert MatchesAt(b, i - |a| - 1, w);
      }
    }
  }

  /** A word that starts with a non-digit does not occur in a string of digits. */
  lemma NotInDigits(s: string, w: string)
    requires IsDigits(s) && w != [] && !IsDigit(w[0])
    ensures !Contains(s, w)
  {
    forall i | 0 <= i <= |s| ensures !MatchesAt(s, i, w) {
      if i + |w| <= |s| {
        assert s[i..i + |w|][0] == s[i];
      }
    }
  }

  // ---------------------------------------------------------------- numbers

  predicate IsDigits(s: string) {
    forall i :: 0 <= i < |s| ==> IsDigit(s[i])
  }

  /** A decimal numeral as JavaScript prints it: no leading zero unless it is `0`. */
  predicate IsNumeral(s: string) {
    s != [] && IsDigits(s) && (|s| > 1 ==> s[0] != '0')
  }

  /** `parseInt` of a string of decimal digits. */
  function DigitsValue(s: string): nat
    requires IsDigits(s)
    decreases |s|
  {
    if s == [] then 0 else DigitsValue(s[..|s| - 1]) * 10 + (s[|s| - 1] as int - '0' as int)
  }

  function DigitChar(d: nat): (c: char)
    requires d < 10
    ensures IsDigit(c) && c as int - '0' as int == d
  {
    ('0' as int + d) as char
  }

  /** A number rendered by a template string. */
  function NatToString(n: nat): (r: string)
    ensures IsNumeral(r)
    decreases n
  {
    if n < 10 then [DigitChar(n)] else NatToString(n / 10) + [DigitChar(n % 10)]
  }

  lemma {:induction false} NatToStringRoundTrip(n: nat)
    ensures DigitsValue(NatToString(n)) == n
    decreases n
  {
    if n >= 10 {
      var r := NatToString(n);
      assert r[..|r| - 1] == NatToString(n / 10);
      NatToStringRoundTrip(n / 10);
    }
  }

  lemma {:induction false} NumeralPositive(s: string)
    requires IsNumeral(s) && |s| > 1
    ensures DigitsValue(s) >= 10
    decreases |s|
  {
    var t := s[..|s| - 1];
    if |t| > 1 {
      assert t[0] == s[0];
      NumeralPositive(t);
    } else {
      assert t == [s[0]];
      assert DigitsValue(t) == s[0] as int - '0' as int;
    }
  }

  lemma {:induction false} DigitsRoundTrip(s: string)
    requires IsNumeral(s)
    ensures NatToString(DigitsValue(s)) == s
    decreases |s|
  {
    if |s| > 1 {
      var t := s[..|s| - 1];
      var d := s[|s| - 1] as int - '0' as int;
      NumeralPositive(s);
      if |t| > 1 {
        assert t[0] == s[0];
        NumeralPositive(t);
      }
      assert IsNumeral(t);
      var v := DigitsValue(t);
      assert DigitsValue(s) == v * 10 + d;
      assert (v * 10 + d) / 10 == v && (v * 10 + d) % 10 == d;
      DigitsRoundTrip(t);
      assert s == t + [s[|s| - 1]];
    } else {
      assert DigitsValue(s) == DigitsValue([]) * 10 + (s[0] as int - '0' as int);
    }
  }
}
