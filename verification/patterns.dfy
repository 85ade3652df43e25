/**
 * The regular expressions of the command interpreter, as scanners.
 *
 * Most of them have the shape "keyword, optional blanks, digits": a sequence of literal
 * words, `\s*` runs and one `(\d+)` group. For those the engine's match is computed by
 * taking every class run whole (`MatchAt`), and `Spans` is the plain reading of the
 * pattern (some split of the text fits the pieces); `MatchAtComplete` shows the two agree
 * whenever a run is never followed by a piece that could start with the run's own class,
 * which holds for every pattern the interpreter uses.
 *
 * The property-name pattern `kw\s+([a-zA-Z &]+)(?:$|\s)` is different: a space belongs to
 * both `\s` and the group's class, so the engine backtracks. `NameMatchAt` tries the blank
 * run from longest to shortest and, for each, the group from longest to shortest, as the
 * engine does; its contract says the result is the engine's preferred split among all
 * splits that fit (`NameSpans`).
 *
 * `String.prototype.match` without the `g` flag reports the leftmost match; `Find` and
 * `FindName` scan start positions from 0 upwards, the end of the text included.
 */
module Patterns {
  import opened Wrappers
  import opened Text

  /** A piece of a pattern: a literal lower-case word, `\s*`, or the group `(\d+)`. */
  datatype Piece = Word(text: string) | Blanks | Number

  type Pattern = seq<Piece>

  /** Every character of s[i..k] is in the class. */
  predicate AllIn(s: string, i: nat, k: nat, cls: CharClass)
    requires i <= k <= |s|
  {
    forall j :: i <= j < k ==> InClass(s[j], cls)
  }

  // ---------------------------------------------------------------- digit patterns

  /** The pattern matches exactly s[i..j] for some way of splitting the text among its pieces. */
  predicate Spans(s: string, i: nat, pat: Pattern, j: nat)
    decreases |pat|
  {
    && i <= j <= |s|
    && if pat == [] then i == j
       else match pat[0]
         case Word(w) => MatchesAt(s, i, w) && Spans(s, i + |w|, pat[1..], j)
         case Blanks => exists k :: i <= k <= j && AllIn(s, i, k, Blank) && Spans(s, k, pat[1..], j)
         case Number => exists k :: i < k <= j && AllIn(s, i, k, Digit) && Spans(s, k, pat[1..], j)
  }

  /** The digits of a group: non-empty, all digits, and not extendable to the right. */
  predicate WholeNumberAt(s: string, p: nat, t: string) {
    && t != [] && IsDigits(t)
    && MatchesAt(s, p, t)
    && (p + |t| == |s| || !IsDigit(s[p + |t|]))
  }

  /**
   * The engine's match at `i`: the end of the match and the text of the `(\d+)` group
   * (empty when the pattern has none).
   */
  function MatchAt(s: string, i: nat, pat: Pattern): (r: Option<(nat, string)>)
    requires i <= |s|
    ensures r.Some? ==> Spans(s, i, pat, r.value.0)
    ensures r.Some? && Number in pat ==> exists p :: i <= p && WholeNumberAt(s, p, r.value.1)
    decreases |pat|
  {
    if pat == [] then Some((i, ""))
    else match pat[0]
      case Word(w) =>
        if MatchesAt(s, i, w) then
          var r := MatchAt(s, i + |w|, pat[1..]);
          assert Number in pat ==> Number in pat[1..];
          r
        else None
      case Blanks =>
        var k := RunEnd(s, i, Blank);
        var r := MatchAt(s, k, pat[1..]);
        assert r.Some? ==> Spans(s, k, pat[1..], r.value.0);
        assert Number in pat ==> Number in pat[1..];
        r
      case Number =>
        var k := RunEnd(s, i, Digit);
        if k == i then None
        else
          var r := MatchAt(s, k, pat[1..]);
          if r.None? then None
          else
            GroupIsWhole(s, i, k);
            Some((r.value.0, s[i..k]))
  }

  /** The longest non-empty run of digits at `i` is a whole number. */
  lemma GroupIsWhole(s: string, i: nat, k: nat)
    requires i <= |s| && i < k == RunEnd(s, i, Digit)
    ensures WholeNumberAt(s, i, s[i..k]) && AllIn(s, i, k, Digit)
  {
  }

  /** A match of `pat` can begin with `c`. */
  predicate MayStart(pat: Pattern, c: char)
    decreases |pat|
  {
    pat != [] &&
    match pat[0]
    case Word(w) => if w == [] then MayStart(pat[1..], c) else w[0] == c
    case Blanks => IsBlank(c) || MayStart(pat[1..], c)
    case Number => IsDigit(c)
  }

  /** What can follow a run never begins with the run's own class. */
  predicate Separated(pat: Pattern)
    decreases |pat|
  {
    pat != [] ==>
      && (pat[0] == Blanks ==> forall c :: MayStart(pat[1..], c) ==> !InClass(c, Blank))
      && (pat[0] == Number ==> forall c :: MayStart(pat[1..], c) ==> !InClass(c, Digit))
      && Separated(pat[1..])
  }

  /** A non-empty match starts with a character the pattern may start with. */
  lemma {:induction false} SpansStart(s: string, i: nat, pat: Pattern, j: nat)
    requires Spans(s, i, pat, j) && i < j
    ensures MayStart(pat, s[i])
    decreases |pat|
  {
    match pat[0]
    case Word(w) =>
      if w == [] {
        SpansStart(s, i, pat[1..], j);
      } else {
        assert s[i..i + |w|][0] == s[i];
      }
    case Blanks =>
      var k :| i <= k <= j && AllIn(s, i, k, Blank) && Spans(s, k, pat[1..], j);
      if k == i {
        SpansStart(s, i, pat[1..], j);
      }
    case Number =>
  }

  /** A pattern that can match the empty text at one place can do so anywhere. */
  lemma {:induction false} EmptySpansAnywhere(s: string, i: nat, pat: Pattern, m: nat)
    requires Spans(s, i, pat, i) && m <= |s|
    ensures Spans(s, m, pat, m)
    decreases |pat|
  {
    if pat != [] {
      match pat[0]
      case Word(w) =>
        EmptySpansAnywhere(s, i, pat[1..], m);
      case Blanks =>
        EmptySpansAnywhere(s, i, pat[1..], m);
        assert AllIn(s, m, m, Blank);
      case Number =>
    }
  }

  /**
   * A run piece whose successor never starts with the run's class: if some run fits, the
   * rest also fits after the longest run.
   */
  lemma LongestRunFits(s: string, i: nat, k: nat, rest: Pattern, j: nat, cls: CharClass)
    requires i <= k <= |s| && AllIn(s, i, k, cls) && Spans(s, k, rest, j)
    requires forall c :: MayStart(rest, c) ==> !InClass(c, cls)
    ensures exists j' :: Spans(s, RunEnd(s, i, cls), rest, j')
  {
    RunTail(s, i, k, cls);
    var e := RunEnd(s, i, cls);
    if k == e {
      assert Spans(s, e, rest, j);
    } else if k < j {
      SpansStart(s, k, rest, j);
      assert false;
    } else {
      EmptySpansAnywhere(s, k, rest, e);
      assert Spans(s, e, rest, e);
    }
  }

  /** For a separated pattern, if any split fits at `i`, the engine finds a match at `i`. */
  lemma {:induction false} MatchAtComplete(s: string, i: nat, pat: Pattern, j: nat)
    requires Separated(pat) && Spans(s, i, pat, j)
    ensures MatchAt(s, i, pat).Some?
    decreases |pat|, 1
  {
    if pat != [] {
      match pat[0]
      case Word(_) =>
        WordComplete(s, i, pat, j);
      case Blanks =>
        BlanksComplete(s, i, pat, j);
      case Number =>
        NumberComplete(s, i, pat, j);
    }
  }

  /** The word step of `MatchAtComplete`: the rest fits right after the word. */
  lemma {:induction false} WordComplete(s: string, i: nat, pat: Pattern, j: nat)
    requires pat != [] && pat[0].Word? && Separated(pat[1..]) && Spans(s, i, pat, j)
    ensures MatchAt(s, i, pat).Some?
    decreases |pat|, 0
  {
    var w, rest := pat[0].text, pat[1..];
    assert MatchesAt(s, i, w) && Spans(s, i + |w|, rest, j);
    MatchAtComplete(s, i + |w|, rest, j);
    WordFound(s, i, w, rest, pat);
  }

  /** The `\s*` step of `MatchAtComplete`: the rest fits after the longest run of blanks. */
  lemma {:induction false} BlanksComplete(s: string, i: nat, pat: Pattern, j: nat)
    requires pat != [] && pat[0] == Blanks && Separated(pat[1..]) && Spans(s, i, pat, j)
    requires forall c :: MayStart(pat[1..], c) ==> !InClass(c, Blank)
    ensures MatchAt(s, i, pat).Some?
    decreases |pat|, 0
  {
    var k :| i <= k <= j && AllIn(s, i, k, Blank) && Spans(s, k, pat[1..], j);
    LongestRunFits(s, i, k, pat[1..], j, Blank);
    var e := RunEnd(s, i, Blank);
    var j' :| Spans(s, e, pat[1..], j');
    MatchAtComplete(s, e, pat[1..], j');
    BlanksFound(s, i, pat);
  }

  /** The `(\d+)` step of `MatchAtComplete`: the rest fits after the longest run of digits. */
  lemma {:induction false} NumberComplete(s: string, i: nat, pat: Pattern, j: nat)
    requires pat != [] && pat[0] == Number && Separated(pat[1..]) && Spans(s, i, pat, j)
    requires forall c :: MayStart(pat[1..], c) ==> !InClass(c, Digit)
    ensures MatchAt(s, i, pat).Some?
    decreases |pat|, 0
  {
    var k :| i < k <= j && AllIn(s, i, k, Digit) && Spans(s, k, pat[1..], j);
    LongestRunFits(s, i, k, pat[1..], j, Digit);
    RunTail(s, i, k, Digit);
    var e := RunEnd(s, i, Digit);
    var j' :| Spans(s, e, pat[1..], j');
    MatchAtComplete(s, e, pat[1..], j');
    NumberFound(s, i, pat);
  }

  /** One step of the engine: a word that is present, then the rest matches. */
  lemma WordFound(s: string, i: nat, w: string, rest: Pattern, pat: Pattern)
    requires i <= |s| && pat != [] && pat[0] == Word(w) && pat[1..] == rest && MatchesAt(s, i, w)
    requires MatchAt(s, i + |w|, rest).Some?
    ensures MatchAt(s, i, pat).Some?
  {
  }

  /** One step of the engine: the longest run of blanks, then the rest matches. */
  lemma BlanksFound(s: string, i: nat, pat: Pattern)
    requires i <= |s| && pat != [] && pat[0] == Blanks
    requires MatchAt(s, RunEnd(s, i, Blank), pat[1..]).Some?
    ensures MatchAt(s, i, pat).Some?
  {
  }

  /** One step of the engine: the longest non-empty run of digits, then the rest matches. */
  lemma NumberFound(s: string, i: nat, pat: Pattern)
    requires i <= |s| && pat != [] && pat[0] == Number
    requires RunEnd(s, i, Digit) != i && MatchAt(s, RunEnd(s, i, Digit), pat[1..]).Some?
    ensures MatchAt(s, i, pat).Some?
  {
  }

  /** A run of the class starting at `i` ends no later than the longest one. */
  lemma RunTail(s: string, i: nat, k: nat, cls: CharClass)
    requires i <= k <= |s| && AllIn(s, i, k, cls)
    ensures k <= RunEnd(s, i, cls)
    ensures k < RunEnd(s, i, cls) ==> InClass(s[k], cls)
  {
  }

  /** The leftmost start at or after `from` where the engine matches, with the group's text. */
  function FindFrom(s: string, pat: Pattern, from: nat): (r: Option<(nat, string)>)
    requires from <= |s|
    ensures r.Some? ==> from <= r.value.0 <= |s| && MatchAt(s, r.value.0, pat).Some?
                        && MatchAt(s, r.value.0, pat).value.1 == r.value.1
    ensures r.Some? ==> forall p :: from <= p < r.value.0 ==> MatchAt(s, p, pat).None?
    ensures r.None? ==> forall p :: from <= p <= |s| ==> MatchAt(s, p, pat).None?
    decreases |s| - from
  {
    var m := MatchAt(s, from, pat);
    if m.Some? then Some((from, m.value.1))
    else if from == |s| then None
    else FindFrom(s, pat, from + 1)
  }

  /** `s.match(re)`, reduced to the text of the group of the leftmost match. */
  function Find(s: string, pat: Pattern): (r: Option<string>)
    ensures r.Some? <==> exists p :: 0 <= p <= |s| && MatchAt(s, p, pat).Some?
    ensures r.Some? && Number in pat ==> r.value != [] && IsDigits(r.value)
  {
    match FindFrom(s, pat, 0)
    case Some((p, t)) =>
      assert MatchAt(s, p, pat).Some?;
      assert Number in pat ==> exists q :: WholeNumberAt(s, q, t);
      Some(t)
    case None => None
  }

  /**
   * `Find` agrees with the plain reading of the pattern: it fails exactly when no split of
   * any part of the text fits, and otherwise reports the group of the leftmost match,
   * which is a whole run of digits.
   */
  lemma FindMeaning(s: string, pat: Pattern)
    requires Separated(pat) && Number in pat
    ensures Find(s, pat).None? <==> forall p, j :: 0 <= p <= j <= |s| ==> !Spans(s, p, pat, j)
    ensures Find(s, pat).Some? ==> exists p :: WholeNumberAt(s, p, Find(s, pat).value)
  {
    if Find(s, pat).None? {
      forall p, j | 0 <= p <= j <= |s| ensures !Spans(s, p, pat, j) {
        if Spans(s, p, pat, j) {
          MatchAtComplete(s, p, pat, j);
        }
      }
    } else {
      var (p, t) := FindFrom(s, pat, 0).value;
      var e := MatchAt(s, p, pat).value.0;
      assert Spans(s, p, pat, e);
    }
  }

  /** When the engine matches at `q` and nowhere before, `Find` reports the match at `q`. */
  lemma FindAt(s: string, pat: Pattern, q: nat)
    requires q <= |s| && MatchAt(s, q, pat).Some?
    requires forall p :: 0 <= p < q ==> MatchAt(s, p, pat).None?
    ensures Find(s, pat) == Some(MatchAt(s, q, pat).value.1)
  {
    var r := FindFrom(s, pat, 0);
    assert r.Some?;
    assert !(r.value.0 < q) && !(q < r.value.0);
  }

  // ---------------------------------------------------------------- name pattern

  /** `$|\s` holds at `b`. */
  predicate Boundary(s: string, b: nat) {
    b == |s| || (b < |s| && IsBlank(s[b]))
  }

  /**
   * `kw\s+([a-zA-Z &]+)(?:$|\s)` fits at `i` with blanks s[i+|kw|..a] and the group
   * s[a..b].
   */
  predicate NameSpans(s: string, i: nat, kw: string, a: nat, b: nat) {
    && MatchesAt(s, i, kw) && i + |kw| < a < b <= |s|
    && AllIn(s, i + |kw|, a, Blank) && AllIn(s, a, b, NameChar)
    && Boundary(s, b)
  }

  /** The engine's order of preference: a longer blank run first, then a longer group. */
  predicate Prefers(a: nat, b: nat, a': nat, b': nat) {
    a' < a || (a' == a && b' <= b)
  }

  /** The group's end for a group starting at `a`: tried from `b` downwards, as the engine does. */
  function NameEnd(s: string, a: nat, b: nat): (r: Option<nat>)
    requires a <= b <= |s|
    ensures r.Some? ==> a < r.value <= b && Boundary(s, r.value)
    ensures r.Some? ==> forall b' :: r.value < b' <= b ==> !Boundary(s, b')
    ensures r.None? ==> forall b' :: a < b' <= b ==> !Boundary(s, b')
    decreases b
  {
    if b == a then None
    else if Boundary(s, b) then Some(b)
    else NameEnd(s, a, b - 1)
  }

  /** The group's start: tried from `a` (after the longest blank run) downwards to `lo + 1`. */
  function NameGroup(s: string, lo: nat, a: nat): (r: Option<(nat, nat)>)
    requires lo <= a <= |s|
    ensures r.Some? ==> lo < r.value.0 <= a && r.value.0 < r.value.1 <= |s|
    ensures r.Some? ==> AllIn(s, r.value.0, r.value.1, NameChar) && Boundary(s, r.value.1)
    decreases a
  {
    if a == lo then None
    else
      var e := RunEnd(s, a, NameChar);
      match NameEnd(s, a, e)
      case Some(b) => Some((a, b))
      case None => NameGroup(s, lo, a - 1)
  }

  /** Every split the pattern allows at a start no later than `a` loses to `NameGroup`'s. */
  lemma {:induction false} NameGroupPreferred(s: string, lo: nat, a: nat, a': nat, b': nat)
    requires lo <= a <= |s|
    requires lo < a' <= a && a' < b' <= |s| && AllIn(s, a', b', NameChar) && Boundary(s, b')
    ensures NameGroup(s, lo, a).Some?
    ensures Prefers(NameGroup(s, lo, a).value.0, NameGroup(s, lo, a).value.1, a', b')
    decreases a
  {
    var e := RunEnd(s, a, NameChar);
    if a' == a {
      RunTail(s, a, b', NameChar);
    } else if NameEnd(s, a, e).None? {
      NameGroupPreferred(s, lo, a - 1, a', b');
    }
  }

  /** The engine's split at `i`, if the pattern matches there. */
  function NameMatchAt(s: string, i: nat, kw: string): (r: Option<(nat, nat)>)
    requires i <= |s|
    ensures r.Some? ==> NameSpans(s, i, kw, r.value.0, r.value.1)
    ensures forall a: nat, b: nat :: NameSpans(s, i, kw, a, b) ==>
              r.Some? && Prefers(r.value.0, r.value.1, a, b)
  {
    if !MatchesAt(s, i, kw) then None
    else
      var lo := i + |kw|;
      var e := RunEnd(s, lo, Blank);
      var r := NameGroup(s, lo, e);
      assert r.Some? ==> AllIn(s, lo, r.value.0, Blank);
      assert forall a: nat, b: nat :: NameSpans(s, i, kw, a, b) ==> r.Some? && Prefers(r.value.0, r.value.1, a, b) by {
        forall a, b | NameSpans(s, i, kw, a, b) ensures r.Some? && Prefers(r.value.0, r.value.1, a, b) {
          RunTail(s, lo, a, Blank);
          NameGroupPreferred(s, lo, e, a, b);
        }
      }
      r
  }

  /** The leftmost start at or after `from` where the name pattern fits, with the engine's split. */
  function FindNameFrom(s: string, kw: string, from: nat): (r: Option<(nat, nat, nat)>)
    requires from <= |s|
    ensures r.Some? ==> from <= r.value.0 && NameSpans(s, r.value.0, kw, r.value.1, r.value.2)
    ensures r.Some? ==> forall a: nat, b: nat :: NameSpans(s, r.value.0, kw, a, b) ==>
                          Prefers(r.value.1, r.value.2, a, b)
    ensures r.Some? ==> forall p: nat, a: nat, b: nat :: from <= p < r.value.0 ==> !NameSpans(s, p, kw, a, b)
    ensures r.None? ==> forall p: nat, a: nat, b: nat :: from <= p ==> !NameSpans(s, p, kw, a, b)
    decreases |s| - from
  {
    match NameMatchAt(s, from, kw)
    case Some((a, b)) => Some((from, a, b))
    case None => if from == |s| then None else FindNameFrom(s, kw, from + 1)
  }

  /**
   * `s.match(/kw\s+([a-zA-Z &]+)(?:$|\s)/)`, reduced to the group of the leftmost match:
   * among the splits that fit at the leftmost start, the one with the longest blank run
   * and then the longest group.
   */
  function FindName(s: string, kw: string): (r: Option<string>)
    ensures r.Some? ==> r.value != [] && forall c :: c in r.value ==> IsNameChar(c)
  {
    match FindNameFrom(s, kw, 0)
    case Some((_, a, b)) =>
      assert forall c :: c in s[a..b] ==> IsNameChar(c) by {
        forall c | c in s[a..b] ensures IsNameChar(c) {
          var k :| 0 <= k < b - a && s[a..b][k] == c;
          assert s[a + k] == c;
        }
      }
      Some(s[a..b])
    case None => None
  }

  /**
   * `FindName` fails exactly when the pattern fits nowhere, and otherwise reports the
   * group of the engine's preferred split at the leftmost start where it fits.
   */
  lemma FindNameMeaning(s: string, kw: string)
    ensures FindName(s, kw).None? <==> forall i: nat, a: nat, b: nat :: !NameSpans(s, i, kw, a, b)
    ensures FindName(s, kw).Some? ==>
      exists i: nat, a: nat, b: nat ::
        && NameSpans(s, i, kw, a, b) && FindName(s, kw).value == s[a..b]
        && (forall i': nat, a': nat, b': nat :: i' < i ==> !NameSpans(s, i', kw, a', b'))
        && (forall a': nat, b': nat :: NameSpans(s, i, kw, a', b') ==> Prefers(a, b, a', b'))
  {
    var r := FindNameFrom(s, kw, 0);
    if r.Some? {
      var (i, a, b) := r.value;
      assert NameSpans(s, i, kw, a, b) && FindName(s, kw).value == s[a..b];
    }
  }
}
