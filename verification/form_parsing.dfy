/**
 * What the interpreter makes of the sentences the quick form writes. The form writes a
 * player's name where the interpreter expects `player <digits>`, and a payment's target
 * without the word `player`; these lemmas follow each sentence through the parser.
 */
module FormParsing {
  import opened Wrappers
  import opened Text
  import opened Patterns
  import opened GameTypes
  import opened CommandParser
  import opened CommandExecutor
  import opened VoiceRecognition

  // ---------------------------------------------------------------- scanning helpers

  /** A run of the class from `i` that stops before a character outside it is the longest. */
  lemma RunEndIs(s: string, i: nat, k: nat, cls: CharClass)
    requires i <= k <= |s| && forall j :: i <= j < k ==> InClass(s[j], cls)
    requires k == |s| || !InClass(s[k], cls)
    ensures RunEnd(s, i, cls) == k
  {
    RunTail(s, i, k, cls);
  }

  /** A string of digits is its own lower case. */
  lemma LowerDigits(s: string)
    requires IsDigits(s)
    ensures Lower(s) == s
  {
    LowerOfLower(s);
  }

  /** A lower-cased string without digits has none. */
  lemma LowerNoDigits(s: string)
    requires forall i :: 0 <= i < |s| ==> !IsDigit(s[i])
    ensures forall i :: 0 <= i < |Lower(s)| ==> !IsDigit(Lower(s)[i])
  {
  }

  /**
   * A match of `w\s*\d` at `p`: `w` occurs there and the first character after the
   * blanks that follow it is a digit.
   */
  lemma WordBeforeNumber(s: string, p: nat, w: string, rest: Pattern)
    requires p <= |s| && MatchAt(s, p, [Word(w), Blanks, Number] + rest).Some?
    ensures MatchesAt(s, p, w)
    ensures RunEnd(s, p + |w|, Blank) < |s| && IsDigit(s[RunEnd(s, p + |w|, Blank)])
  {
    var pat := [Word(w), Blanks, Number] + rest;
    assert pat[0] == Word(w) && pat[1] == Blanks && pat[2..] == [Number] + rest;
    WordBlanksFirst(s, p, w, pat);
    NumberFirst(s, RunEnd(s, p + |w|, Blank), rest);
  }

  /** A match of a pattern that starts with `w\s*` has the word, then the rest after the blanks. */
  lemma WordBlanksFirst(s: string, c: nat, w: string, pat: Pattern)
    requires c <= |s| && 2 <= |pat| && pat[0] == Word(w) && pat[1] == Blanks
    requires MatchAt(s, c, pat).Some?
    ensures MatchesAt(s, c, w) && MatchAt(s, RunEnd(s, c + |w|, Blank), pat[2..]).Some?
  {
    assert pat[1..][0] == Blanks && pat[1..][1..] == pat[2..];
  }

  /** A match of a pattern that starts with `(\d+)` starts with a digit. */
  lemma NumberFirst(s: string, d: nat, rest: Pattern)
    requires d <= |s| && MatchAt(s, d, [Number] + rest).Some?
    ensures d < |s| && IsDigit(s[d])
  {
    var pat := [Number] + rest;
    assert pat[0] == Number && pat[1..] == rest;
    assert RunEnd(s, d, Digit) != d;
    assert InClass(s[d], Digit);
  }

  /** `(\d+)` at `d`: the longest run of digits. */
  lemma NumberAt(s: string, d: nat, e: nat)
    requires d < e <= |s| && AllIn(s, d, e, Digit) && (e == |s| || !IsDigit(s[e]))
    ensures MatchAt(s, d, [Number]) == Some((e, s[d..e]))
  {
    RunEndIs(s, d, e, Digit);
    assert [Number][1..] == [];
    assert MatchAt(s, e, []) == Some((e, ""));
  }

  /** `w\s*(\d+)` at `c`, with the blanks and the digits where the caller says they are. */
  lemma KeywordNumberAt(s: string, c: nat, w: string, d: nat, e: nat)
    requires c + |w| <= d < e <= |s| && MatchesAt(s, c, w)
    requires AllIn(s, c + |w|, d, Blank) && AllIn(s, d, e, Digit) && (e == |s| || !IsDigit(s[e]))
    ensures MatchAt(s, c, [Word(w), Blanks, Number]) == Some((e, s[d..e]))
  {
    NumberAt(s, d, e);
    assert IsDigit(s[d]);
    var pat := [Word(w), Blanks, Number];
    assert pat[2..] == [Number];
    WordBlanksSkip(s, c, w, d, pat);
  }

  /** No occurrence of `w` starts before `c` when its first two letters never appear together there. */
  lemma NoEarlierWord(s: string, c: nat, w: string, rest: Pattern)
    requires 2 <= |w| && c <= |s|
    requires forall q :: 0 <= q < c && q + 1 < |s| ==> s[q] != w[0] || s[q + 1] != w[1]
    ensures forall q :: 0 <= q < c ==> MatchAt(s, q, [Word(w)] + rest).None?
  {
    forall q | 0 <= q < c ensures MatchAt(s, q, [Word(w)] + rest).None? {
      assert ([Word(w)] + rest)[0] == Word(w);
      if q + |w| <= |s| {
        var t := s[q..q + |w|];
        assert t[0] == s[q] && t[1] == s[q + 1];
        assert t != w;
      }
    }
  }

  /**
   * `s.match(/w\s*(\d+)/)` is the digits s[d..e] when the keyword stands at `c`, blanks
   * and then the digits follow it, and no earlier place starts with the keyword's first
   * two letters.
   */
  lemma FindKeywordNumber(s: string, c: nat, w: string, d: nat, e: nat)
    requires 2 <= |w| && c + |w| <= d < e <= |s| && MatchesAt(s, c, w)
    requires AllIn(s, c + |w|, d, Blank) && AllIn(s, d, e, Digit) && (e == |s| || !IsDigit(s[e]))
    requires forall q :: 0 <= q < c && q + 1 < |s| ==> s[q] != w[0] || s[q + 1] != w[1]
    ensures Find(s, [Word(w), Blanks, Number]) == Some(s[d..e])
  {
    KeywordNumberAt(s, c, w, d, e);
    NoEarlierWord(s, c, w, [Blanks, Number]);
    assert [Word(w)] + [Blanks, Number] == [Word(w), Blanks, Number];
    FindAt(s, [Word(w), Blanks, Number], c);
  }

  /**
   * In `x w t`, with one blank between the keyword and the digits `t` that end the text,
   * the group is `t` when no place in `x` starts the keyword's first two letters.
   */
  lemma KeywordDigitsAt(x: string, w: string, t: string, y: string)
    requires 2 <= |w| && t != [] && IsDigits(t) && (y == [] || !IsDigit(y[0]))
    requires forall q :: 0 <= q < |x| - 1 ==> x[q] != w[0] || x[q + 1] != w[1]
    requires x != [] ==> x[|x| - 1] != w[0]
    ensures Find(x + w + " " + t + y, [Word(w), Blanks, Number]) == Some(t)
  {
    var s := x + w + " " + t + y;
    var c, d := |x|, |x| + |w| + 1;
    var e := d + |t|;
    assert s[c..c + |w|] == w;
    assert s[c + |w|] == ' ';
    assert s[d..e] == t;
    assert AllIn(s, d, e, Digit) by {
      forall j | d <= j < e ensures IsDigit(s[j]) {
        assert s[j] == t[j - d];
      }
    }
    assert e < |s| ==> s[e] == y[0];
    forall q | 0 <= q < c && q + 1 < |s| ensures s[q] != w[0] || s[q + 1] != w[1] {
      assert s[q] == x[q];
      if q + 1 < c {
        assert s[q + 1] == x[q + 1];
      }
    }
    FindKeywordNumber(s, c, w, d, e);
  }

  /** The first piece of a pattern, a word, read at `c`. */
  lemma WordRest(s: string, c: nat, w: string, rest: Pattern)
    requires MatchesAt(s, c, w)
    ensures MatchAt(s, c, [Word(w)] + rest) == MatchAt(s, c + |w|, rest)
  {
    var pat := [Word(w)] + rest;
    assert pat[0] == Word(w) && pat[1..] == rest;
  }

  /** The first piece, `\s*`, read from `b` to the first character that is not blank. */
  lemma BlanksRest(s: string, b: nat, d: nat, rest: Pattern)
    requires b <= d <= |s| && AllIn(s, b, d, Blank) && (d == |s| || !IsBlank(s[d]))
    ensures MatchAt(s, b, [Blanks] + rest) == MatchAt(s, d, rest)
  {
    RunEndIs(s, b, d, Blank);
    var pat := [Blanks] + rest;
    assert pat[0] == Blanks && pat[1..] == rest;
  }

  /** The first piece, `(\d+)`, read as the digits s[d..e]. */
  lemma NumberRest(s: string, d: nat, e: nat, rest: Pattern)
    requires d < e <= |s| && AllIn(s, d, e, Digit) && (e == |s| || !IsDigit(s[e]))
    requires MatchAt(s, e, rest).Some?
    ensures MatchAt(s, d, [Number] + rest) == Some((MatchAt(s, e, rest).value.0, s[d..e]))
  {
    RunEndIs(s, d, e, Digit);
    var pat := [Number] + rest;
    assert pat[0] == Number && pat[1..] == rest;
  }

  /** `(\d+)\s*b` at `d`. */
  lemma NumberThenWord(s: string, d: nat, e: nat, f: nat, b: string)
    requires d < e <= f && MatchesAt(s, f, b) && b != [] && !IsBlank(b[0])
    requires AllIn(s, d, e, Digit) && !IsDigit(s[e]) && AllIn(s, e, f, Blank)
    ensures MatchAt(s, d, [Number] + ([Blanks] + [Word(b)])) == Some((f + |b|, s[d..e]))
  {
    BlanksThenWord(s, e, f, b);
    NumberRest(s, d, e, [Blanks] + [Word(b)]);
  }

  /** `\s*b` at `e`. */
  lemma BlanksThenWord(s: string, e: nat, f: nat, b: string)
    requires e <= f && MatchesAt(s, f, b) && b != [] && !IsBlank(b[0]) && AllIn(s, e, f, Blank)
    ensures MatchAt(s, e, [Blanks] + [Word(b)]) == Some((f + |b|, ""))
  {
    assert s[f..f + |b|][0] == s[f];
    assert MatchAt(s, f + |b|, []) == Some((f + |b|, ""));
    WordRest(s, f, b, []);
    BlanksRest(s, e, f, [Word(b)]);
  }

  /** `a\s*` at the head of a pattern, at `c`, is stepped over up to the digits at `d`. */
  lemma WordBlanksSkip(s: string, c: nat, a: string, d: nat, pat: Pattern)
    requires 2 <= |pat| && pat[0] == Word(a) && pat[1] == Blanks
    requires c + |a| <= d < |s| && MatchesAt(s, c, a) && AllIn(s, c + |a|, d, Blank) && !IsBlank(s[d])
    ensures MatchAt(s, c, pat) == MatchAt(s, d, pat[2..])
  {
    RunEndIs(s, c + |a|, d, Blank);
    assert pat[1..][0] == Blanks && pat[1..][1..] == pat[2..];
    assert MatchAt(s, c + |a|, pat[1..]) == MatchAt(s, d, pat[2..]);
  }

  /** `a\s*(\d+)\s*b` at `c`, with the blanks and the digits where the caller says they are. */
  lemma NumberBetweenAt(s: string, c: nat, a: string, d: nat, e: nat, f: nat, b: string)
    requires c + |a| <= d < e <= f && MatchesAt(s, c, a) && MatchesAt(s, f, b)
    requires b != [] && !IsBlank(b[0])
    requires AllIn(s, c + |a|, d, Blank) && AllIn(s, d, e, Digit) && !IsDigit(s[e]) && AllIn(s, e, f, Blank)
    ensures MatchAt(s, c, [Word(a), Blanks, Number, Blanks, Word(b)]) == Some((f + |b|, s[d..e]))
  {
    var tail := [Number] + ([Blanks] + [Word(b)]);
    NumberThenWord(s, d, e, f, b);
    assert IsDigit(s[d]);
    var pat := [Word(a), Blanks, Number, Blanks, Word(b)];
    assert pat[2..] == tail;
    WordBlanksSkip(s, c, a, d, pat);
  }

  /** `a\s*(\d+)\s*b` at the very start of `a N b…`, with one blank on each side of N. */
  lemma NumberBetweenFirst(a: string, n: string, b: string, rest: string)
    requires a != [] && n != [] && IsDigits(n) && b != [] && !IsBlank(b[0])
    ensures Find(a + " " + n + " " + b + rest, [Word(a), Blanks, Number, Blanks, Word(b)]) == Some(n)
  {
    var s := a + " " + n + " " + b + rest;
    var d := |a| + 1;
    var e := d + |n|;
    assert s[..|a|] == a && s[|a|] == ' ' && s[d..e] == n && s[e] == ' ' && s[e + 1..e + 1 + |b|] == b;
    assert AllIn(s, d, e, Digit) by {
      forall j | d <= j < e ensures IsDigit(s[j]) {
        assert s[j] == n[j - d];
      }
    }
    NumberBetweenAt(s, 0, a, d, e, e + 1, b);
    FindAt(s, [Word(a), Blanks, Number, Blanks, Word(b)], 0);
  }

  /**
   * A pattern that starts with the word `w` and has a digit group never matches `x y`
   * when no place in `x` starts with `w`'s first two letters and `y` has no digits.
   */
  lemma KeywordTooLate(x: string, y: string, w: string, pat: Pattern)
    requires 2 <= |w| && pat != [] && pat[0] == Word(w) && Number in pat
    requires forall q :: 0 <= q < |x| - 1 ==> x[q] != w[0] || x[q + 1] != w[1]
    requires x != [] ==> x[|x| - 1] != w[0]
    requires forall i :: 0 <= i < |y| ==> !IsDigit(y[i])
    ensures Find(x + y, pat).None?
  {
    var s := x + y;
    NotStartedIn(x, y, w);
    forall p | 0 <= p <= |s| ensures MatchAt(s, p, pat).None? {
      if |x| <= p {
        forall q: nat, t: string | p <= q ensures !WholeNumberAt(s, q, t) {
          if t != [] && q + |t| <= |s| {
            assert s[q..q + |t|][0] == s[q] == y[q - |x|];
          }
        }
      }
    }
  }

  /**
   * A word of two or more letters found in `x t` is found in `t` when no place in `x`
   * starts with its first two letters.
   */
  lemma ContainsOnlyIn(x: string, t: string, w: string)
    requires 2 <= |w|
    requires forall q :: 0 <= q < |x| - 1 ==> x[q] != w[0] || x[q + 1] != w[1]
    requires x != [] ==> x[|x| - 1] != w[0]
    ensures Contains(x + t, w) ==> Contains(t, w)
  {
    var s := x + t;
    NotStartedIn(x, t, w);
    if Contains(s, w) {
      var p :| 0 <= p <= |s| && MatchesAt(s, p, w);
      assert s[p..p + |w|] == t[p - |x|..p - |x| + |w|];
      assert MatchesAt(t, p - |x|, w);
    }
  }

  lemma NotStartedIn(x: string, t: string, w: string)
    requires 2 <= |w|
    requires forall q :: 0 <= q < |x| - 1 ==> x[q] != w[0] || x[q + 1] != w[1]
    requires x != [] ==> x[|x| - 1] != w[0]
    ensures forall p :: 0 <= p < |x| ==> !MatchesAt(x + t, p, w)
  {
    var s := x + t;
    forall p | 0 <= p < |x| ensures !MatchesAt(s, p, w) {
      if p + |w| <= |s| {
        var u := s[p..p + |w|];
        assert u[0] == x[p];
        if p + 1 < |x| {
          assert u[1] == x[p + 1];
        }
      }
    }
  }

  // ---------------------------------------------------------------- sentences without digits

  /** No group of digits can be read from a text without digits. */
  lemma NoWholeNumber(s: string)
    requires forall i :: 0 <= i < |s| ==> !IsDigit(s[i])
    ensures forall p: nat, t: string :: !WholeNumberAt(s, p, t)
  {
    forall p: nat, t: string ensures !WholeNumberAt(s, p, t) {
      if t != [] && p + |t| <= |s| {
        assert s[p..p + |t|][0] == s[p];
      }
    }
  }

  /** A pattern with a digit group never matches a text without digits. */
  lemma NoDigitNoFind(s: string, pat: Pattern)
    requires Number in pat && forall i :: 0 <= i < |s| ==> !IsDigit(s[i])
    ensures Find(s, pat).None?
  {
    NoWholeNumber(s);
    forall p | 0 <= p <= |s| ensures MatchAt(s, p, pat).None? {
    }
  }

  /**
   * A sentence without a digit is never a command: it names no player number, so the
   * `move` branch reports the missing player and every other branch falls through to
   * "not recognized".
   */
  lemma NoDigitsRejected(eq: IdEquality, command: string, g: GameState)
    requires forall i :: 0 <= i < |command| ==> !IsDigit(command[i])
    ensures ParseWith(eq, command, g) ==
      if Contains(Lower(command), "move") then Unknown(NoPlayerError) else Unknown(NotRecognizedError)
  {
    var s := Lower(command);
    LowerNoDigits(command);
    assert Number in PlayerNumber && Number in PlayerPays && Number in PlayerCollects;
    NoDigitNoFind(s, PlayerNumber);
    NoDigitNoFind(s, PlayerPays);
    NoDigitNoFind(s, PlayerCollects);
    BranchKeywords(eq, s, g);
  }

  /** The texts around the form's fields have no digits. */
  lemma NoDigitsJoined(a: string, b: string)
    requires forall i :: 0 <= i < |a| ==> !IsDigit(a[i])
    requires forall i :: 0 <= i < |b| ==> !IsDigit(b[i])
    ensures forall i :: 0 <= i < |a + b| ==> !IsDigit((a + b)[i])
  {
    forall i | 0 <= i < |a + b| ensures !IsDigit((a + b)[i]) {
      if i >= |a| {
        assert (a + b)[i] == b[i - |a|];
      }
    }
  }

  /**
   * The form's move to a property, for a player name and a property name without
   * digits, is always rejected for want of a player.
   */
  lemma MoveToPropertyRejected(name: string, property: string, g: GameState)
    requires forall i :: 0 <= i < |name| ==> !IsDigit(name[i])
    requires forall i :: 0 <= i < |property| ==> !IsDigit(property[i])
    ensures Parse(MoveToPropertySentence(name, property), g) == Unknown(NoPlayerError)
  {
    NoDigitsJoined("Move player ", name);
    NoDigitsJoined("Move player " + name, " to ");
    NoDigitsJoined("Move player " + name + " to ", property);
    MoveKeyword(name, "", property);
    NoDigitsRejected(Loose, MoveToPropertySentence(name, property), g);
  }

  /**
   * The form's purchase, for a player name and a property name without digits, is never
   * a purchase: it is not recognized, or rejected for want of a player when a name
   * happens to contain `move`.
   */
  lemma BuyByNameRejected(name: string, property: string, g: GameState)
    requires forall i :: 0 <= i < |name| ==> !IsDigit(name[i])
    requires forall i :: 0 <= i < |property| ==> !IsDigit(property[i])
    ensures Parse(BuySentence(name, property), g) ==
      if Contains(Lower(BuySentence(name, property)), "move") then Unknown(NoPlayerError)
      else Unknown(NotRecognizedError)
  {
    NoDigitsJoined("Player ", name);
    NoDigitsJoined("Player " + name, " buys ");
    NoDigitsJoined("Player " + name + " buys ", property);
    NoDigitsRejected(Loose, BuySentence(name, property), g);
  }

  // ---------------------------------------------------------------- a player named by letters

  /**
   * `w\s*(\d+)…` matches nowhere in a text whose digits all come after `m`, when the
   * text just before `m` is one blank after a character that neither is blank nor ends
   * `w`, and `w` ends with a letter that is neither blank nor a digit.
   */
  lemma NoKeywordNumber(s: string, w: string, m: nat, rest: Pattern)
    requires w != [] && !IsBlank(w[|w| - 1]) && !IsDigit(w[|w| - 1])
    requires 2 <= m <= |s| && IsBlank(s[m - 1]) && !IsBlank(s[m - 2]) && s[m - 2] != w[|w| - 1]
    requires forall i :: 0 <= i < m ==> !IsDigit(s[i])
    requires forall i :: m <= i < |s| ==> IsDigit(s[i])
    ensures Find(s, [Word(w), Blanks, Number] + rest).None?
  {
    var pat := [Word(w), Blanks, Number] + rest;
    forall p | 0 <= p <= |s| ensures MatchAt(s, p, pat).None? {
      NoWordThenDigit(s, w, m, p);
      WordBeforeNumberIf(s, p, w, rest);
    }
  }

  /** The contrapositive form of `WordBeforeNumber`. */
  lemma WordBeforeNumberIf(s: string, p: nat, w: string, rest: Pattern)
    requires p <= |s|
    ensures MatchAt(s, p, [Word(w), Blanks, Number] + rest).Some? ==>
      MatchesAt(s, p, w) && RunEnd(s, p + |w|, Blank) < |s| && IsDigit(s[RunEnd(s, p + |w|, Blank)])
  {
    if MatchAt(s, p, [Word(w), Blanks, Number] + rest).Some? {
      WordBeforeNumber(s, p, w, rest);
    }
  }

  lemma NoWordThenDigit(s: string, w: string, m: nat, p: nat)
    requires w != [] && !IsBlank(w[|w| - 1]) && !IsDigit(w[|w| - 1])
    requires 2 <= m <= |s| && IsBlank(s[m - 1]) && !IsBlank(s[m - 2]) && s[m - 2] != w[|w| - 1]
    requires forall i :: 0 <= i < m ==> !IsDigit(s[i])
    requires forall i :: m <= i < |s| ==> IsDigit(s[i])
    requires p <= |s|
    ensures !(MatchesAt(s, p, w) && RunEnd(s, p + |w|, Blank) < |s| && IsDigit(s[RunEnd(s, p + |w|, Blank)]))
  {
    var e := p + |w|;
    if e <= |s| {
      var last := s[p..e][|w| - 1];
      assert last == s[e - 1];
      if e <= m - 2 {
        assert RunEnd(s, e, Blank) <= m - 2;
      } else if e == m - 1 {
        assert last == s[m - 2];
      } else if e == m {
        assert last == s[m - 1];
      } else {
        assert IsDigit(last);
      }
    }
  }

  // ---------------------------------------------------------------- move to a position

  /** `Player {name} moves to position {position}`, lower-cased, for a numeral position. */
  lemma LowerMoveToPosition(name: string, position: string)
    requires IsDigits(position)
    ensures Lower(MoveToPositionSentence(name, position)) == "player " + Lower(name) + " moves to position " + position
  {
    LowerConcat("Player " + name + " moves to position ", position);
    LowerConcat("Player " + name, " moves to position ");
    LowerConcat("Player ", name);
    LowerDigits(position);
  }

  /** The `player N` group of a sentence that starts `player N` is N. */
  lemma PlayerNumberAtStart(s: string, name: string, tail: string)
    requires name != [] && IsDigits(name) && s == "player " + name + tail
    requires tail != [] && !IsDigit(tail[0])
    ensures Find(s, PlayerNumber) == Some(name)
  {
    var n := |name|;
    assert s[7..7 + n] == name;
    assert s[0..6] == "player" && s[6] == ' ';
    assert s[7 + n] == tail[0];
    KeywordNumberAt(s, 0, "player", 7, 7 + n);
    FindAt(s, PlayerNumber, 0);
  }

  /** Past its first letter, `player N moves to ` has no `p`. */
  lemma NoLaterP(name: string)
    requires IsDigits(name)
    ensures var x := "player " + name + " moves to ";
      forall q :: 1 <= q < |x| ==> x[q] != 'p'
  {
    var x := "player " + name + " moves to ";
    var n := |name|;
    forall q | 1 <= q < |x| ensures x[q] != 'p' {
      if q < 7 {
        assert x[q] == "player "[q];
      } else if q < 7 + n {
        assert x[q] == name[q - 7];
      } else {
        assert x[q] == " moves to "[q - 7 - n];
      }
    }
  }

  /** The `position N` group of the move sentence is the position. */
  lemma PositionGroup(name: string, position: string)
    requires IsDigits(name) && position != [] && IsDigits(position)
    ensures var s := "player " + name + " moves to position " + position;
      Find(s, PositionNumber) == Some(position)
  {
    var x := "player " + name + " moves to ";
    NoLaterP(name);
    assert x[1] == 'l' && x[|x| - 1] == ' ';
    KeywordDigitsAt(x, "position", position, []);
    assert x + "position" + " " + position + [] == x + "position" + " " + position;
    MovesToPositionParts();
    Regroup("player " + name, " moves to position ", " moves to ", "position", " ", position);
  }

  /** Both groups of the lower-cased move sentence: the player's number and the position. */
  lemma MoveSentenceGroups(name: string, position: string)
    requires name != [] && IsDigits(name) && position != [] && IsDigits(position)
    ensures var s := Lower(MoveToPositionSentence(name, position));
      Find(s, PlayerNumber) == Some(name) && MovePosition(s) == Some(position)
  {
    var tail := " moves to position " + position;
    LowerMoveToPosition(name, position);
    LowerDigits(name);
    Assoc("player " + name, " moves to position ", position);
    assert tail[0] == ' ';
    PlayerNumberAtStart("player " + name + tail, name, tail);
    PositionGroup(name, position);
  }

  /** The move sentence for a name without digits has no `player N` in it. */
  lemma NamedPlayerNumber(name: string, position: string)
    requires forall i :: 0 <= i < |name| ==> !IsDigit(name[i])
    requires IsDigits(position)
    ensures Find(Lower(MoveToPositionSentence(name, position)), PlayerNumber).None?
  {
    LowerMoveToPosition(name, position);
    LowerNoDigits(name);
    var x := "player " + Lower(name) + " moves to position ";
    NoDigitsJoined("player ", Lower(name));
    NoDigitsJoined("player " + Lower(name), " moves to position ");
    var s := x + position;
    var m := |x|;
    assert s[m - 2] == x[m - 2] == 'n' && s[m - 1] == x[m - 1] == ' ';
    assert forall i :: 0 <= i < m ==> s[i] == x[i];
    assert forall i :: m <= i < |s| ==> s[i] == position[i - m];
    NoKeywordNumber(s, "player", m, []);
    assert PlayerNumber == [Word("player"), Blanks, Number] + [];
  }

  /**
   * The form's move to a position, for a player whose name has no digits, is always
   * rejected for want of a player, however the ledger names its players.
   */
  lemma MoveByNameRejected(name: string, position: string, g: GameState)
    requires forall i :: 0 <= i < |name| ==> !IsDigit(name[i])
    requires IsDigits(position)
    ensures Parse(MoveToPositionSentence(name, position), g) == Unknown(NoPlayerError)
  {
    MoveKeyword(name, position, "");
    NamedPlayerNumber(name, position);
    MoveOutcomes(MoveToPositionSentence(name, position), g);
  }

  /**
   * A move written by the form with a position, for a player whose name is a numeral,
   * is parsed as the interpreter would parse `player N moves to position P`: a player
   * the ledger does not know by that number is rejected, a square past 39 is refused,
   * and otherwise it is a move there.
   */
  lemma MoveToPositionRoundTrip(name: string, position: string, g: GameState)
    requires name != [] && IsDigits(name) && position != [] && IsDigits(position)
    ensures Parse(MoveToPositionSentence(name, position), g) ==
      if FindPlayer(Loose, g.players, name).None? then Unknown(NoSuchPlayerError(name))
      else if DigitsValue(position) > 39 then Unknown(InvalidPositionError(DigitsValue(position)))
      else Move(name, DigitsValue(position))
  {
    MoveKeyword(name, position, "");
    MoveSentenceGroups(name, position);
    MoveOutcomes(MoveToPositionSentence(name, position), g);
  }

  // ---------------------------------------------------------------- payments and collections

  /**
   * After `player N`, the letters of `mid` are the only ones that can start `w`: with
   * `w`'s first letter neither in `layer ` nor a digit nor in `mid`, no place in
   * `player N mid` starts with `w`'s first two letters.
   */
  lemma PlayerThen(name: string, mid: string, w: string)
    requires IsDigits(name) && 2 <= |w| && !IsDigit(w[0])
    requires w[0] !in "layer " && w[0] !in mid && (w[0] == 'p' ==> w[1] != 'l')
    ensures var x := "player " + name + mid;
      && (forall q :: 0 <= q < |x| - 1 ==> x[q] != w[0] || x[q + 1] != w[1])
      && x[|x| - 1] != w[0]
  {
    var x := "player " + name + mid;
    var n := |name|;
    forall q | 1 <= q < |x| ensures x[q] != w[0] {
      if q < 7 {
        assert x[q] == "layer "[q - 1];
      } else if q < 7 + n {
        assert x[q] == name[q - 7];
      } else {
        assert x[q] == mid[q - 7 - n];
      }
    }
    assert x[1] == 'l';
  }

  /** Lower case distributes over five parts. */
  lemma LowerFive(a: string, b: string, c: string, d: string, e: string)
    ensures Lower(a + b + c + d + e) == Lower(a) + Lower(b) + Lower(c) + Lower(d) + Lower(e)
  {
    LowerConcat(a + b + c + d, e);
    LowerConcat(a + b + c, d);
    LowerConcat(a + b, c);
    LowerConcat(a, b);
  }

  lemma LowerTransferWords()
    ensures Lower("Player ") == "player "
    ensures Lower(" pays ") == " pays " && Lower(" to ") == " to "
    ensures Lower(" collects ") == " collects " && Lower(" from ") == " from "
  {
    LowerOfLower(" pays ");
    LowerOfLower(" to ");
    LowerOfLower(" collects ");
    LowerOfLower(" from ");
  }

  lemma LowerTransferParts(name: string, verb: string, amount: string, link: string, target: string)
    requires IsDigits(name) && IsDigits(amount) && Lower(verb) == verb && Lower(link) == link
    ensures Lower("Player " + name + verb + amount + link + target) ==
      "player " + name + verb + amount + link + Lower(target)
  {
    LowerFive("Player ", name, verb + amount, link, target);
    assert "Player " + name + (verb + amount) + link + target == "Player " + name + verb + amount + link + target;
    LowerConcat(verb, amount);
    LowerTransferWords();
    LowerDigits(name);
    LowerDigits(amount);
  }

  /** `Player N pays A to T`, lower-cased, for numerals N and A. */
  lemma LowerTransfer(name: string, amount: string, target: string, paying: bool)
    requires IsDigits(name) && IsDigits(amount)
    ensures Lower(TransferSentence(name, amount, target, paying)) ==
      "player " + name + (if paying then " pays " else " collects ") + amount
        + (if paying then " to " else " from ") + Lower(target)
  {
    var verb, link := if paying then " pays " else " collects ", if paying then " to " else " from ";
    LowerTransferWords();
    LowerTransferParts(name, verb, amount, link, target);
  }

  /** The words of a transfer: the verb and the word before the counterparty. */
  predicate TransferWords(verb: string, link: string) {
    (verb == "pays" && link == "to") || (verb == "collects" && link == "from")
  }

  /** The subject of a transfer sentence is its `player N`. */
  lemma TransferSubject(name: string, verb: string, amount: string, link: string, t: string)
    requires name != [] && IsDigits(name) && TransferWords(verb, link)
    ensures var s := "player " + name + " " + verb + " " + amount + " " + link + " " + t;
      Find(s, [Word("player"), Blanks, Number, Blanks, Word(verb)]) == Some(name)
  {
    SubjectSplit(name, verb, amount, link, t);
    NumberBetweenFirst("player", name, verb, " " + amount + " " + link + " " + t);
  }

  /** The amount of a transfer sentence is the numeral after the verb. */
  lemma TransferAmount(name: string, verb: string, amount: string, link: string, t: string)
    requires IsDigits(name) && amount != [] && IsDigits(amount) && TransferWords(verb, link)
    ensures var s := "player " + name + " " + verb + " " + amount + " " + link + " " + t;
      Find(s, [Word(verb), Blanks, Number]) == Some(amount)
  {
    AmountSplit(name, verb, amount, link, t);
    PlayerThen(name, " ", verb);
    KeywordDigitsAt("player " + name + " ", verb, amount, " " + link + " " + t);
  }

  /**
   * A transfer sentence whose counterparty is written without digits names no
   * counterparty: `to player M` (or `from player M`) needs digits after the link word.
   */
  lemma TransferNoCounterparty(name: string, verb: string, amount: string, link: string, t: string)
    requires IsDigits(name) && IsDigits(amount) && TransferWords(verb, link)
    requires forall i :: 0 <= i < |t| ==> !IsDigit(t[i])
    ensures var s := "player " + name + " " + verb + " " + amount + " " + link + " " + t;
      Find(s, [Word(link), Blanks, Word("player"), Blanks, Number]).None?
  {
    LinkSplit(name, verb, amount, link, t);
    var mid := " " + verb + " " + amount + " ";
    assert link[0] !in mid by {
      forall i | 0 <= i < |amount| ensures amount[i] != link[0] {
      }
    }
    PlayerThen(name, mid, link);
    NoDigitsJoined(link + " ", t);
    KeywordTooLate("player " + name + mid, link + " " + t, link,
                   [Word(link), Blanks, Word("player"), Blanks, Number]);
  }

  /** Digits are none of the letters of the transfer sentences. */
  lemma DigitsAreNotLetters(amount: string, c: char)
    requires IsDigits(amount) && !IsDigit(c)
    ensures c !in amount
  {
    forall i | 0 <= i < |amount| ensures amount[i] != c {
    }
  }

  /** The payment sentence, lower-cased, has no `move` unless the target has. */
  lemma PayNoMove(name: string, amount: string, t: string)
    requires IsDigits(name) && IsDigits(amount) && !Contains(t, "move")
    ensures !Contains("player " + name + " pays " + amount + " to " + t, "move")
  {
    var mid := " pays " + amount + " to ";
    DigitsAreNotLetters(amount, 'm');
    PlayerThen(name, mid, "move");
    ContainsOnlyIn("player " + name + mid, t, "move");
    assert "player " + name + mid + t == "player " + name + " pays " + amount + " to " + t;
  }

  /**
   * A payment written by the form, for a player whose name is a numeral and a target
   * typed without digits, is read as a payment of the amount to the bank: the target
   * never becomes the payee.
   */
  lemma PayRoundTrip(name: string, amount: string, target: string, g: GameState)
    requires name != [] && IsDigits(name) && amount != [] && IsDigits(amount)
    requires forall i :: 0 <= i < |target| ==> !IsDigit(target[i])
    requires !Contains(Lower(target), "move")
    ensures Parse(TransferSentence(name, amount, target, true), g) == Pay(name, DigitsValue(amount), None)
  {
    var command := TransferSentence(name, amount, target, true);
    var t := Lower(target);
    LowerNoDigits(target);
    LowerTransfer(name, amount, target, true);
    TransferSpelled(name, amount, t, true);
    TransferSubject(name, "pays", amount, "to", t);
    TransferAmount(name, "pays", amount, "to", t);
    TransferNoCounterparty(name, "pays", amount, "to", t);
    PayNoMove(name, amount, t);
    TransferKeyword(name, amount, target, true);
    BranchKeywords(Loose, Lower(command), g);
  }

  /** The collection sentence, lower-cased, has no `move` unless the target has. */
  lemma CollectNoMove(name: string, amount: string, t: string)
    requires IsDigits(name) && IsDigits(amount) && !Contains(t, "move")
    ensures !Contains("player " + name + " collects " + amount + " from " + t, "move")
  {
    var mid := " collects " + amount + " fro";
    DigitsAreNotLetters(amount, 'm');
    PlayerThen(name, mid, "move");
    ContainsOnlyIn("player " + name + mid, "m " + t, "move");
    ContainsJoin("m", t, "move");
    assert !Contains("m", "move");
    assert "player " + name + mid + ("m " + t) == "player " + name + " collects " + amount + " from " + t;
    assert "m " + t == "m" + " " + t;
  }

  /** The collection sentence has no `pays N`: its only digits before the target are N and A. */
  lemma CollectNoPayment(name: string, amount: string, t: string)
    requires IsDigits(name) && IsDigits(amount) && forall i :: 0 <= i < |t| ==> !IsDigit(t[i])
    ensures Find("player " + name + " collects " + amount + " from " + t, PaysAmount).None?
  {
    var mid := " collects " + amount + " from ";
    DigitsAreNotLetters(amount, 'p');
    PlayerThen(name, mid, "pays");
    KeywordTooLate("player " + name + mid, t, "pays", PaysAmount);
    assert "player " + name + mid + t == "player " + name + " collects " + amount + " from " + t;
  }

  /**
   * A collection written by the form, for a player whose name is a numeral and a target
   * typed without digits, is read as a collection of the amount from the bank.
   */
  lemma CollectRoundTrip(name: string, amount: string, target: string, g: GameState)
    requires name != [] && IsDigits(name) && amount != [] && IsDigits(amount)
    requires forall i :: 0 <= i < |target| ==> !IsDigit(target[i])
    requires !Contains(Lower(target), "move")
    ensures Parse(TransferSentence(name, amount, target, false), g) == Collect(name, DigitsValue(amount), None)
  {
    var command := TransferSentence(name, amount, target, false);
    var t := Lower(target);
    LowerNoDigits(target);
    LowerTransfer(name, amount, target, false);
    TransferSpelled(name, amount, t, false);
    TransferSubject(name, "collects", amount, "from", t);
    TransferAmount(name, "collects", amount, "from", t);
    TransferNoCounterparty(name, "collects", amount, "from", t);
    CollectNoMove(name, amount, t);
    CollectNoPayment(name, amount, t);
    TransferKeyword(name, amount, target, false);
    BranchKeywords(Loose, Lower(command), g);
  }

  /**
   * What a transfer written by the form does to the ledger, for a known player with a
   * numeral name, a non-zero amount and a target typed without digits: only the
   * player's money moves, the bank is the other side, no transaction is recorded, and
   * the reply names the bank.
   */
  lemma FormTransferWithBank(name: string, amount: string, target: string, paying: bool, g: GameState, now: nat)
    requires name != [] && IsDigits(name) && amount != [] && IsDigits(amount) && DigitsValue(amount) != 0
    requires forall i :: 0 <= i < |target| ==> !IsDigit(target[i])
    requires !Contains(Lower(target), "move")
    requires FindPlayer(Loose, g.players, name).Some?
    ensures var r := Execute(g, TransferSentence(name, amount, target, paying), now);
      var i := Seat(Loose, g.players, name);
      var a := DigitsValue(amount);
      && r.state.transactions == g.transactions
      && r.state.players[i].money == g.players[i].money + (if paying then -(a as int) else a)
      && (forall j :: 0 <= j < |g.players| && j != i ==> r.state.players[j] == g.players[j])
      && TotalMoney(r.state.players) == TotalMoney(g.players) + (if paying then -(a as int) else a)
      && r.message == if paying then PaidMessage(name, a, None) else CollectedMessage(name, a, None)
  {
    var command := TransferSentence(name, amount, target, paying);
    var a := DigitsValue(amount);
    if paying {
      PayRoundTrip(name, amount, target, g);
    } else {
      CollectRoundTrip(name, amount, target, g);
    }
    TransferEffect(Loose, g, name, a, None, command, now, paying);
  }

  // ---------------------------------------------------------------- string regrouping

  // The lemmas below only regroup concatenations. They state nothing about the
  // interpreter; the proofs above call them so that each step stays small.

  /** Concatenation regrouped to the right. */
  lemma Assoc(a: string, b: string, c: string)
    ensures a + (b + c) == a + b + c
  {
  }

  /** Splitting the middle part of a three-part text. */
  lemma Regroup(a: string, m: string, m1: string, m2: string, m3: string, t: string)
    requires m == m1 + m2 + m3
    ensures a + m + t == (a + m1) + m2 + m3 + t
  {
  }

  /** The move sentence's middle words, split around `position`. */
  lemma MovesToPositionParts()
    ensures " moves to position " == " moves to " + "position" + " "
  {
  }

  /** The transfer sentence regrouped around its subject. */
  lemma SubjectSplit(name: string, verb: string, amount: string, link: string, t: string)
    ensures "player " + name + " " + verb + " " + amount + " " + link + " " + t
      == "player" + " " + name + " " + verb + (" " + amount + " " + link + " " + t)
  {
  }

  /** The transfer sentence regrouped around its verb and amount. */
  lemma AmountSplit(name: string, verb: string, amount: string, link: string, t: string)
    ensures "player " + name + " " + verb + " " + amount + " " + link + " " + t
      == ("player " + name + " ") + verb + " " + amount + (" " + link + " " + t)
  {
  }

  /** The transfer sentence regrouped around its link word. */
  lemma LinkSplit(name: string, verb: string, amount: string, link: string, t: string)
    ensures "player " + name + " " + verb + " " + amount + " " + link + " " + t
      == ("player " + name + (" " + verb + " " + amount + " ")) + (link + " " + t)
  {
  }

  /** The lower-cased transfer sentence, spelled word by word. */
  lemma TransferSpelled(name: string, amount: string, t: string, paying: bool)
    ensures var verb, link := if paying then "pays" else "collects", if paying then "to" else "from";
      "player " + name + (if paying then " pays " else " collects ") + amount + (if paying then " to " else " from ") + t
        == "player " + name + " " + verb + " " + amount + " " + link + " " + t
  {
  }
}
