/**
 * Searching assets: a search term becomes an ILIKE pattern that matches a text exactly when the
 * term occurs in it, whatever wildcard or escape characters the term contains.
 */
module Search {

  const ANY_TEXT := '%'
  const ANY_CHAR := '_'
  const ESCAPE := '\\'

  predicate Special(c: char) {
    c == ANY_TEXT || c == ANY_CHAR || c == ESCAPE
  }

  function EscapedChar(c: char): string {
    if Special(c) then [ESCAPE, c] else [c]
  }

  /** The replacer of the service: a backslash before each character that means something. */
  function Escaped(term: string): string {
    if term == "" then ""
    else EscapedChar(term[0]) + Escaped(term[1..])
  }

  function LiteralPattern(term: string): string {
    if term == "" then "" else [ANY_TEXT] + Escaped(term) + [ANY_TEXT]
  }

  // ---- LIKE

  /** A pattern must not end in an escape character that escapes nothing. */
  predicate WellFormed(pattern: string) {
    if pattern == "" then true
    else if pattern[0] == ESCAPE then 2 <= |pattern| && WellFormed(pattern[2..])
    else WellFormed(pattern[1..])
  }

  /** SQL `LIKE` with backslash as the escape character. */
  predicate Like(text: string, pattern: string)
    requires WellFormed(pattern)
    decreases |pattern| + |text|
  {
    if pattern == "" then text == ""
    else if pattern[0] == ANY_TEXT then Like(text, pattern[1..]) || (text != "" && Like(text[1..], pattern))
    else if text == "" then false
    else if pattern[0] == ESCAPE then text[0] == pattern[1] && Like(text[1..], pattern[2..])
    else (pattern[0] == ANY_CHAR || pattern[0] == text[0]) && Like(text[1..], pattern[1..])
  }

  /** `%` stands for any text, `_` for any one character, the backslash for the character after it. */
  lemma {:induction false} AnyTextMeans(text: string, rest: string)
    requires WellFormed(rest)
    ensures WellFormed([ANY_TEXT] + rest)
    ensures Like(text, "%" + rest) <==> exists i :: 0 <= i <= |text| && Like(text[i..], rest)
  {
    AnyTextWellFormed(rest);
    assert ("%" + rest)[1..] == rest && text[0..] == text;
    if text != "" {
      AnyTextMeans(text[1..], rest);
      forall i | 0 <= i <= |text[1..]| ensures text[1..][i..] == text[i + 1..] {
      }
      if i :| 0 <= i <= |text| && Like(text[i..], rest) && i != 0 {
        assert text[1..][i - 1..] == text[i..];
      }
      if i :| 0 <= i <= |text[1..]| && Like(text[1..][i..], rest) {
        assert Like(text[i + 1..], rest);
      }
    } else {
      assert forall i :: 0 <= i <= |text| ==> text[i..] == text;
      if Like(text, rest) { assert Like(text[0..], rest); }
    }
  }

  lemma OneCharMeans(text: string, c: char, rest: string)
    requires WellFormed(rest)
    ensures Like(text, "_" + rest) <==> text != "" && Like(text[1..], rest)
    ensures Like(text, "\\" + [c] + rest) <==> text != "" && text[0] == c && Like(text[1..], rest)
    ensures c !in "%_\\" ==> (Like(text, [c] + rest) <==> text != "" && text[0] == c && Like(text[1..], rest))
    ensures !WellFormed("\\")
  {
    assert ("_" + rest)[1..] == rest && ([c] + rest)[1..] == rest && ("\\" + [c] + rest)[2..] == rest;
  }

  // ---- Letter case

  /**
   * What is asked of lower-casing a whole text: escaping commutes with it. A folding may change the
   * length of a text and look at the neighbours of a letter.
   */
  ghost predicate Folds(fold: string -> string) {
    forall term :: term != "" ==> fold(term) != "" && fold(LiteralPattern(term)) == LiteralPattern(fold(term))
  }

  predicate Plain(s: string) {
    forall i :: 0 <= i < |s| ==> !Special(s[i])
  }

  /** Lower-casing one character, to one or more, leaves special characters alone and makes none. */
  ghost predicate LowersChars(lower: char -> string) {
    forall c {:trigger lower(c)} ::
      lower(c) != "" && if Special(c) then lower(c) == [c] else Plain(lower(c))
  }

  /** Lower-casing character by character. */
  function Lowered(lower: char -> string, s: string): string {
    if s == "" then "" else lower(s[0]) + Lowered(lower, s[1..])
  }

  function AsciiLower(c: char): string {
    if 'A' <= c <= 'Z' then [c - 'A' + 'a'] else [c]
  }

  lemma AsciiFolds()
    ensures Folds((s: string) => Lowered(AsciiLower, s))
  {
    CharwiseFolds(AsciiLower);
  }

  /** Two characters fold alike when they are one letter in two cases. */
  lemma AsciiCaseless(c: char, d: char)
    requires c < d
    ensures AsciiLower(c) == AsciiLower(d) <==> 'A' <= c <= 'Z' && d == c + (32 as char)
  {
    assert AsciiLower(c)[0] == AsciiLower(d)[0] <==> AsciiLower(c) == AsciiLower(d);
  }

  lemma {:induction false} LoweredAppend(lower: char -> string, a: string, b: string)
    ensures Lowered(lower, a + b) == Lowered(lower, a) + Lowered(lower, b)
  {
    if a == "" {
      assert a + b == b;
    } else {
      LoweredAppend(lower, a[1..], b);
      assert (a + b)[1..] == a[1..] + b;
    }
  }

  lemma {:induction false} EscapedAppend(a: string, b: string)
    ensures Escaped(a + b) == Escaped(a) + Escaped(b)
  {
    if a == "" {
      assert a + b == b;
    } else {
      EscapedAppend(a[1..], b);
      assert (a + b)[1..] == a[1..] + b;
    }
  }

  lemma {:induction false} PlainEscaped(s: string)
    requires Plain(s)
    ensures Escaped(s) == s
  {
    if s != "" { PlainEscaped(s[1..]); }
  }

  lemma LowerSpecial(lower: char -> string, c: char)
    requires LowersChars(lower) && Special(c)
    ensures Lowered(lower, [c]) == [c]
  {
    assert lower(c) == [c] && [c][1..] == "";
  }

  /** Lower-casing an escaped character escapes the lower-cased one. */
  lemma LowerEscapedChar(lower: char -> string, c: char)
    requires LowersChars(lower)
    ensures Lowered(lower, EscapedChar(c)) == Escaped(lower(c))
  {
    if Special(c) {
      LowerSpecial(lower, c);
      LowerSpecial(lower, ESCAPE);
      LoweredAppend(lower, [ESCAPE], [c]);
      assert [ESCAPE] + [c] == [ESCAPE, c] && lower(c) == [c] && [c][1..] == "";
    } else {
      PlainEscaped(lower(c));
      assert EscapedChar(c) == [c] && [c][1..] == "";
    }
  }

  lemma {:induction false} LowerEscaped(lower: char -> string, term: string)
    requires LowersChars(lower)
    ensures Lowered(lower, Escaped(term)) == Escaped(Lowered(lower, term))
  {
    if term != "" {
      LowerEscaped(lower, term[1..]);
      LowerEscapedChar(lower, term[0]);
      LoweredAppend(lower, EscapedChar(term[0]), Escaped(term[1..]));
      EscapedAppend(lower(term[0]), Lowered(lower, term[1..]));
    }
  }

  lemma LowerPattern(lower: char -> string, term: string)
    requires LowersChars(lower) && term != ""
    ensures Lowered(lower, term) != ""
    ensures Lowered(lower, LiteralPattern(term)) == LiteralPattern(Lowered(lower, term))
  {
    LowerEscaped(lower, term);
    LowerSpecial(lower, ANY_TEXT);
    LoweredAppend(lower, [ANY_TEXT] + Escaped(term), [ANY_TEXT]);
    LoweredAppend(lower, [ANY_TEXT], Escaped(term));
    assert lower(term[0]) != "";
  }

  /** Every lower-casing character by character is a folding, whatever it does to lengths. */
  lemma CharwiseFolds(lower: char -> string)
    requires LowersChars(lower)
    ensures Folds((s: string) => Lowered(lower, s))
  {
    forall term | term != ""
      ensures Lowered(lower, term) != ""
      ensures Lowered(lower, LiteralPattern(term)) == LiteralPattern(Lowered(lower, term))
    {
      LowerPattern(lower, term);
    }
  }

  // ---- What a search finds

  predicate OccursAt(text: string, term: string, i: nat) {
    i + |term| <= |text| && text[i..i + |term|] == term
  }

  predicate Contains(text: string, term: string) {
    exists i: nat :: i <= |text| && OccursAt(text, term, i)
  }

  /** An escaped character in front of a pattern stands for that one character. */
  lemma EscapedCharMatches(c: char, rest: string)
    requires WellFormed(rest)
    ensures WellFormed(EscapedChar(c) + rest)
    ensures forall text :: Like(text, EscapedChar(c) + rest) <==> text != "" && text[0] == c && Like(text[1..], rest)
  {
    assert (EscapedChar(c) + rest)[|EscapedChar(c)|..] == rest;
  }

  lemma {:induction false} EscapedWellFormed(term: string, rest: string)
    requires WellFormed(rest)
    ensures WellFormed(Escaped(term) + rest)
  {
    if term == "" {
      assert Escaped(term) + rest == rest;
    } else {
      EscapedWellFormed(term[1..], rest);
      EscapedCharMatches(term[0], Escaped(term[1..]) + rest);
      assert Escaped(term) + rest == EscapedChar(term[0]) + (Escaped(term[1..]) + rest);
    }
  }

  lemma AnyTextWellFormed(rest: string)
    requires WellFormed(rest)
    ensures WellFormed([ANY_TEXT] + rest)
  {
    assert ([ANY_TEXT] + rest)[1..] == rest;
  }

  lemma PatternWellFormed(term: string)
    ensures WellFormed(LiteralPattern(term))
  {
    if term != "" {
      AnyTextWellFormed("");
      assert [ANY_TEXT] + "" == [ANY_TEXT];
      EscapedWellFormed(term, [ANY_TEXT]);
      AnyTextWellFormed(Escaped(term) + [ANY_TEXT]);
      assert LiteralPattern(term) == [ANY_TEXT] + (Escaped(term) + [ANY_TEXT]);
    }
  }

  lemma {:induction false} AnyText(text: string)
    ensures WellFormed([ANY_TEXT]) && Like(text, [ANY_TEXT])
  {
    if text != "" { AnyText(text[1..]); }
  }

  /** The escaped term matches itself and nothing else; what follows is matched by the rest. */
  lemma {:induction false} EscapedMatches(text: string, term: string, rest: string)
    requires WellFormed(rest)
    ensures WellFormed(Escaped(term) + rest)
    ensures Like(text, Escaped(term) + rest) <==> term <= text && Like(text[|term|..], rest)
  {
    EscapedWellFormed(term, rest);
    if term == "" {
      assert Escaped(term) + rest == rest && text[0..] == text;
    } else {
      EscapedWellFormed(term[1..], rest);
      EscapedCharMatches(term[0], Escaped(term[1..]) + rest);
      assert Escaped(term) + rest == EscapedChar(term[0]) + (Escaped(term[1..]) + rest);
      if text != "" {
        EscapedMatches(text[1..], term[1..], rest);
        PrefixFirst(text, term);
      }
    }
  }

  lemma PrefixFirst(text: string, term: string)
    requires text != "" && term != ""
    ensures term <= text <==> term[0] == text[0] && term[1..] <= text[1..]
    ensures term <= text ==> text[1..][|term| - 1..] == text[|term|..]
  {
    if term[0] == text[0] && term[1..] <= text[1..] {
      assert term == [term[0]] + term[1..] && text == [text[0]] + text[1..];
    }
  }

  lemma ContainsFirst(text: string, term: string)
    requires text != ""
    ensures Contains(text, term) <==> term <= text || Contains(text[1..], term)
  {
    if Contains(text, term) {
      var i: nat :| i <= |text| && OccursAt(text, term, i);
      if i == 0 {
        assert text[0..|term|] == text[..|term|];
      } else {
        assert text[1..][i - 1..i - 1 + |term|] == text[i..i + |term|];
        assert OccursAt(text[1..], term, i - 1);
      }
    }
    if term <= text { assert OccursAt(text, term, 0); }
    if Contains(text[1..], term) {
      var i: nat :| i <= |text[1..]| && OccursAt(text[1..], term, i);
      assert text[1..][i..i + |term|] == text[i + 1..i + 1 + |term|];
      assert OccursAt(text, term, i + 1);
    }
  }

  lemma {:induction false} PatternFinds(text: string, term: string)
    requires term != ""
    ensures WellFormed(LiteralPattern(term))
    ensures Like(text, LiteralPattern(term)) <==> Contains(text, term)
    decreases |text|
  {
    PatternWellFormed(term);
    AnyText("");
    var pattern := LiteralPattern(term);
    assert pattern[1..] == Escaped(term) + [ANY_TEXT];
    EscapedMatches(text, term, [ANY_TEXT]);
    if term <= text { AnyText(text[|term|..]); }
    if text != "" {
      PatternFinds(text[1..], term);
      ContainsFirst(text, term);
    } else {
      assert !OccursAt(text, term, 0);
    }
  }

  lemma FoldedWellFormed(fold: string -> string, term: string)
    requires Folds(fold) && term != ""
    ensures WellFormed(fold(LiteralPattern(term)))
  {
    PatternWellFormed(fold(term));
  }

  /** `text ILIKE pattern` for the two texts as they are stored and typed. */
  predicate ILike(fold: string -> string, text: string, pattern: string)
    requires WellFormed(fold(pattern))
  {
    Like(fold(text), fold(pattern))
  }

  /**
   * A search pattern finds exactly the texts in which the term occurs, letter case aside, and no
   * term makes a pattern that the database would refuse.
   */
  lemma SearchFindsTerm(fold: string -> string, text: string, term: string)
    requires Folds(fold) && term != ""
    ensures WellFormed(fold(LiteralPattern(term)))
    ensures ILike(fold, text, LiteralPattern(term)) <==> Contains(fold(text), fold(term))
  {
    FoldedWellFormed(fold, term);
    PatternFinds(fold(text), fold(term));
  }

  /** Different terms ask for different patterns, and only the empty term filters nothing. */
  lemma PatternsDiffer(a: string, b: string)
    ensures LiteralPattern(a) == LiteralPattern(b) <==> a == b
  {
    if a != "" && b != "" && LiteralPattern(a) == LiteralPattern(b) {
      PatternFinds(a, a);
      PatternFinds(a, b);
      PatternFinds(b, a);
      PatternFinds(b, b);
      assert a[0..|a|] == a && OccursAt(a, a, 0);
      assert b[0..|b|] == b && OccursAt(b, b, 0);
    }
  }
}
