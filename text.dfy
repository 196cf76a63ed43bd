/**
 * The few operations on Python strings that the launcher relies on:
 * `str.split()` with no separator, `str.lower()` compared with "y",
 * and `str.endswith`.
 */
module Text {

  /** The characters for which Python's `str.isspace()` holds; `str.split()` splits on runs of them. */
  predicate IsSpace(c: char) {
    c == ' ' || ('\t' <= c <= '\r') || ('\U{1c}' <= c <= '\U{1f}') || c == '\U{85}' || c == '\U{a0}'
    || c == '\U{1680}' || ('\U{2000}' <= c <= '\U{200a}') || c == '\U{2028}' || c == '\U{2029}'
    || c == '\U{202f}' || c == '\U{205f}' || c == '\U{3000}'
  }

  predicate NoSpace(s: string) {
    forall i :: 0 <= i < |s| ==> !IsSpace(s[i])
  }

  predicate AllSpace(s: string) {
    forall i :: 0 <= i < |s| ==> IsSpace(s[i])
  }

  /** `s` with its leading whitespace removed. */
  function SkipSpace(s: string): (r: string)
    ensures |r| <= |s|
    ensures AllSpace(s[..|s| - |r|])
    ensures r == [] || !IsSpace(r[0])
  {
    if s != [] && IsSpace(s[0]) then SkipSpace(s[1..]) else s
  }

  /** What `SkipSpace` leaves is a suffix of its argument (kept out of its contract: it is costly wherever `Split` is unfolded). */
  lemma {:induction false} SkipSpaceSuffix(s: string)
    ensures SkipSpace(s) == s[|s| - |SkipSpace(s)|..]
    decreases |s|
  {
    if s != [] && IsSpace(s[0]) {
      SkipSpaceSuffix(s[1..]);
    }
  }

  /** What `Split` yields: a non-empty run of non-whitespace characters. */
  predicate IsToken(w: string) {
    w != [] && NoSpace(w)
  }

  /** The longest prefix of `s` that holds no whitespace. */
  function Word(s: string): (w: string)
    ensures w <= s && NoSpace(w)
    ensures |w| == |s| || IsSpace(s[|w|])
    ensures s != [] && !IsSpace(s[0]) ==> IsToken(w)
  {
    if s == [] || IsSpace(s[0]) then [] else [s[0]] + Word(s[1..])
  }

  /**
   * Python's `s.split()`: the maximal runs of non-whitespace characters, in order.
   * Leading, trailing and repeated whitespace produce no empty tokens.
   */
  function Split(s: string): (tokens: seq<string>)
    ensures forall w <- tokens :: IsToken(w)
    decreases |s|
  {
    var t := SkipSpace(s);
    if t == [] then []
    else
      var w := Word(t);
      [w] + Split(t[|w|..])
  }

  /** `Split` of a string is empty exactly when the string is all whitespace (the empty string included). */
  lemma {:induction false} SplitEmptyIff(s: string)
    ensures Split(s) == [] <==> AllSpace(s)
  {
    var t := SkipSpace(s);
    if t != [] {
      SkipSpaceSuffix(s);
      assert s[|s| - |t|] == t[0];
    }
  }

  lemma {:induction false} WordOfSeparated(w: string, s: string)
    requires NoSpace(w)
    requires s == [] || IsSpace(s[0])
    ensures Word(w + s) == w
    decreases |w|
  {
    if w != [] {
      assert (w + s)[1..] == w[1..] + s;
      WordOfSeparated(w[1..], s);
    } else {
      assert w + s == s;
    }
  }

  /** A non-empty word followed by whitespace (or nothing) is split off as the first token. */
  lemma SplitSeparated(w: string, tail: string)
    requires w != [] && NoSpace(w)
    requires tail == [] || IsSpace(tail[0])
    ensures Split(w + tail) == [w] + Split(tail)
  {
    assert (w + tail)[0] == w[0];
    assert SkipSpace(w + tail) == w + tail;
    WordOfSeparated(w, tail);
    assert (w + tail)[|w|..] == tail;
  }

  /** A leading whitespace character changes nothing. */
  lemma SplitLeadingSpace(c: char, s: string)
    requires IsSpace(c)
    ensures Split([c] + s) == Split(s)
  {
    assert ([c] + s)[1..] == s;
    assert SkipSpace([c] + s) == SkipSpace(s);
  }

  /** Leading whitespace of any length and kind changes nothing. */
  lemma {:induction false} SplitSkipsSpace(ws: string, s: string)
    requires AllSpace(ws)
    ensures Split(ws + s) == Split(s)
    decreases |ws|
  {
    if ws == [] {
      assert ws + s == s;
    } else {
      assert ws + s == [ws[0]] + (ws[1..] + s);
      SplitLeadingSpace(ws[0], ws[1..] + s);
      SplitSkipsSpace(ws[1..], s);
    }
  }

  /**
   * The tokens as a user may type them: `gaps[i]` before `tokens[i]`, and
   * `trail` after the last one.
   */
  function Spaced(gaps: seq<string>, tokens: seq<string>, trail: string): string
    requires |gaps| == |tokens|
  {
    if tokens == [] then trail
    else gaps[0] + (tokens[0] + Spaced(gaps[1..], tokens[1..], trail))
  }

  /**
   * `Split` recovers the tokens from any such typing: whitespace of any kind
   * and length between the tokens (at least one character) and at either end.
   */
  lemma {:induction false} SplitSpaced(gaps: seq<string>, tokens: seq<string>, trail: string)
    requires |gaps| == |tokens|
    requires forall w <- tokens :: IsToken(w)
    requires forall i :: 0 <= i < |gaps| ==> AllSpace(gaps[i])
    requires forall i :: 1 <= i < |gaps| ==> gaps[i] != []
    requires AllSpace(trail)
    ensures Split(Spaced(gaps, tokens, trail)) == tokens
    decreases |tokens|
  {
    if tokens == [] {
      SplitEmptyIff(trail);
    } else {
      var w := tokens[0];
      assert IsToken(w);
      var rest := Spaced(gaps[1..], tokens[1..], trail);
      if |tokens| > 1 {
        assert AllSpace(gaps[1]) && gaps[1] != [];
        assert rest[0] == gaps[1][0];
      }
      calc {
        Split(Spaced(gaps, tokens, trail));
        Split(gaps[0] + (w + rest));
        { SplitSkipsSpace(gaps[0], w + rest); }
        Split(w + rest);
        { SplitSeparated(w, rest); }
        [w] + Split(rest);
        { SplitSpaced(gaps[1..], tokens[1..], trail); }
        [w] + tokens[1..];
        tokens;
      }
    }
  }

  /** Two tokens typed with a space between them split back into those two. */
  lemma SplitPair(a: string, b: string)
    requires IsToken(a) && IsToken(b)
    ensures Split(a + (" " + b)) == [a, b]
  {
    SplitSeparated(a, " " + b);
    assert " " + b == [' '] + b;
    SplitLeadingSpace(' ', b);
    assert b + "" == b;
    SplitSeparated(b, "");
  }

  function LowerChar(c: char): char {
    if 'A' <= c <= 'Z' then (c as int + 32) as char else c
  }

  /** Python's `s.lower()` on ASCII letters; other characters are left as they are. */
  function Lower(s: string): (r: string)
    ensures |r| == |s|
    ensures forall i :: 0 <= i < |s| ==> r[i] == LowerChar(s[i])
  {
    if s == [] then [] else [LowerChar(s[0])] + Lower(s[1..])
  }

  /** An answer the launcher takes as "yes": one whose lower-case form is "y". */
  predicate Affirmative(answer: string) {
    Lower(answer) == "y"
  }

  /** Only "y" and "Y" are affirmative; every other answer, the empty one included, is a "no". */
  lemma AffirmativeIff(answer: string)
    ensures Affirmative(answer) <==> answer == "y" || answer == "Y"
  {
    if Affirmative(answer) {
      assert |answer| == 1;
      assert Lower(answer)[0] == LowerChar(answer[0]) == 'y';
      assert answer == [answer[0]];
    }
  }

  /**
   * `Split` keeps every non-whitespace character: one occurs in some token
   * exactly when it occurs in the string.
   */
  lemma {:induction false} SplitKeeps(s: string, c: char)
    requires !IsSpace(c)
    ensures (exists w <- Split(s) :: c in w) <==> c in s
    decreases |s|
  {
    var t := SkipSpace(s);
    SkipSpaceKeeps(s, c);
    if t != [] {
      var w := Word(t);
      var u := t[|w|..];
      assert Split(s) == [w] + Split(u);
      assert t == w + u;
      SplitKeeps(u, c);
      if c in w {
        assert w in Split(s);
      }
      if exists v <- Split(u) :: c in v {
        var v :| v in Split(u) && c in v;
        assert v in Split(s);
      }
    }
  }

  lemma {:induction false} SkipSpaceKeeps(s: string, c: char)
    requires !IsSpace(c)
    ensures c in SkipSpace(s) <==> c in s
    decreases |s|
  {
    if s != [] && IsSpace(s[0]) {
      assert s == [s[0]] + s[1..];
      SkipSpaceKeeps(s[1..], c);
    }
  }

  /** Python's `s.endswith(suffix)`. */
  predicate EndsWith(s: string, suffix: string) {
    |suffix| <= |s| && s[|s| - |suffix|..] == suffix
  }

  /** `s` ends with `suffix` exactly when it is some string followed by `suffix`. */
  lemma EndsWithIff(s: string, suffix: string)
    ensures EndsWith(s, suffix) <==> exists prefix :: s == prefix + suffix
  {
    if EndsWith(s, suffix) {
      assert s == s[..|s| - |suffix|] + suffix;
    }
  }
}
