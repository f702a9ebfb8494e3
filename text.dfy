/**
 * Ordinal string operations the engine relies on: ToLower, String.Contains
 * (substring containment) and the whole-word test that the regular expression
 * `\b<word>\b` performs in .NET.
 */
module Text {

  /** ToLower on one character; only the ASCII capitals A-Z have a lower-case form here. */
  function LowerChar(c: char): char
  {
    if 'A' <= c <= 'Z' then (c as int + 32) as char else c
  }

  predicate IsUpper(c: char)
  {
    'A' <= c <= 'Z'
  }

  /** ToLower on a string, character by character. */
  function Lower(s: string): (r: string)
    ensures |r| == |s|
  {
    if s == [] then [] else [LowerChar(s[0])] + Lower(s[1..])
  }

  /** Lowering twice is lowering once. */
  lemma {:induction false} LowerIdempotent(s: string)
    ensures Lower(Lower(s)) == Lower(s)
  {
    if s != [] {
      LowerIdempotent(s[1..]);
      assert Lower(s)[1..] == Lower(s[1..]);
    }
  }

  /** A string without capitals is its own lower-case form. */
  lemma {:induction false} LowerOfLowercase(s: string)
    requires forall i :: 0 <= i < |s| ==> !IsUpper(s[i])
    ensures Lower(s) == s
  {
    if s != [] {
      LowerOfLowercase(s[1..]);
    }
  }

  /** `s` occurs in `t` starting at index `i`. */
  predicate OccursAt(t: string, s: string, i: int)
  {
    0 <= i && i + |s| <= |t| && t[i..i + |s|] == s
  }

  /** String.Contains (ordinal), scanning the start positions from left to right. */
  function Contains(t: string, s: string): bool
  {
    ContainsFrom(t, s, 0)
  }

  function ContainsFrom(t: string, s: string, i: nat): bool
    decreases |t| - i
  {
    if OccursAt(t, s, i) then true
    else if i + |s| >= |t| then false
    else ContainsFrom(t, s, i + 1)
  }

  /** The scan from `i` succeeds exactly when `s` occurs at some position from `i` on. */
  lemma {:induction false} ContainsFromSpec(t: string, s: string, i: nat)
    ensures ContainsFrom(t, s, i) <==> exists j :: i <= j && OccursAt(t, s, j)
    decreases |t| - i
  {
    if !OccursAt(t, s, i) && i + |s| < |t| {
      ContainsFromSpec(t, s, i + 1);
      assert forall j :: i <= j && OccursAt(t, s, j) ==> j == i || i + 1 <= j;
    }
  }

  /** `t` contains `s` exactly when `s` occurs in `t` at some index; the empty string occurs everywhere. */
  lemma ContainsSpec(t: string, s: string)
    ensures Contains(t, s) <==> exists i :: OccursAt(t, s, i)
  {
    ContainsFromSpec(t, s, 0);
  }

  /** Whatever surrounds it, a string contains each of its middle parts. */
  lemma ContainsInside(a: string, s: string, b: string)
    ensures Contains(a + s + b, s)
  {
    assert (a + s + b)[|a|..|a| + |s|] == s;
    assert OccursAt(a + s + b, s, |a|);
    ContainsSpec(a + s + b, s);
  }

  /**
   * The characters that .NET's `\w` class (and so `\b`) treats as word
   * characters, restricted to the ones this engine meets: ASCII letters,
   * digits, the underscore and the CJK unified ideographs.
   */
  predicate IsWordChar(c: char)
  {
    || 'a' <= c <= 'z'
    || 'A' <= c <= 'Z'
    || '0' <= c <= '9'
    || c == '_'
    || 0x4E00 <= c as int <= 0x9FFF
  }

  /** The character just before position `p` exists and is a word character. */
  predicate WordBefore(t: string, p: int)
  {
    0 < p <= |t| && IsWordChar(t[p - 1])
  }

  /** The character at position `p` exists and is a word character. */
  predicate WordAfter(t: string, p: int)
  {
    0 <= p < |t| && IsWordChar(t[p])
  }

  /** `\b` holds at position `p`: exactly one of its two neighbours is a word character. */
  predicate Boundary(t: string, p: int)
  {
    WordBefore(t, p) != WordAfter(t, p)
  }

  /** `\b<w>\b` matches in `t` at index `i`. */
  predicate WholeWordAt(t: string, w: string, i: int)
  {
    OccursAt(t, w, i) && Boundary(t, i) && Boundary(t, i + |w|)
  }

  /**
   * A word that starts and ends with word characters, set between non-word
   * characters (or the ends of the text), matches as a whole word there.
   */
  lemma WholeWordBetween(a: string, w: string, b: string)
    requires w != [] && IsWordChar(w[0]) && IsWordChar(w[|w| - 1])
    requires a == [] || !IsWordChar(a[|a| - 1])
    requires b == [] || !IsWordChar(b[0])
    ensures WholeWordAt(a + w + b, w, |a|)
  {
    var t := a + w + b;
    assert t[|a|..|a| + |w|] == w;
    assert t[|a|] == w[0] && t[|a| + |w| - 1] == w[|w| - 1];
    if a != [] {
      assert t[|a| - 1] == a[|a| - 1];
    }
    if b != [] {
      assert t[|a| + |w|] == b[0];
    }
  }

  /** Regex.IsMatch(t, `\b` + Regex.Escape(w) + `\b`), scanning the start positions from left to right. */
  function ContainsWholeWord(t: string, w: string): bool
  {
    WholeWordFrom(t, w, 0)
  }

  function WholeWordFrom(t: string, w: string, i: nat): bool
    decreases |t| - i
  {
    if WholeWordAt(t, w, i) then true
    else if i + |w| >= |t| then false
    else WholeWordFrom(t, w, i + 1)
  }

  /** The scan from `i` succeeds exactly when `\b<w>\b` matches at some position from `i` on. */
  lemma {:induction false} WholeWordFromSpec(t: string, w: string, i: nat)
    ensures WholeWordFrom(t, w, i) <==> exists j :: i <= j && WholeWordAt(t, w, j)
    decreases |t| - i
  {
    if !WholeWordAt(t, w, i) && i + |w| < |t| {
      WholeWordFromSpec(t, w, i + 1);
      assert forall j :: i <= j && WholeWordAt(t, w, j) ==> j == i || i + 1 <= j;
    }
  }

  /** The whole-word test succeeds exactly when `\b<w>\b` matches at some index of `t`. */
  lemma ContainsWholeWordSpec(t: string, w: string)
    ensures ContainsWholeWord(t, w) <==> exists i :: WholeWordAt(t, w, i)
  {
    WholeWordFromSpec(t, w, 0);
  }

  /** A whole-word match is in particular a substring match. */
  lemma WholeWordIsContained(t: string, w: string)
    requires ContainsWholeWord(t, w)
    ensures Contains(t, w)
  {
    ContainsWholeWordSpec(t, w);
    ContainsSpec(t, w);
  }

  /**
   * For a word that starts and ends with word characters, `\b` on both sides
   * means: the character before the match, if any, and the one after it, if
   * any, are not word characters.
   */
  lemma WholeWordNeighbours(t: string, w: string, i: int)
    requires |w| > 0 && IsWordChar(w[0]) && IsWordChar(w[|w| - 1])
    requires OccursAt(t, w, i)
    ensures WholeWordAt(t, w, i) <==>
              (i == 0 || !IsWordChar(t[i - 1])) && (i + |w| == |t| || !IsWordChar(t[i + |w|]))
  {
    assert t[i] == t[i..i + |w|][0] == w[0];
    assert t[i + |w| - 1] == t[i..i + |w|][|w| - 1] == w[|w| - 1];
  }

  /** "curable" occurs inside "incurable" but not as a whole word. */
  lemma IncurableIsNotCurable()
    ensures Contains("incurable", "curable")
    ensures !ContainsWholeWord("incurable", "curable")
  {
    assert OccursAt("incurable", "curable", 2);
    ContainsSpec("incurable", "curable");
    ContainsWholeWordSpec("incurable", "curable");
  }

  /** Substring containment finds "so" inside "also"; the whole-word test does not. */
  lemma AlsoContainsSo()
    ensures Contains("also", "so")
    ensures !ContainsWholeWord("also", "so")
  {
    assert OccursAt("also", "so", 2);
    ContainsSpec("also", "so");
    ContainsWholeWordSpec("also", "so");
  }
}
