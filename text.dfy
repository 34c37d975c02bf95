/**
 * Character tests behind the regular expressions of the password checker,
 * and the ASCII case folding used by `str.lower()` and `re.IGNORECASE`.
 *
 * Every regular expression of the checker is a search for one short
 * pattern anywhere in the password; each becomes an `exists` over the
 * positions of the string.
 */
module Text {

  /** Maps 'A'..'Z' to 'a'..'z' and leaves every other character alone. */
  function LowerChar(c: char): (r: char)
    ensures !IsUpper(r)
    ensures r != c <==> IsUpper(c)
    ensures IsUpper(c) ==> IsLower(r) && r as int - 'a' as int == c as int - 'A' as int
  {
    if 'A' <= c <= 'Z' then (c as int + 32) as char else c
  }

  /** The password with every ASCII capital replaced by its small letter. */
  function Lower(s: string): (r: string)
    ensures |r| == |s|
    ensures forall i :: 0 <= i < |s| ==> r[i] == LowerChar(s[i])
  {
    if s == [] then [] else Lower(s[..|s| - 1]) + [LowerChar(s[|s| - 1])]
  }

  /** Lowering leaves no capital, and changes the password exactly when it holds one. */
  lemma LowerRemovesCapitals(s: string)
    ensures !HasUpper(Lower(s))
    ensures Lower(s) != s <==> HasUpper(s)
  {
  }

  /** Lowering twice changes nothing more than lowering once. */
  lemma LowerIdempotent(s: string)
    ensures Lower(Lower(s)) == Lower(s)
  {
  }

  predicate IsUpper(c: char) { 'A' <= c <= 'Z' }

  predicate IsLower(c: char) { 'a' <= c <= 'z' }

  predicate IsDigit(c: char) { '0' <= c <= '9' }

  /** The characters of the class `[!@#$%^&*(),.?":{}|<>]`. */
  const Symbols: string := "!@#$%^&*(),.?\":{}|<>"

  predicate IsSymbol(c: char) { c in Symbols }

  /**
   * The four classes searched for are disjoint: a character is in at most
   * one of `[A-Z]`, `[a-z]`, `[0-9]` and the symbol class, which has 20
   * members.
   */
  lemma ClassesDisjoint(c: char)
    ensures |Symbols| == 20
    ensures IsUpper(c) ==> !IsLower(c) && !IsDigit(c) && !IsSymbol(c)
    ensures IsLower(c) ==> !IsDigit(c) && !IsSymbol(c)
    ensures IsDigit(c) ==> !IsSymbol(c)
  {
  }

  /** `re.search(r'[A-Z]', s)` finds a match. */
  predicate HasUpper(s: string) { exists i | 0 <= i < |s| :: IsUpper(s[i]) }

  /** `re.search(r'[a-z]', s)` finds a match. */
  predicate HasLower(s: string) { exists i | 0 <= i < |s| :: IsLower(s[i]) }

  /** `re.search(r'[0-9]', s)` finds a match. */
  predicate HasDigit(s: string) { exists i | 0 <= i < |s| :: IsDigit(s[i]) }

  /** `re.search(r'[!@#$%^&*(),.?":{}|<>]', s)` finds a match. */
  predicate HasSymbol(s: string) { exists i | 0 <= i < |s| :: IsSymbol(s[i]) }

  /**
   * `re.search(r'(.)\1{2,}', s)` finds a match: some character occurs three
   * times in a row. `.` does not match a newline, so a run of newlines does
   * not count.
   */
  predicate HasRun(s: string)
  {
    exists i | 0 <= i < |s| :: RunAt(s, i)
  }

  /** The character at `i` is not a newline and the next two repeat it. */
  predicate RunAt(s: string, i: nat)
  {
    i + 2 < |s| && s[i] != '\n' && s[i] == s[i + 1] && s[i + 1] == s[i + 2]
  }

  /** The alternatives of `(abc|123|qwe)`. */
  const Patterns: set<string> := {"abc", "123", "qwe"}

  /**
   * `re.search(r'(abc|123|qwe)', s, re.IGNORECASE)` finds a match: some
   * three consecutive characters, case folded, spell one of the patterns.
   */
  predicate HasPattern(s: string)
  {
    exists i | 0 <= i < |s| :: PatternAt(s, i)
  }

  /** The three characters starting at `i`, case folded, spell one of the patterns. */
  predicate PatternAt(s: string, i: nat)
  {
    i + 3 <= |s| && Lower(s[i..i + 3]) in Patterns
  }

  /** Case-sensitive: the three characters at `i` are one of the patterns. */
  predicate PlainPatternAt(t: string, i: nat)
  {
    i + 3 <= |t| && t[i..i + 3] in Patterns
  }

  /** `c` equals the pattern character `w` once case is ignored: `w` itself or, for a letter, its capital. */
  predicate SameIgnoringCase(c: char, w: char)
  {
    c == w || (IsLower(w) && c as int - 'A' as int == w as int - 'a' as int)
  }

  /** `t` is `w` with some of its small letters written as capitals. */
  predicate SameWordIgnoringCase(t: string, w: string)
  {
    |t| == |w| && forall k :: 0 <= k < |w| ==> SameIgnoringCase(t[k], w[k])
  }

  /** For a word without capitals, lowering gives the word exactly for its spellings with case ignored. */
  lemma LowersTo(t: string, w: string)
    requires forall k :: 0 <= k < |w| ==> !IsUpper(w[k])
    ensures Lower(t) == w <==> SameWordIgnoringCase(t, w)
  {
    if SameWordIgnoringCase(t, w) {
      assert forall k :: 0 <= k < |w| ==> Lower(t)[k] == w[k];
    }
  }

  /** The three characters at `i` spell `w` with case ignored. */
  predicate Spells(s: string, i: nat, w: string)
    requires |w| == 3
  {
    i + 3 <= |s| && forall k :: 0 <= k < 3 ==> SameIgnoringCase(s[i + k], w[k])
  }

  /**
   * The case-insensitive search is a plain search for the three patterns in
   * the lowered password, and at each position it accepts exactly the
   * spellings that differ from a pattern only by capitals.
   */
  lemma {:induction false} PatternIgnoresCase(s: string)
    ensures HasPattern(s) <==> exists i | 0 <= i < |s| :: PlainPatternAt(Lower(s), i)
    ensures HasPattern(s) <==> exists i | 0 <= i < |s| :: Spells(s, i, "abc") || Spells(s, i, "123") || Spells(s, i, "qwe")
  {
    forall i: nat | i + 3 <= |s|
      ensures PatternAt(s, i) <==> PlainPatternAt(Lower(s), i)
      ensures PatternAt(s, i) <==> Spells(s, i, "abc") || Spells(s, i, "123") || Spells(s, i, "qwe")
    {
      var w := Lower(s[i..i + 3]);
      assert Lower(s)[i..i + 3] == w;
      assert forall k :: 0 <= k < 3 ==> w[k] == LowerChar(s[i + k]);
      SpellsLowered(s, i, "abc");
      SpellsLowered(s, i, "123");
      SpellsLowered(s, i, "qwe");
    }
  }

  /** Spelling a pattern with case ignored is spelling it after lowering. */
  lemma SpellsLowered(s: string, i: nat, w: string)
    requires |w| == 3 && i + 3 <= |s|
    requires forall k :: 0 <= k < 3 ==> !IsUpper(w[k])
    ensures Spells(s, i, w) <==> Lower(s[i..i + 3]) == w
  {
  }

  /** The three characters at `i` are all `c`. */
  predicate TripleAt(s: string, i: nat, c: char)
  {
    i + 3 <= |s| && s[i..i + 3] == [c, c, c]
  }

  /** `(.)\1{2,}` matches exactly a non-newline character followed by two more of itself. */
  lemma RunIsTriple(s: string)
    ensures HasRun(s) <==> exists i, c | 0 <= i < |s| :: c != '\n' && TripleAt(s, i, c)
  {
    if HasRun(s) {
      var i :| 0 <= i < |s| && RunAt(s, i);
      assert TripleAt(s, i, s[i]);
    }
    if exists i, c | 0 <= i < |s| :: c != '\n' && TripleAt(s, i, c) {
      var i, c :| 0 <= i < |s| && c != '\n' && TripleAt(s, i, c);
      assert s[i] == s[i..i + 3][0] && s[i + 1] == s[i..i + 3][1] && s[i + 2] == s[i..i + 3][2];
      assert RunAt(s, i);
    }
  }

  /** Three newlines in a row are not a run, since `.` does not match a newline. */
  lemma NewlinesAreNotARun()
    ensures !HasRun("\n\n\n") && HasRun("aaa")
  {
    assert RunAt("aaa", 0);
  }
}
