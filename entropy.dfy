/**
 * Shannon entropy of a password over its own character frequencies
 * (`calculate_entropy`).
 *
 * The character histogram is built exactly as the source builds it: one
 * pass over the password filling a dictionary. A Python dictionary keeps its
 * keys in insertion order and `values()` yields the counts in that order, so
 * the dictionary is modelled as the sequence of its keys in insertion order
 * together with the map from key to count.
 *
 * `math.log2` is floating point and is not modelled: it is a parameter
 * `log2` of the entropy computation, and the lemmas below state what they
 * need of it.
 */
module Entropy {

  /** Number of occurrences of `c` in `s`. */
  function Count(s: string, c: char): (n: nat)
    ensures n <= |s|
    ensures n > 0 <==> c in s
  {
    if s == [] then 0
    else
      assert s == s[..|s| - 1] + [s[|s| - 1]];
      Count(s[..|s| - 1], c) + (if s[|s| - 1] == c then 1 else 0)
  }

  /** The distinct characters of `s`, in the order of their first occurrence. */
  function Distinct(s: string): (d: seq<char>)
    ensures forall c :: c in d <==> c in s
    ensures forall i, j :: 0 <= i < j < |d| ==> d[i] != d[j]
  {
    if s == [] then []
    else
      assert s == s[..|s| - 1] + [s[|s| - 1]];
      var d := Distinct(s[..|s| - 1]);
      if s[|s| - 1] in d then d else d + [s[|s| - 1]]
  }

  /** Sum of the counts in `s` of the characters `keys`. */
  function SumCounts(s: string, keys: seq<char>): nat
  {
    if keys == [] then 0 else SumCounts(s, keys[..|keys| - 1]) + Count(s, keys[|keys| - 1])
  }

  /** Appending `x` to `s` adds one to the sum exactly when `x` is one of the (distinct) keys. */
  lemma {:induction false} SumCountsAppend(s: string, x: char, keys: seq<char>)
    requires forall i, j :: 0 <= i < j < |keys| ==> keys[i] != keys[j]
    ensures SumCounts(s + [x], keys) == SumCounts(s, keys) + (if x in keys then 1 else 0)
  {
    var t := s + [x];
    assert t[..|t| - 1] == s;
    if keys != [] {
      var init := keys[..|keys| - 1];
      SumCountsAppend(s, x, init);
      assert keys == init + [keys[|keys| - 1]];
      assert x in keys <==> x in init || x == keys[|keys| - 1];
    }
  }

  /** The counts of the distinct characters of `s` add up to the length of `s`. */
  lemma {:induction false} CountsSumToLength(s: string)
    ensures SumCounts(s, Distinct(s)) == |s|
  {
    if s != [] {
      var init, x := s[..|s| - 1], s[|s| - 1];
      assert s == init + [x];
      var d := Distinct(init);
      CountsSumToLength(init);
      SumCountsAppend(init, x, d);
      if x !in d {
        assert (d + [x])[..|d|] == d;
        assert Count(init, x) == 0;
      }
    }
  }

  /**
   * The counting loop of `calculate_entropy`: `char_count[char] =
   * char_count.get(char, 0) + 1` for every character. Returns the dictionary
   * as its keys in insertion order and its key-to-count map.
   */
  method CountCharacters(password: string) returns (keys: seq<char>, charCount: map<char, nat>)
    ensures keys == Distinct(password)
    ensures forall c :: c in charCount <==> c in password
    ensures forall c :: c in charCount ==> 1 <= charCount[c] == Count(password, c)
    ensures SumCounts(password, keys) == |password|
  {
    keys, charCount := [], map[];
    for i := 0 to |password|
      invariant keys == Distinct(password[..i])
      invariant forall c :: c in charCount <==> c in password[..i]
      invariant forall c :: c in charCount ==> charCount[c] == Count(password[..i], c)
    {
      var ch := password[i];
      assert password[..i + 1][..i] == password[..i];
      if ch !in charCount {
        keys := keys + [ch];
      }
      charCount := charCount[ch := (if ch in charCount then charCount[ch] else 0) + 1];
    }
    assert password[..|password|] == password;
    CountsSumToLength(password);
  }

  /** The probability `count / length` of a character that occurs `count` times in `length`. */
  function Probability(count: nat, length: nat): real
    requires length > 0
  {
    count as real / length as real
  }

  /** `p * log2(p)`, the term `calculate_entropy` subtracts for a character of probability `p`. */
  function PLogP(p: real, log2: real -> real): real
  {
    p * log2(p)
  }

  /** `-p * log2(p)` summed over the counts in `s` of the first `n` characters of `keys`. */
  function EntropySum(s: string, keys: seq<char>, n: nat, log2: real -> real): real
    requires |s| > 0 && n <= |keys|
  {
    if n == 0 then 0.0
    else EntropySum(s, keys, n - 1, log2) - PLogP(Probability(Count(s, keys[n - 1]), |s|), log2)
  }

  /** A character that makes up the whole password has probability 1. */
  lemma CertainProbability(n: nat)
    requires n > 0
    ensures Probability(n, n) == 1.0
  {
  }

  /** The Shannon entropy of `s`, in bits per character: 0 for the empty password. */
  function ShannonEntropy(s: string, log2: real -> real): real
  {
    if s == [] then 0.0 else EntropySum(s, Distinct(s), |Distinct(s)|, log2)
  }

  /** `calculate_entropy`: a counting pass, then one term per dictionary value. */
  method CalculateEntropy(password: string, log2: real -> real) returns (entropy: real)
    ensures password == [] ==> entropy == 0.0
    ensures entropy == ShannonEntropy(password, log2)
  {
    if password == [] {
      return 0.0;
    }
    var keys, charCount := CountCharacters(password);
    entropy := 0.0;
    var length := |password|;
    for k := 0 to |keys|
      invariant entropy == EntropySum(password, keys, k, log2)
    {
      var probability := Probability(charCount[keys[k]], length);
      entropy := entropy - PLogP(probability, log2);
    }
  }

  /** A password made of one repeated character has no uncertainty: its entropy is 0. */
  lemma SingleSymbolHasNoEntropy(s: string, log2: real -> real)
    requires |s| > 0 && forall i :: 0 <= i < |s| ==> s[i] == s[0]
    requires log2(1.0) == 0.0
    ensures ShannonEntropy(s, log2) == 0.0
  {
    RunFacts(s);
    var d := Distinct(s);
    calc {
      ShannonEntropy(s, log2);
      EntropySum(s, d, 1, log2);
      0.0 - PLogP(Probability(Count(s, s[0]), |s|), log2);
      { CertainProbability(|s|); }
      0.0 - PLogP(1.0, log2);
    }
  }

  /** The only distinct character of a run is its character, and it occurs |s| times. */
  lemma {:induction false} RunFacts(s: string)
    requires |s| > 0 && forall i :: 0 <= i < |s| ==> s[i] == s[0]
    ensures Distinct(s) == [s[0]] && Count(s, s[0]) == |s|
  {
    var init := s[..|s| - 1];
    if |init| > 0 {
      RunFacts(init);
    }
  }

  /** Entropy never goes below 0 when `log2` is never positive on `(0, 1]`. */
  lemma EntropyNonNegative(s: string, log2: real -> real)
    requires forall p: real :: 0.0 < p <= 1.0 ==> log2(p) <= 0.0
    ensures ShannonEntropy(s, log2) >= 0.0
  {
    if s != [] {
      EntropySumNonNegative(s, Distinct(s), |Distinct(s)|, log2);
    }
  }

  lemma {:induction false} EntropySumNonNegative(s: string, keys: seq<char>, n: nat, log2: real -> real)
    requires |s| > 0 && n <= |keys| && forall c :: c in keys ==> c in s
    requires forall p: real :: 0.0 < p <= 1.0 ==> log2(p) <= 0.0
    ensures EntropySum(s, keys, n, log2) >= 0.0
  {
    if n > 0 {
      EntropySumNonNegative(s, keys, n - 1, log2);
      TermNonPositive(Count(s, keys[n - 1]), |s|, log2);
    }
  }

  /** One term is never positive: the probability lies in `(0, 1]`, where `log2` is not positive. */
  lemma TermNonPositive(count: nat, length: nat, log2: real -> real)
    requires 0 < count <= length
    requires forall p: real :: 0.0 < p <= 1.0 ==> log2(p) <= 0.0
    ensures PLogP(Probability(count, length), log2) <= 0.0
  {
  }

  /** Two different characters carry one bit per character when `log2(1/2)` is -1. */
  lemma TwoSymbolsOneBit(s: string, log2: real -> real)
    requires |s| == 2 && s[0] != s[1]
    requires log2(0.5) == -1.0
    ensures ShannonEntropy(s, log2) == 1.0
  {
    var d := [s[0], s[1]];
    var a := s[..|s| - 1];
    assert a == [s[0]] && a[..|a| - 1] == [];
    assert Distinct(a) == [s[0]] && Count(a, s[0]) == 1 && Count(a, s[1]) == 0;
    assert Distinct(s) == d && Count(s, s[0]) == 1 && Count(s, s[1]) == 1;
    assert PLogP(Probability(1, 2), log2) == -0.5 by {
      assert Probability(1, 2) == 0.5;
    }
    calc {
      ShannonEntropy(s, log2);
      EntropySum(s, d, 2, log2);
      EntropySum(s, d, 1, log2) - PLogP(Probability(1, 2), log2);
      0.0 - PLogP(Probability(1, 2), log2) - PLogP(Probability(1, 2), log2);
    }
  }
}
