/**
 * `generate_strong_password`: `length` independent draws from the printable
 * ASCII letters, digits and punctuation.
 *
 * The randomness of `random.choice` is not modelled: the draws are a
 * parameter, the sequence of indices into the alphabet that `random.choice`
 * returned. What the model states is what holds for every run: the length of
 * the result, that every character comes from the alphabet, and that every
 * string over the alphabet of that length is a possible result.
 */
module Generator {

  /** The ASCII characters from `lo` to `hi` in code point order. */
  function CharRange(lo: char, hi: char): (r: string)
    requires lo <= hi && hi as int < 128
    ensures |r| == hi as int - lo as int + 1
    ensures forall i :: 0 <= i < |r| ==> r[i] as int == lo as int + i
  {
    if lo == hi then [lo]
    else CharRange(lo, (hi as int - 1) as char) + [hi]
  }

  /** A character is in a range exactly when it lies between its ends. */
  lemma InCharRange(lo: char, hi: char, c: char)
    requires lo <= hi && hi as int < 128
    ensures c in CharRange(lo, hi) <==> lo <= c <= hi
  {
  }

  /** `string.ascii_letters`: the small letters, then the capitals. */
  const Letters: string := CharRange('a', 'z') + CharRange('A', 'Z')

  /** `string.digits`. */
  const Digits: string := CharRange('0', '9')

  /** `string.punctuation`: the ASCII punctuation, in code point order. */
  const Punctuation: string := CharRange('!', '/') + CharRange(':', '@') + CharRange('[', '`') + CharRange('{', '~')

  /** `chars` of the source: letters, then digits, then punctuation. */
  const Alphabet: string := Letters + Digits + Punctuation

  /** The default `length` argument. */
  const DefaultLength: int := 16

  /** The number of draws: `range(length)` is empty when `length` is not positive. */
  function Draws(length: int): nat
  {
    if length > 0 then length else 0
  }

  /** The password built from the draws: the `i`-th character is the `i`-th draw. */
  function GenerateStrongPassword(length: int, picks: seq<nat>): (r: string)
    requires |picks| == Draws(length)
    requires forall i :: 0 <= i < |picks| ==> picks[i] < |Alphabet|
    ensures |r| == Draws(length)
    ensures forall i :: 0 <= i < |r| ==> r[i] in Alphabet
  {
    seq(|picks|, i requires 0 <= i < |picks| => Alphabet[picks[i]])
  }

  /** The alphabet is exactly the printable ASCII characters other than space. */
  lemma AlphabetIsPrintable(c: char)
    ensures c in Alphabet <==> '!' <= c <= '~'
  {
    InCharRange('a', 'z', c);
    InCharRange('A', 'Z', c);
    InCharRange('0', '9', c);
    InCharRange('!', '/', c);
    InCharRange(':', '@', c);
    InCharRange('[', '`', c);
    InCharRange('{', '~', c);
  }

  /** There are 94 of them. */
  lemma AlphabetSize()
    ensures |Alphabet| == 94
  {
  }

  /** The default call draws 16 characters. */
  lemma DefaultLengthSixteen(picks: seq<nat>)
    requires |picks| == Draws(DefaultLength)
    requires forall i :: 0 <= i < |picks| ==> picks[i] < |Alphabet|
    ensures |GenerateStrongPassword(DefaultLength, picks)| == 16
  {
  }

  /** Every string of the requested length over the alphabet can come out. */
  lemma EveryPasswordReachable(length: int, s: string)
    requires |s| == Draws(length)
    requires forall i :: 0 <= i < |s| ==> s[i] in Alphabet
    ensures exists picks: seq<nat> ::
      |picks| == Draws(length) &&
      (forall i :: 0 <= i < |picks| ==> picks[i] < |Alphabet|) &&
      GenerateStrongPassword(length, picks) == s
  {
    var picks := seq(|s|, i requires 0 <= i < |s| => var j :| 0 <= j < |Alphabet| && Alphabet[j] == s[i]; j);
    assert GenerateStrongPassword(length, picks) == s;
  }
}
