/**
 * The additive password scorer `check_password_strength`.
 *
 * The method `CheckPasswordStrength` follows the source step by step: a
 * mutable `score` and a `feedback` list that each check may extend. The
 * functions beside it give the same outcome in closed form (a score as a sum
 * of independent bonuses and penalties, feedback as the checks that fired,
 * in evaluation order), and the lemmas state what `check_password_strength`
 * promises of that outcome for every password and every entropy value.
 */
module Checker {
  import opened Text
  import opened Entropy

  /** `COMMON_PASSWORDS`: a password that lowers to one of these is reset to score 0. */
  const CommonPasswords: set<string> := {"password", "123456", "qwerty", "admin", "letmein"}

  /** The three labels the scorer can return. */
  datatype Strength = Weak | Medium | Strong

  /** Position of a label from weakest to strongest. */
  function Order(s: Strength): nat
  {
    match s
    case Weak => 0
    case Medium => 1
    case Strong => 2
  }

  function Label(s: Strength): string
  {
    match s
    case Weak => "Weak"
    case Medium => "Medium"
    case Strong => "Strong"
  }

  /** One suggestion per check that can append to `feedback`, in evaluation order. */
  datatype Suggestion =
    | TooShort
    | AddUppercase
    | AddLowercase
    | AddNumbers
    | AddSpecial
    | AvoidRepeats
    | AvoidPatterns
    | CommonPassword
    | LacksRandomness

  /** The exact text the source appends for each suggestion. */
  function Message(s: Suggestion): string
  {
    match s
    case TooShort => "Password is too short. Use at least 12 characters for optimal security."
    case AddUppercase => "Add uppercase letters to increase complexity."
    case AddLowercase => "Add lowercase letters to increase complexity."
    case AddNumbers => "Add numbers to increase complexity."
    case AddSpecial => "Add special characters (e.g., !, @, #) for better strength."
    case AvoidRepeats => "Avoid repeating the same character more than twice in a row."
    case AvoidPatterns => "Avoid common patterns like 'abc' or '123'."
    case CommonPassword => "This is a common password. Choose a unique one."
    case LacksRandomness => "Password lacks randomness. Use a more varied character set."
  }

  /** All suggestions, in the order in which the checks that append them run. */
  const Checks: seq<Suggestion> :=
    [TooShort, AddUppercase, AddLowercase, AddNumbers, AddSpecial,
     AvoidRepeats, AvoidPatterns, CommonPassword, LacksRandomness]

  /** Position of a suggestion's check in the evaluation order. */
  function Rank(s: Suggestion): (r: nat)
    ensures r < |Checks| && Checks[r] == s
  {
    match s
    case TooShort => 0
    case AddUppercase => 1
    case AddLowercase => 2
    case AddNumbers => 3
    case AddSpecial => 4
    case AvoidRepeats => 5
    case AvoidPatterns => 6
    case CommonPassword => 7
    case LacksRandomness => 8
  }

  /** Suggestions listed in strictly increasing evaluation order (so each at most once). */
  predicate InCheckOrder(f: seq<Suggestion>)
  {
    forall i, j :: 0 <= i < j < |f| ==> Rank(f[i]) < Rank(f[j])
  }

  /** The four character classes that earn points when present. */
  datatype CharClass = Uppercase | Lowercase | Digit | Special

  /** Points a class earns when the password has one of its characters. */
  function Weight(k: CharClass): nat
  {
    match k
    case Uppercase => 1
    case Lowercase => 1
    case Digit => 1
    case Special => 2
  }

  /** The class's search finds a match. */
  predicate Present(p: string, k: CharClass)
  {
    match k
    case Uppercase => HasUpper(p)
    case Lowercase => HasLower(p)
    case Digit => HasDigit(p)
    case Special => HasSymbol(p)
  }

  /** The suggestion appended when the class is absent. */
  function Missing(k: CharClass): Suggestion
  {
    match k
    case Uppercase => AddUppercase
    case Lowercase => AddLowercase
    case Digit => AddNumbers
    case Special => AddSpecial
  }

  /** Points for length: 3 from 12 characters, 2 from 8, 1 from 6, none below. */
  function LengthBonus(n: nat): int
  {
    if n >= 12 then 3 else if n >= 8 then 2 else if n >= 6 then 1 else 0
  }

  function ClassBonus(p: string, k: CharClass): int
  {
    if Present(p, k) then Weight(k) else 0
  }

  /** Points from the four classes together. */
  function ClassBonuses(p: string): int
  {
    ClassBonus(p, Uppercase) + ClassBonus(p, Lowercase) + ClassBonus(p, Digit) + ClassBonus(p, Special)
  }

  /** One point off for a run of three, one for a common sequence. */
  function Penalties(p: string): int
  {
    (if HasRun(p) then 1 else 0) + (if HasPattern(p) then 1 else 0)
  }

  /** Points for entropy: 2 from 4 bits, 1 from 3 bits, none below. */
  function EntropyBonus(e: real): int
  {
    if e >= 4.0 then 2 else if e >= 3.0 then 1 else 0
  }

  /** `password.lower() in COMMON_PASSWORDS`. */
  predicate IsCommon(p: string)
  {
    Lower(p) in CommonPasswords
  }

  /**
   * The final score: the checks before the common-password test add up,
   * the test throws their sum away, and the entropy bonus comes last.
   */
  function Score(p: string, e: real): (score: int)
    ensures -2 <= score <= 10
    ensures IsCommon(p) ==> 0 <= score <= 2
  {
    (if IsCommon(p) then 0 else LengthBonus(|p|) + ClassBonuses(p) - Penalties(p)) + EntropyBonus(e)
  }

  /** The check behind each suggestion fires. */
  predicate Fires(s: Suggestion, p: string, e: real)
  {
    match s
    case TooShort => |p| < 6
    case AddUppercase => !Present(p, Uppercase)
    case AddLowercase => !Present(p, Lowercase)
    case AddNumbers => !Present(p, Digit)
    case AddSpecial => !Present(p, Special)
    case AvoidRepeats => HasRun(p)
    case AvoidPatterns => HasPattern(p)
    case CommonPassword => IsCommon(p)
    case LacksRandomness => e < 3.0
  }

  /** The feedback `f` after running check `c`: its suggestion appended if it fires. */
  function Run(f: seq<Suggestion>, c: Suggestion, p: string, e: real): seq<Suggestion>
  {
    if Fires(c, p, e) then f + [c] else f
  }

  /** The suggestions of `checks` whose check fires, in the order of `checks`. */
  function Fired(checks: seq<Suggestion>, p: string, e: real): seq<Suggestion>
  {
    if checks == [] then []
    else Run(Fired(checks[..|checks| - 1], p, e), checks[|checks| - 1], p, e)
  }

  /** A suggestion is in the filtered list exactly when it is one of the checks and fires. */
  lemma {:induction false} FiredMembers(checks: seq<Suggestion>, p: string, e: real)
    ensures forall s :: s in Fired(checks, p, e) <==> s in checks && Fires(s, p, e)
  {
    if checks != [] {
      var init := checks[..|checks| - 1];
      FiredMembers(init, p, e);
      assert checks == init + [checks[|checks| - 1]];
    }
  }

  /** Filtering keeps the evaluation order. */
  lemma {:induction false} FiredInOrder(checks: seq<Suggestion>, p: string, e: real)
    requires InCheckOrder(checks)
    ensures InCheckOrder(Fired(checks, p, e))
  {
    if checks != [] {
      var init, last := checks[..|checks| - 1], checks[|checks| - 1];
      var f := Fired(init, p, e);
      FiredInOrder(init, p, e);
      FiredMembers(init, p, e);
      forall s | s in f
        ensures Rank(s) < Rank(last)
      {
        var j :| 0 <= j < |init| && init[j] == s;
        assert checks[j] == s;
      }
    }
  }

  /** The feedback the scorer returns: every check that fired, in evaluation order. */
  function Feedback(p: string, e: real): (f: seq<Suggestion>)
    ensures InCheckOrder(f)
    ensures forall i, j :: 0 <= i < j < |f| ==> f[i] != f[j]
    ensures forall s :: s in f <==> Fires(s, p, e)
  {
    ChecksInOrder();
    FiredMembers(Checks, p, e);
    FiredInOrder(Checks, p, e);
    Fired(Checks, p, e)
  }

  /** The label for a final score: Strong from 10, or from 8 with 4 bits; Medium from 6. */
  function Classify(score: int, e: real): (s: Strength)
    ensures s == Strong ==> score >= 8
    ensures s == Weak <==> score < 6
  {
    if score >= 10 || (score >= 8 && e >= 4.0) then Strong
    else if score >= 6 then Medium
    else Weak
  }

  /** A list in evaluation order holding exactly the suggestions whose checks fire is the feedback, and only it. */
  lemma FeedbackCharacterized(p: string, e: real, f: seq<Suggestion>)
    ensures f == Feedback(p, e) <==> InCheckOrder(f) && forall s :: s in f <==> Fires(s, p, e)
  {
    if InCheckOrder(f) && forall s :: s in f <==> Fires(s, p, e) {
      InCheckOrderUnique(f, Feedback(p, e));
    }
  }

  /** The "too short" suggestion comes exactly when the length earns no points. */
  lemma LengthFeedback(p: string, e: real)
    ensures TooShort in Feedback(p, e) <==> LengthBonus(|p|) == 0
  {
  }

  /** A class earns its points exactly when its suggestion is absent, and nothing when it is present. */
  lemma ClassFeedback(p: string, e: real, k: CharClass)
    ensures Missing(k) !in Feedback(p, e) <==> ClassBonus(p, k) == Weight(k)
    ensures Missing(k) in Feedback(p, e) <==> ClassBonus(p, k) == 0
  {
  }

  /** Each penalty point comes with its own suggestion. */
  lemma PenaltyFeedback(p: string, e: real)
    ensures Penalties(p)
         == (if AvoidRepeats in Feedback(p, e) then 1 else 0) + (if AvoidPatterns in Feedback(p, e) then 1 else 0)
  {
  }

  /**
   * The common-password test accepts exactly the listed words with any of
   * their letters written as capitals, and nothing else.
   */
  lemma CommonIgnoresCase(p: string)
    ensures IsCommon(p) <==> exists w | w in CommonPasswords :: SameWordIgnoringCase(p, w)
  {
    forall w | w in CommonPasswords
      ensures Lower(p) == w <==> SameWordIgnoringCase(p, w)
    {
      LowersTo(p, w);
    }
  }

  /** A common password is Weak whatever its entropy, and says so. */
  lemma CommonIsWeak(p: string, e: real)
    requires IsCommon(p)
    ensures Classify(Score(p, e), e) == Weak
    ensures CommonPassword in Feedback(p, e)
  {
  }

  /**
   * Strong needs at least 8 points and 4 bits of entropy: 10 points are only
   * reachable with the full entropy bonus, so the first alternative of the
   * label test adds nothing to the second.
   */
  lemma StrongIff(p: string, e: real)
    ensures Classify(Score(p, e), e) == Strong <==> Score(p, e) >= 8 && e >= 4.0
  {
  }

  /** A Strong password is not common, has at least 6 characters and earns the full entropy bonus. */
  lemma StrongShape(p: string, e: real)
    requires Classify(Score(p, e), e) == Strong
    ensures !IsCommon(p) && |p| >= 6 && EntropyBonus(e) == 2
    ensures TooShort !in Feedback(p, e) && CommonPassword !in Feedback(p, e) && LacksRandomness !in Feedback(p, e)
  {
  }

  /** No suggestions means at least 7 points: Medium or Strong. */
  lemma NoFeedbackNotWeak(p: string, e: real)
    requires Feedback(p, e) == []
    ensures Score(p, e) >= 7
    ensures Classify(Score(p, e), e) != Weak
  {
    forall s
      ensures !Fires(s, p, e)
    {
      assert s !in Feedback(p, e);
    }
    assert !Fires(TooShort, p, e) && !Fires(AvoidRepeats, p, e) && !Fires(AvoidPatterns, p, e);
    assert !Fires(AddUppercase, p, e) && !Fires(AddLowercase, p, e);
    assert !Fires(AddNumbers, p, e) && !Fires(AddSpecial, p, e);
    assert !Fires(CommonPassword, p, e) && !Fires(LacksRandomness, p, e);
  }

  /** The label is monotone: more points or more entropy never give a weaker label. */
  lemma ClassifyMonotone(s1: int, e1: real, s2: int, e2: real)
    requires s1 <= s2 && e1 <= e2
    ensures Order(Classify(s1, e1)) <= Order(Classify(s2, e2))
  {
  }

  /** Raising the entropy of the same password never lowers its score or its label. */
  lemma MoreEntropyNeverHurts(p: string, e1: real, e2: real)
    requires e1 <= e2
    ensures Score(p, e1) <= Score(p, e2)
    ensures Order(Classify(Score(p, e1), e1)) <= Order(Classify(Score(p, e2), e2))
  {
  }

  /** A character belongs to at most one class, so a one-character alphabet earns at most 2 class points. */
  lemma UniformClassBonuses(p: string)
    requires |p| > 0 && forall i :: 0 <= i < |p| ==> p[i] == p[0]
    ensures ClassBonuses(p) <= 2
  {
  }

  /**
   * A password made of one repeated character is Weak and lacks randomness,
   * whatever its length, provided `log2(1) = 0`.
   */
  lemma RepeatedCharacterIsWeak(p: string, log2: real -> real)
    requires |p| > 0 && forall i :: 0 <= i < |p| ==> p[i] == p[0]
    requires log2(1.0) == 0.0
    ensures ShannonEntropy(p, log2) == 0.0
    ensures LacksRandomness in Feedback(p, ShannonEntropy(p, log2))
    ensures Classify(Score(p, ShannonEntropy(p, log2)), ShannonEntropy(p, log2)) == Weak
  {
    SingleSymbolHasNoEntropy(p, log2);
    UniformClassBonuses(p);
  }

  /** `Checks` lists every check once, in evaluation order. */
  lemma ChecksInOrder()
    ensures InCheckOrder(Checks)
    ensures forall s :: s in Checks
  {
    forall s
      ensures s in Checks
    {
      assert Checks[Rank(s)] == s;
    }
    forall i | 0 <= i < |Checks|
      ensures Rank(Checks[i]) == i
    {
      if i == 0 {} else if i == 1 {} else if i == 2 {} else if i == 3 {} else if i == 4 {}
      else if i == 5 {} else if i == 6 {} else if i == 7 {} else {}
    }
  }

  /** Two lists in evaluation order with the same members are the same list. */
  lemma {:induction false} InCheckOrderUnique(a: seq<Suggestion>, b: seq<Suggestion>)
    requires InCheckOrder(a) && InCheckOrder(b)
    requires forall s :: s in a <==> s in b
    ensures a == b
  {
    assert a != [] ==> a[0] in b;
    assert b != [] ==> b[0] in a;
    if a != [] {
      assert a[0] in b && b[0] in a;
      assert a[0] == b[0];
      forall s
        ensures s in a[1..] <==> s in b[1..]
      {
        assert s in a[1..] <==> s in a && s != a[0];
        assert s in b[1..] <==> s in b && s != b[0];
      }
      InCheckOrderUnique(a[1..], b[1..]);
      assert a == [a[0]] + a[1..] && b == [b[0]] + b[1..];
    }
  }

  /** The length block: 3, 2 or 1 point from 12, 8 or 6 characters, otherwise a suggestion. */
  method CheckLength(password: string, score: int, feedback: seq<Suggestion>, ghost e: real)
    returns (newScore: int, newFeedback: seq<Suggestion>)
    ensures newScore == score + LengthBonus(|password|)
    ensures newFeedback == Run(feedback, TooShort, password, e)
  {
    newScore, newFeedback := score, feedback;
    if |password| >= 12 {
      newScore := newScore + 3;
    } else if |password| >= 8 {
      newScore := newScore + 2;
    } else if |password| >= 6 {
      newScore := newScore + 1;
    } else {
      newFeedback := newFeedback + [TooShort];
    }
  }

  /** One test of the variety block: the class's points if present, otherwise its suggestion. */
  method CheckClass(password: string, k: CharClass, score: int, feedback: seq<Suggestion>, ghost e: real)
    returns (newScore: int, newFeedback: seq<Suggestion>)
    ensures newScore == score + ClassBonus(password, k)
    ensures newFeedback == Run(feedback, Missing(k), password, e)
  {
    newScore, newFeedback := score, feedback;
    if Present(password, k) {
      newScore := newScore + Weight(k);
    } else {
      newFeedback := newFeedback + [Missing(k)];
    }
  }

  /** The repeated-characters block: a point off and a suggestion for a run of three. */
  method CheckRepeats(password: string, score: int, feedback: seq<Suggestion>, ghost e: real)
    returns (newScore: int, newFeedback: seq<Suggestion>)
    ensures newScore == score - (if HasRun(password) then 1 else 0)
    ensures newFeedback == Run(feedback, AvoidRepeats, password, e)
  {
    newScore, newFeedback := score, feedback;
    if HasRun(password) {
      newScore := newScore - 1;
      newFeedback := newFeedback + [AvoidRepeats];
    }
  }

  /** The common-sequences block: a point off and a suggestion for abc, 123 or qwe in any case. */
  method CheckPatterns(password: string, score: int, feedback: seq<Suggestion>, ghost e: real)
    returns (newScore: int, newFeedback: seq<Suggestion>)
    ensures newScore == score - (if HasPattern(password) then 1 else 0)
    ensures newFeedback == Run(feedback, AvoidPatterns, password, e)
  {
    newScore, newFeedback := score, feedback;
    if HasPattern(password) {
      newScore := newScore - 1;
      newFeedback := newFeedback + [AvoidPatterns];
    }
  }

  /** The common-passwords block: a listed password loses every point so far. */
  method CheckCommon(password: string, score: int, feedback: seq<Suggestion>, ghost e: real)
    returns (newScore: int, newFeedback: seq<Suggestion>)
    ensures newScore == if IsCommon(password) then 0 else score
    ensures newFeedback == Run(feedback, CommonPassword, password, e)
  {
    newScore, newFeedback := score, feedback;
    if Lower(password) in CommonPasswords {
      newScore := 0;
      newFeedback := newFeedback + [CommonPassword];
    }
  }

  /** The entropy block: 2 points from 4 bits, 1 from 3 bits, otherwise a suggestion. */
  method CheckRandomness(password: string, entropy: real, score: int, feedback: seq<Suggestion>)
    returns (newScore: int, newFeedback: seq<Suggestion>)
    ensures newScore == score + EntropyBonus(entropy)
    ensures newFeedback == Run(feedback, LacksRandomness, password, entropy)
  {
    newScore, newFeedback := score, feedback;
    if entropy >= 4.0 {
      newScore := newScore + 2;
    } else if entropy >= 3.0 {
      newScore := newScore + 1;
    } else {
      newFeedback := newFeedback + [LacksRandomness];
    }
  }

  /**
   * `check_password_strength`: the blocks of checks in the source's order,
   * threading the running score and feedback list through them, then the
   * label. `log2` stands for `math.log2`, which the entropy computation
   * calls; the entropy is returned as the source does.
   */
  method CheckPasswordStrength(password: string, log2: real -> real)
    returns (strength: Strength, feedback: seq<Suggestion>, entropy: real)
    ensures entropy == ShannonEntropy(password, log2)
    ensures feedback == Feedback(password, entropy)
    ensures strength == Classify(Score(password, entropy), entropy)
  {
    ghost var e := ShannonEntropy(password, log2);
    var score := 0;
    feedback := [];
    score, feedback := CheckLength(password, score, feedback, e);
    score, feedback := CheckClass(password, Uppercase, score, feedback, e);
    score, feedback := CheckClass(password, Lowercase, score, feedback, e);
    score, feedback := CheckClass(password, Digit, score, feedback, e);
    score, feedback := CheckClass(password, Special, score, feedback, e);
    score, feedback := CheckRepeats(password, score, feedback, e);
    score, feedback := CheckPatterns(password, score, feedback, e);
    score, feedback := CheckCommon(password, score, feedback, e);
    entropy := CalculateEntropy(password, log2);
    score, feedback := CheckRandomness(password, entropy, score, feedback);

    if score >= 10 || (score >= 8 && entropy >= 4.0) {
      strength := Strong;
    } else if score >= 6 {
      strength := Medium;
    } else {
      strength := Weak;
    }

    FeedbackUnfolds(password, entropy);
  }

  /** `Feedback` written out check by check, in the order the source runs the checks. */
  lemma FeedbackUnfolds(p: string, e: real)
    ensures Feedback(p, e)
         == Run(Run(Run(Run(Run(Run(Run(Run(Run([],
              TooShort, p, e), AddUppercase, p, e), AddLowercase, p, e), AddNumbers, p, e),
              AddSpecial, p, e), AvoidRepeats, p, e), AvoidPatterns, p, e), CommonPassword, p, e),
              LacksRandomness, p, e)
  {
    var c := Checks;
    assert c[..1][..0] == c[..0];
    assert Fired(c[..1], p, e) == Run(Fired(c[..0], p, e), c[0], p, e);
    assert c[..2][..1] == c[..1];
    assert Fired(c[..2], p, e) == Run(Fired(c[..1], p, e), c[1], p, e);
    assert c[..3][..2] == c[..2];
    assert Fired(c[..3], p, e) == Run(Fired(c[..2], p, e), c[2], p, e);
    assert c[..4][..3] == c[..3];
    assert Fired(c[..4], p, e) == Run(Fired(c[..3], p, e), c[3], p, e);
    assert c[..5][..4] == c[..4];
    assert Fired(c[..5], p, e) == Run(Fired(c[..4], p, e), c[4], p, e);
    assert c[..6][..5] == c[..5];
    assert Fired(c[..6], p, e) == Run(Fired(c[..5], p, e), c[5], p, e);
    assert c[..7][..6] == c[..6];
    assert Fired(c[..7], p, e) == Run(Fired(c[..6], p, e), c[6], p, e);
    assert c[..8][..7] == c[..7];
    assert Fired(c[..8], p, e) == Run(Fired(c[..7], p, e), c[7], p, e);
    assert c[..9][..8] == c[..8];
    assert Fired(c[..9], p, e) == Run(Fired(c[..8], p, e), c[8], p, e);
    assert c[..9] == c;
  }
}
