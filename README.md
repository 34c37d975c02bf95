# Password strength checker, modelled in Dafny

This project models the scoring core of an advanced password strength
checker: `check_password_strength`, the Shannon entropy computation
`calculate_entropy` it relies on, the `COMMON_PASSWORDS` list and the output
of `generate_strong_password`.

The scorer adds points for length and for each character class present.
It subtracts a point for a run of three equal characters and a point for one
of the sequences `abc`, `123`, `qwe` in any case. A common password is reset
to 0. Points for entropy come last. A suggestion is appended for every check
that fails, and the final score is mapped to Weak, Medium or Strong.

Modules:

- `Text` (`text.dfy`): the character tests that stand for the regular
  expressions, and the ASCII case folding behind `str.lower()` and
  `re.IGNORECASE`.
- `Entropy` (`entropy.dfy`): the character histogram loop and the entropy
  loop of `calculate_entropy`. Each is a method proved against
  specification functions: the recursive `Count` and `Distinct` for the
  histogram, and `ShannonEntropy` (through the recursive `EntropySum`) for
  the sum.
- `Checker` (`checker.dfy`): `CheckPasswordStrength` threads the running
  `score` and `feedback` through one method per block of checks, in the
  source's order. It is proved equal to closed forms:
  - `Score`: independent bonuses and penalties.
  - `Feedback`: the suggestions whose checks fire, in evaluation order.
  - `Classify`: the label.

  The lemmas state what `check_password_strength` promises of these closed
  forms.
- `Generator` (`generator.dfy`): the password produced from a given sequence
  of `random.choice` draws.

Feedback is a list of `Suggestion` values. `Message` gives the exact text
the source appends for each. The label is the `Strength` datatype, and
`Label` gives its text.

`math.log2` is a parameter `log2: real -> real`. Every lemma that needs a
value of it says so in its `requires`.

## Model

| member | source | states |
|---|---|---|
| Entropy.CountCharacters | adv_pass_strength_checker.py:15-17 | the histogram has exactly the password's characters as keys, in first-occurrence order; every count is at least 1 and equals the number of occurrences; the counts sum to the password length |
| Entropy.CountsSumToLength | adv_pass_strength_checker.py:15-17 | the occurrence counts of the distinct characters add up to the length of the password |
| Entropy.CalculateEntropy | adv_pass_strength_checker.py:11-23 | returns 0 for the empty password; otherwise returns the sum over the histogram of `-p * log2(p)` with `p = count / length`, i.e. the Shannon entropy of the password |
| Entropy.SingleSymbolHasNoEntropy | adv_pass_strength_checker.py:18-23 | a password that repeats one character has entropy 0 when `log2(1) = 0` |
| Entropy.EntropyNonNegative | adv_pass_strength_checker.py:18-23 | the entropy is never negative when `log2` is not positive on `(0, 1]` |
| Entropy.TwoSymbolsOneBit | adv_pass_strength_checker.py:18-23 | a password of two different characters has entropy exactly one bit when `log2(1/2) = -1` |
| Text.Lower | adv_pass_strength_checker.py:74 | `str.lower()` on ASCII: same length, each character lowered on its own (proved through the recursion) |
| Text.LowerChar | adv_pass_strength_checker.py:74 | the lowered character is never a capital, differs from the input exactly for 'A'..'Z', and is then the small letter at the same alphabet position |
| Text.LowerRemovesCapitals | adv_pass_strength_checker.py:74 | the lowered password holds no capital, and lowering changes a password exactly when it holds one |
| Text.HasUpper | adv_pass_strength_checker.py:46 | stands for `re.search(r'[A-Z]', password)`: some character is in 'A'..'Z' |
| Text.HasLower | adv_pass_strength_checker.py:50 | stands for `re.search(r'[a-z]', password)`: some character is in 'a'..'z' |
| Text.HasDigit | adv_pass_strength_checker.py:54 | stands for `re.search(r'[0-9]', password)`: some character is in '0'..'9' |
| Text.Symbols | adv_pass_strength_checker.py:58 | the 20 characters of the class `[!@#$%^&*(),.?":{}\|<>]` |
| Text.HasSymbol | adv_pass_strength_checker.py:58 | stands for the search for that class: some character is one of `Symbols` |
| Text.ClassesDisjoint | adv_pass_strength_checker.py:46-58 | the symbol class has 20 members, and no character is in two of the four searched classes |
| Text.RunAt | adv_pass_strength_checker.py:64 | the character at a position is not a newline and the next two equal it |
| Text.HasRun | adv_pass_strength_checker.py:64 | stands for `re.search(r'(.)\1{2,}', password)`: a run of three starts somewhere |
| Text.RunIsTriple | adv_pass_strength_checker.py:64 | the run search matches exactly when some three consecutive characters are one non-newline character three times |
| Text.NewlinesAreNotARun | adv_pass_strength_checker.py:64 | three newlines are not a run (`.` does not match a newline), while "aaa" is |
| Text.PatternAt | adv_pass_strength_checker.py:69 | the three characters at a position, lowered, are `abc`, `123` or `qwe` |
| Text.HasPattern | adv_pass_strength_checker.py:69 | stands for `re.search(r'(abc\|123\|qwe)', password, re.IGNORECASE)`: such a position exists |
| Text.PatternIgnoresCase | adv_pass_strength_checker.py:69 | the case-insensitive search matches exactly when a plain, case-sensitive search in the lowered password does, and exactly when some position spells one of the three patterns with each letter either small or capital |
| Checker.CommonPasswords | adv_pass_strength_checker.py:9 | the five listed passwords `password`, `123456`, `qwerty`, `admin`, `letmein` |
| Checker.IsCommon | adv_pass_strength_checker.py:74 | stands for `password.lower() in COMMON_PASSWORDS` |
| Checker.CommonIgnoresCase | adv_pass_strength_checker.py:74 | a password is common exactly when it is one of the five listed words with any of its letters written as capitals |
| Text.LowersTo | adv_pass_strength_checker.py:74 | for a word without capitals, `str.lower()` yields the word exactly from its spellings that differ only by capitals |
| Checker.Label | adv_pass_strength_checker.py:88-93 | the exact text of each label |
| Checker.Message | adv_pass_strength_checker.py:43-85 | the exact text appended for each suggestion |
| Checker.CheckLength | adv_pass_strength_checker.py:35-43 | adds 3, 2 or 1 point from 12, 8 or 6 characters, otherwise appends the "too short" suggestion |
| Checker.CheckClass | adv_pass_strength_checker.py:45-61 | for one character class: either adds its weight (1, 1, 1 or 2) or appends its suggestion, never both |
| Checker.CheckRepeats | adv_pass_strength_checker.py:63-66 | a run of three equal characters (not newlines) costs one point and appends its suggestion |
| Checker.CheckPatterns | adv_pass_strength_checker.py:68-71 | `abc`, `123` or `qwe` in any case costs one point and appends its suggestion |
| Checker.CheckCommon | adv_pass_strength_checker.py:73-76 | a password whose lowered form is in the common list has its score reset to 0 and gets its suggestion |
| Checker.CheckRandomness | adv_pass_strength_checker.py:78-85 | adds 2 points from 4 bits of entropy, 1 from 3 bits, otherwise appends the "lacks randomness" suggestion |
| Checker.CheckPasswordStrength | adv_pass_strength_checker.py:30-95 | returns the password's Shannon entropy, the feedback that lists exactly the fired checks in evaluation order, and the label of the closed-form score |
| Checker.Score | adv_pass_strength_checker.py:32-85 | the final score lies in [-2, 10]; a common password ends with at most 2 points |
| Checker.Feedback | adv_pass_strength_checker.py:32-85 | the suggestions are in evaluation order, each at most once, and a suggestion is present exactly when its check fires |
| Checker.Classify | adv_pass_strength_checker.py:87-93 | Strong needs at least 8 points; the label is Weak exactly below 6 points |
| Checker.FeedbackCharacterized | adv_pass_strength_checker.py:32-95 | a list is the feedback exactly when it is in evaluation order and holds exactly the fired suggestions |
| Checker.LengthFeedback | adv_pass_strength_checker.py:35-43 | the "too short" suggestion appears exactly when the length earns no points, i.e. below 6 characters |
| Checker.ClassFeedback | adv_pass_strength_checker.py:45-61 | a class's suggestion is absent exactly when it earns its weight, and present exactly when it earns nothing |
| Checker.PenaltyFeedback | adv_pass_strength_checker.py:63-71 | the points lost to runs and sequences equal the number of the two matching suggestions in the feedback |
| Checker.CommonIsWeak | adv_pass_strength_checker.py:73-93 | a common password is labelled Weak for every entropy value and gets the common-password suggestion |
| Checker.StrongIff | adv_pass_strength_checker.py:87-93 | the label is Strong exactly when the score is at least 8 and the entropy at least 4 bits |
| Checker.StrongShape | adv_pass_strength_checker.py:35-93 | a Strong password is not common, has at least 6 characters and the full entropy bonus, and has none of the "too short", "common" or "lacks randomness" suggestions |
| Checker.NoFeedbackNotWeak | adv_pass_strength_checker.py:32-95 | empty feedback means a score of at least 7 and a label other than Weak |
| Checker.ClassifyMonotone | adv_pass_strength_checker.py:87-93 | a higher score or more entropy never gives a weaker label |
| Checker.MoreEntropyNeverHurts | adv_pass_strength_checker.py:78-93 | for the same password, more entropy never lowers the score or the label |
| Checker.UniformClassBonuses | adv_pass_strength_checker.py:45-61 | a password of one repeated character earns at most 2 class points, since the classes are disjoint |
| Checker.RepeatedCharacterIsWeak | adv_pass_strength_checker.py:11-93 | a password of one repeated character has entropy 0, gets the "lacks randomness" suggestion and is labelled Weak, when `log2(1) = 0` |
| Generator.GenerateStrongPassword | adv_pass_strength_checker.py:25-28 | the password has `length` characters (none for a length below 1), each from letters, digits and punctuation |
| Generator.EveryPasswordReachable | adv_pass_strength_checker.py:25-28 | every string of that length over the alphabet is the result of some sequence of draws |
| Generator.Alphabet | adv_pass_strength_checker.py:27 | `chars`: `ascii_letters + digits + punctuation`, in that order |
| Generator.AlphabetIsPrintable | adv_pass_strength_checker.py:27 | the alphabet is exactly the printable ASCII characters other than space |
| Generator.AlphabetSize | adv_pass_strength_checker.py:27 | the alphabet has 94 characters |
| Generator.CharRange | adv_pass_strength_checker.py:27 | a range of ASCII characters in code point order, as `string.ascii_letters`, `digits` and `punctuation` list them: the i-th character is `lo + i` (proved through the recursion) |
| Generator.DefaultLengthSixteen | adv_pass_strength_checker.py:25-28 | a call with the default length yields 16 characters |

## Left out

- The graphical front end (`gui.py`) and the terminal driver `main()`. They are input, output, progress bars and threads.
- The numeric value of `math.log2`. It is floating point, so it is a parameter, and the scorer's properties hold for every entropy value. Rounding in the entropy sum is not modelled: the sum is exact over `real`.
- The randomness of `random.choice`. The draws are a parameter, so nothing is stated about their distribution.
- Full Unicode case folding. `str.lower()` and `re.IGNORECASE` are modelled as ASCII folding. This is still exact for the three sequences and for the common-password list. The non-ASCII characters that `re.IGNORECASE` treats as ASCII letters are the Kelvin sign (as `k`), the dotless small i and the capital dotted I (as `i`), and the long s (as `s`); `abc`, `123` and `qwe` contain none of these letters. `str.lower()` turns the Kelvin sign into `k` and the capital dotted I into `i` followed by a combining dot, and no listed password contains a `k` or such a pair.
- The symbol class `[!@#$%^&*(),.?":{}|<>]` has 20 characters, and the model uses those 20.
- Checker.CheckPasswordStrength: the feedback is returned as `Suggestion` values and the label as a `Strength` value, not as strings. `Message` and `Label` give the exact strings, but the model does not prove that different suggestions have different texts.
- Checker.CheckPasswordStrength: the source runs the blocks of checks inline in one function. The model gives each block its own method and threads the running score and feedback list through them in the same order.
