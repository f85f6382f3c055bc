# Password generator and strength checker, in Dafny

This project models the two functions that carry the logic of `pass_gen.py`:

- `pass_gen(length, use_upper, use_lower, use_digits, use_special)` rejects a
  length below 4, then rejects an empty selection of character types, then
  collects the enabled ASCII alphabets (upper case, lower case, digits,
  punctuation, in that order), draws one character from each, fills the
  remaining `length - k` positions from the concatenation of those alphabets,
  shuffles the list in place and joins it.
- `get_strength(password)` computes four presence flags, a score that counts
  them, and rates the password Strong (length at least 12 and score 4), else
  Medium (length at least 8 and score at least 3), else Weak.

Modules:

- `CharClasses` (charclasses.dfy): the four classes, their alphabets
  (the constants of Python's `string` module), the per-character tests and
  `ClassOf`, which shows that the classes are disjoint.
- `Generator` (generator.dfy): `PassGen` as a method. Validation errors are a
  `Result` with two error constructors. Each `random.choice` and each index
  drawn by `random.shuffle` is a nondeterministic choice (`:|`), so every
  contract holds for every possible sequence of draws. The shuffle is the
  Fisher–Yates loop `random.shuffle` runs, over an array, in place. The
  predicate `Admissible` states the generator's promise (length, coverage,
  closure); `DrawnInOrder` describes the list before the shuffle. Lemmas prove
  that a rearranged drawn list is always admissible and, conversely, that every
  admissible password is a rearrangement of some list the draws can produce.
- `StrengthChecker` (strength.dfy): `GetStrength` as pure functions, with
  lemmas: adding characters never lowers the rating, the rating ignores order,
  and the concrete boundary cases.
- `Composition` (composition.dfy): a generated password's score is exactly the
  number of enabled flags, hence its rating follows from the length and the
  flags: all four classes at length 12 or more is always Strong, no
  punctuation is never Strong, upper+lower+digits at length 8 or more is
  always Medium.

The validation order follows the code: the length test comes before the
alphabets are collected, so length 3 with no class enabled is a length error.
Both error returns happen before any draw.

## Model

| member | source | states |
|---|---|---|
| CharClasses.InClass | pass_gen.py:37-40 | upper is 'A'..'Z', lower 'a'..'z', digit '0'..'9', special is membership in the 32 characters of string.punctuation; every accepted character is printable non-blank ASCII (Python's Unicode-aware tests are restricted to ASCII here) |
| CharClasses.ClassOf | pass_gen.py:37-40 | a character is in class c exactly when ClassOf gives c, so no character is in two classes |
| CharClasses.Alphabet | pass_gen.py:12-19 | each alphabet appended to char_sets is non-empty and holds exactly the characters of its class |
| Generator.EnabledClasses | pass_gen.py:11-19 | a class is selected exactly when its flag is set |
| Generator.CollectCharSets | pass_gen.py:11-19 | char_sets is the alphabets of the enabled classes, in the order upper, lower, digits, punctuation |
| Generator.Join | pass_gen.py:28 | a character is in the joined alphabet exactly when it is in one of the parts; it is empty only when every part is |
| Generator.ChooseOneEach | pass_gen.py:25 | one character per alphabet, the i-th drawn from the i-th alphabet |
| Generator.ChooseMany | pass_gen.py:29 | exactly n characters, each drawn from the given alphabet |
| Generator.Shuffle | pass_gen.py:31 | the in-place shuffle leaves the multiset of characters unchanged |
| Generator.PassGen | pass_gen.py:7-32 | the defaults are length 12, upper, lower and digits on, punctuation off; length below 4 gives the length error whatever the flags; otherwise no flag gives the empty-selection error; otherwise the result has the requested length, a character of every enabled class and none outside them, and is a rearrangement of one forced character per class followed by fill characters from the joined alphabets |
| Generator.ShuffledDrawIsAdmissible | pass_gen.py:24-32 | every rearrangement of a drawn list has the requested length, covers every enabled class and stays inside the enabled alphabets |
| Generator.AdmissibleIsDrawable | pass_gen.py:24-32 | conversely, every password with those three properties is a rearrangement of a list the draws can produce |
| Generator.AllowedIsJoined | pass_gen.py:28-29 | every character of an enabled class can be drawn by the fill step |
| Generator.EnabledClassesDistinct | pass_gen.py:11-19 | no alphabet is appended twice |
| StrengthChecker.HasClass | pass_gen.py:37-40 | the scan is true exactly when some character of the password is in the class |
| StrengthChecker.Score | pass_gen.py:41 | the score is the number of classes present, at most 4 |
| StrengthChecker.GetStrength | pass_gen.py:43-48 | Strong exactly when length is at least 12 and all four classes are present; Medium exactly when not Strong, length is at least 8 and at least three classes are present; Weak otherwise |
| StrengthChecker.StrengthMonotone | pass_gen.py:35-48 | adding characters anywhere never lowers the rating |
| StrengthChecker.StrengthIgnoresOrder | pass_gen.py:35-48 | two passwords with the same characters get the same rating, so shuffling does not change it |
| StrengthChecker.EmptyIsWeak | pass_gen.py:47-48 | the empty string is Weak |
| StrengthChecker.MixedTwelveIsStrong | pass_gen.py:43-44 | every password of 12 or more characters with all four classes is Strong |
| StrengthChecker.NoPunctuationEightIsMedium | pass_gen.py:45-46 | every password of 8 or more characters with upper case, lower case and a digit but no punctuation is Medium |
| StrengthChecker.LowerOnlyIsWeak | pass_gen.py:47-48 | every password made only of lower-case letters (four of them included) is Weak |
| Composition.GeneratedPresentClasses | pass_gen.py:24-40 | a class occurs in a generated password exactly when it was enabled |
| Composition.GeneratedScore | pass_gen.py:24-41 | a generated password scores one point per enabled flag |
| Composition.GeneratedStrength | pass_gen.py:25-48 | a generated password is Strong exactly when length is at least 12 and all four flags are set, and Medium exactly when not Strong, length is at least 8 and at least three flags are set |
| Composition.AllClassesLongIsStrong | pass_gen.py:25-44 | all four classes and length at least 12 always give Strong |
| Composition.NoSpecialNeverStrong | pass_gen.py:18-44 | with punctuation disabled the result is never Strong |
| Composition.ThreeClassesIsMedium | pass_gen.py:25-46 | upper, lower and digits without punctuation at length at least 8 always give Medium |

## Left out

- The Tkinter window, styles, slider, checkboxes, text box and button (pass_gen.py:50-156): presentation only.
- The display side of `generate_password` (pass_gen.py:132-149): it shows the error text of the `ValueError` and an error label instead of a strength; the `Result` datatype carries the two errors.
- The exact error message strings and the emoji of the strength labels: the errors are two constructors and the labels the three levels of `Strength`.
- Generator.Shuffle: the contract states that the result is a permutation; that every permutation can be reached, and uniformity, are not stated.
- Distributions of `random.choice` and `random.shuffle` (uniformity, the bias of the fill step toward larger alphabets, unpredictability): draws are nondeterministic choices, and properties are proved for every choice.
- CharClasses.InClass: the Unicode behaviour of `str.isupper`, `str.islower` and `str.isdigit` is not modelled; the model treats only `A`-`Z`, `a`-`z` and `0`-`9` as upper, lower and digit, so a non-ASCII letter or digit that Python would count is not counted here.
- Generator.PassGen: that no random draw happens on the error paths is visible in the method's structure but not stated in its contract.
- Generator.PassGen: the list `password_chars` is a sequence while it is built and is copied into an array for the in-place shuffle; the list object itself and its aliasing are not modelled.
- Non-integer arguments: the caller converts the slider value with `int`, and the model takes an integer length.
