/// What get_strength says about passwords that pass_gen produces: the score
/// of a generated password is exactly the number of enabled classes, so its
/// rating is fixed by the requested length and the flags alone.
module Composition {
  import opened CharClasses
  import opened Generator
  import opened StrengthChecker

  /** The classes present in a generated password are exactly the enabled ones:
      coverage gives every enabled class, closure and disjointness exclude the rest. */
  lemma GeneratedPresentClasses(pw: string, length: int, classes: seq<CharClass>, c: CharClass)
    requires Admissible(pw, length, classes)
    ensures Occurs(pw, c) <==> c in classes
  {
    if Occurs(pw, c) {
      var i :| 0 <= i < |pw| && InClass(pw[i], c);
      assert Allowed(pw[i], classes);
    }
  }

  /** A generated password scores one point per enabled flag. */
  lemma GeneratedScore(pw: string, length: int, useUpper: bool, useLower: bool, useDigits: bool, useSpecial: bool)
    requires Admissible(pw, length, EnabledClasses(useUpper, useLower, useDigits, useSpecial))
    ensures Score(pw) == Count(useUpper) + Count(useLower) + Count(useDigits) + Count(useSpecial)
  {
    var classes := EnabledClasses(useUpper, useLower, useDigits, useSpecial);
    GeneratedPresentClasses(pw, length, classes, Upper);
    GeneratedPresentClasses(pw, length, classes, Lower);
    GeneratedPresentClasses(pw, length, classes, Digit);
    GeneratedPresentClasses(pw, length, classes, Special);
    PresentByClass(pw);
  }

  /** The rating of a generated password, from the requested length and the flags. */
  lemma GeneratedStrength(pw: string, length: int, useUpper: bool, useLower: bool, useDigits: bool, useSpecial: bool)
    requires Admissible(pw, length, EnabledClasses(useUpper, useLower, useDigits, useSpecial))
    ensures GetStrength(pw) == Strong <==> length >= 12 && useUpper && useLower && useDigits && useSpecial
    ensures GetStrength(pw) == Medium <==>
              GetStrength(pw) != Strong && length >= 8
              && Count(useUpper) + Count(useLower) + Count(useDigits) + Count(useSpecial) >= 3
  {
    GeneratedScore(pw, length, useUpper, useLower, useDigits, useSpecial);
  }

  /** With all four classes enabled and length at least 12, the result is always Strong. */
  lemma AllClassesLongIsStrong(pw: string, length: int)
    requires length >= 12
    requires Admissible(pw, length, EnabledClasses(true, true, true, true))
    ensures GetStrength(pw) == Strong
  {
    GeneratedStrength(pw, length, true, true, true, true);
  }

  /** With punctuation disabled the result is never Strong, whatever the length. */
  lemma NoSpecialNeverStrong(pw: string, length: int, useUpper: bool, useLower: bool, useDigits: bool)
    requires Admissible(pw, length, EnabledClasses(useUpper, useLower, useDigits, false))
    ensures GetStrength(pw) != Strong
  {
    GeneratedStrength(pw, length, useUpper, useLower, useDigits, false);
  }

  /** Upper case, lower case and digits without punctuation at length 8 or more is always Medium. */
  lemma ThreeClassesIsMedium(pw: string, length: int)
    requires length >= 8
    requires Admissible(pw, length, EnabledClasses(true, true, true, false))
    ensures GetStrength(pw) == Medium
  {
    GeneratedStrength(pw, length, true, true, true, false);
  }
}
