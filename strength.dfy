/// get_strength: four class-presence flags, a score counting them, and a
/// classification by two length thresholds checked in a fixed order.
module StrengthChecker {
  import opened CharClasses

  datatype Strength = Weak | Medium | Strong

  /** The order Weak < Medium < Strong. */
  function Rank(s: Strength): nat {
    match s
    case Weak => 0
    case Medium => 1
    case Strong => 2
  }

  /** `any(<c in class> for c in pw)`: a left-to-right scan for a character of class `c`. */
  function HasClass(pw: string, c: CharClass): (b: bool)
    ensures b <==> Occurs(pw, c)
  {
    if pw == [] then false
    else if InClass(pw[0], c) then true
    else
      assert forall i :: 1 <= i < |pw| ==> pw[i] == pw[1..][i - 1];
      HasClass(pw[1..], c)
  }

  /** The classes present in `pw`. */
  ghost function Present(pw: string): set<CharClass> {
    set c | c in {Upper, Lower, Digit, Special} && Occurs(pw, c)
  }

  lemma PresentByClass(pw: string)
    ensures Present(pw) == (if Occurs(pw, Upper) then {Upper} else {}) + (if Occurs(pw, Lower) then {Lower} else {})
                         + (if Occurs(pw, Digit) then {Digit} else {}) + (if Occurs(pw, Special) then {Special} else {})
  {
    var byClass := (if Occurs(pw, Upper) then {Upper} else {}) + (if Occurs(pw, Lower) then {Lower} else {})
                   + (if Occurs(pw, Digit) then {Digit} else {}) + (if Occurs(pw, Special) then {Special} else {});
    forall c
      ensures c in Present(pw) <==> c in byClass
    {
      match c
      case Upper =>
      case Lower =>
      case Digit =>
      case Special =>
    }
  }

  /** The number of present classes is the number of set presence flags. */
  lemma ScoreCountsPresent(pw: string)
    ensures |Present(pw)| == Count(HasClass(pw, Upper)) + Count(HasClass(pw, Lower))
                             + Count(HasClass(pw, Digit)) + Count(HasClass(pw, Special))
  {
    var p1: set<CharClass> := if HasClass(pw, Upper) then {Upper} else {};
    var p2 := p1 + if HasClass(pw, Lower) then {Lower} else {};
    var p3 := p2 + if HasClass(pw, Digit) then {Digit} else {};
    var p4 := p3 + if HasClass(pw, Special) then {Special} else {};
    assert |p2| == |p1| + Count(HasClass(pw, Lower));
    assert |p3| == |p2| + Count(HasClass(pw, Digit));
    assert |p4| == |p3| + Count(HasClass(pw, Special));
    PresentByClass(pw);
  }

  /** A presence flag as the 0 or 1 that Python's `sum` adds up. */
  function Count(b: bool): nat { if b then 1 else 0 }

  /** `sum([has_upper, has_lower, has_digit, has_special])`: how many of the four classes occur in `pw`. */
  function Score(pw: string): (s: nat)
    ensures s == |Present(pw)| <= 4
  {
    var hasUpper := HasClass(pw, Upper);
    var hasLower := HasClass(pw, Lower);
    var hasDigit := HasClass(pw, Digit);
    var hasSpecial := HasClass(pw, Special);
    ScoreCountsPresent(pw);
    Count(hasUpper) + Count(hasLower) + Count(hasDigit) + Count(hasSpecial)
  }

  /** Strong needs length 12 and all four classes; failing that, Medium needs
      length 8 and at least three classes; everything else is Weak. */
  function GetStrength(pw: string): (s: Strength)
    ensures s == Strong <==> |pw| >= 12 && Present(pw) == {Upper, Lower, Digit, Special}
    ensures s == Medium <==> s != Strong && |pw| >= 8 && |Present(pw)| >= 3
  {
    var score := Score(pw);
    if |pw| >= 12 && score == 4 then Strong
    else if |pw| >= 8 && score >= 3 then Medium
    else Weak
  }

  /** Only a subset of the classes can be present, so the count is bounded by any superset. */
  lemma PresentMonotone(p: string, q: string)
    requires forall c :: Occurs(p, c) ==> Occurs(q, c)
    ensures Present(p) <= Present(q) && |Present(p)| <= |Present(q)|
  {
    PresentByClass(p);
    PresentByClass(q);
  }

  /** A password's rating never drops when characters are added to it
      anywhere (appended, prepended or inserted). */
  lemma StrengthMonotone(p: string, q: string)
    requires multiset(p) <= multiset(q)
    ensures Rank(GetStrength(p)) <= Rank(GetStrength(q))
  {
    assert multiset(q) == multiset(p) + (multiset(q) - multiset(p));
    assert |p| == |multiset(p)| <= |multiset(q)| == |q|;
    forall c | Occurs(p, c)
      ensures Occurs(q, c)
    {
      var i :| 0 <= i < |p| && InClass(p[i], c);
      assert p[i] in multiset(q);
      var j :| 0 <= j < |q| && q[j] == p[i];
    }
    PresentMonotone(p, q);
  }

  /** The rating depends only on which characters occur how often, not on
      their order, so shuffling a password does not change it. */
  lemma StrengthIgnoresOrder(p: string, q: string)
    requires multiset(p) == multiset(q)
    ensures GetStrength(p) == GetStrength(q)
  {
    StrengthMonotone(p, q);
    StrengthMonotone(q, p);
  }

  /** The empty string is Weak. */
  lemma EmptyIsWeak()
    ensures GetStrength("") == Weak
  {
  }

  /** A password of 12 or more characters with all four classes is Strong. */
  lemma MixedTwelveIsStrong(pw: string)
    requires |pw| >= 12
    requires Occurs(pw, Upper) && Occurs(pw, Lower) && Occurs(pw, Digit) && Occurs(pw, Special)
    ensures GetStrength(pw) == Strong
  {
    PresentByClass(pw);
  }

  /** A password of 8 or more characters with upper case, lower case and a
      digit but no punctuation is Medium. */
  lemma NoPunctuationEightIsMedium(pw: string)
    requires |pw| >= 8
    requires Occurs(pw, Upper) && Occurs(pw, Lower) && Occurs(pw, Digit) && !Occurs(pw, Special)
    ensures GetStrength(pw) == Medium
  {
    PresentByClass(pw);
  }

  /** A password made only of lower-case letters, of any length, is Weak. */
  lemma LowerOnlyIsWeak(pw: string)
    requires forall i :: 0 <= i < |pw| ==> IsLower(pw[i])
    ensures GetStrength(pw) == Weak
  {
    PresentByClass(pw);
  }
}
