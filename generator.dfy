/// pass_gen: validates its arguments, draws one character from each enabled
/// alphabet, fills the remaining positions from the joined alphabets and
/// shuffles the list in place. Every random draw is a nondeterministic choice
/// (`:|`), so each guarantee below holds for every sequence of draws.
module Generator {
  import opened CharClasses

  /** The two ValueErrors pass_gen raises. */
  datatype GenError = LengthTooShort | NoCharacterType

  datatype Result = Ok(password: string) | Err(error: GenError)

  const MinLength := 4

  /** The classes whose flags are set, in the order pass_gen appends their alphabets. */
  function EnabledClasses(useUpper: bool, useLower: bool, useDigits: bool, useSpecial: bool): (cs: seq<CharClass>)
    ensures Upper in cs <==> useUpper
    ensures Lower in cs <==> useLower
    ensures Digit in cs <==> useDigits
    ensures Special in cs <==> useSpecial
  {
    (if useUpper then [Upper] else []) + (if useLower then [Lower] else [])
    + (if useDigits then [Digit] else []) + (if useSpecial then [Special] else [])
  }

  /** The alphabets of `classes`, in order: the list `char_sets`. */
  function Alphabets(classes: seq<CharClass>): (sets: seq<string>)
    ensures |sets| == |classes|
    ensures forall i :: 0 <= i < |classes| ==> sets[i] == Alphabet(classes[i])
  {
    seq(|classes|, i requires 0 <= i < |classes| => Alphabet(classes[i]))
  }

  lemma AlphabetsSnoc(classes: seq<CharClass>, c: CharClass)
    ensures Alphabets(classes + [c]) == Alphabets(classes) + [Alphabet(c)]
  {
  }

  /** `''.join(parts)`: a character occurs in the result exactly when it occurs in one of the parts. */
  function Join(parts: seq<string>): (s: string)
    ensures |s| == 0 <==> forall i :: 0 <= i < |parts| ==> parts[i] == []
    ensures forall ch :: ch in s <==> exists i :: 0 <= i < |parts| && ch in parts[i]
  {
    if parts == [] then "" else parts[0] + Join(parts[1..])
  }

  /** A character of one of the alphabets of `classes`. */
  predicate Allowed(ch: char, classes: seq<CharClass>) {
    ClassOf(ch).Some? && ClassOf(ch).value in classes
  }

  /** The list pass_gen holds just before the shuffle: one character of each
      enabled class, in order, then fill characters drawn from the joined alphabets. */
  ghost predicate DrawnInOrder(drawn: string, length: int, classes: seq<CharClass>) {
    |classes| <= |drawn| == length
    && (forall i :: 0 <= i < |classes| ==> InClass(drawn[i], classes[i]))
    && (forall i :: |classes| <= i < |drawn| ==> drawn[i] in Join(Alphabets(classes)))
  }

  /** What pass_gen promises of a generated password: the requested length, at
      least one character of every enabled class, and nothing outside them. */
  ghost predicate Admissible(pw: string, length: int, classes: seq<CharClass>) {
    |pw| == length
    && (forall c :: c in classes ==> Occurs(pw, c))
    && (forall i :: 0 <= i < |pw| ==> Allowed(pw[i], classes))
  }

  /** Any rearrangement of the drawn list meets the promises: the forced draws
      survive the shuffle and the fill draws stay inside the enabled alphabets. */
  lemma ShuffledDrawIsAdmissible(drawn: string, pw: string, length: int, classes: seq<CharClass>)
    requires DrawnInOrder(drawn, length, classes)
    requires multiset(pw) == multiset(drawn)
    ensures Admissible(pw, length, classes)
  {
    assert |pw| == |multiset(pw)| == |multiset(drawn)| == |drawn|;
    forall c | c in classes
      ensures Occurs(pw, c)
    {
      var k :| 0 <= k < |classes| && classes[k] == c;
      assert drawn[k] in multiset(drawn);
      var i :| 0 <= i < |pw| && pw[i] == drawn[k];
    }
    forall i | 0 <= i < |pw|
      ensures Allowed(pw[i], classes)
    {
      assert pw[i] in multiset(drawn);
      var j :| 0 <= j < |drawn| && drawn[j] == pw[i];
      if j >= |classes| {
        var m :| 0 <= m < |classes| && pw[i] in Alphabets(classes)[m];
        assert InClass(pw[i], classes[m]);
      }
    }
  }

  /** No class is enabled twice. */
  lemma EnabledClassesDistinct(useUpper: bool, useLower: bool, useDigits: bool, useSpecial: bool)
    ensures var cs := EnabledClasses(useUpper, useLower, useDigits, useSpecial);
            forall i, j :: 0 <= i < j < |cs| ==> cs[i] != cs[j]
  {
  }

  /** Every allowed character is one the fill step can draw. */
  lemma AllowedIsJoined(ch: char, classes: seq<CharClass>)
    requires Allowed(ch, classes)
    ensures ch in Join(Alphabets(classes))
  {
    var m :| 0 <= m < |classes| && classes[m] == ClassOf(ch).value;
    assert ch in Alphabets(classes)[m];
  }

  /** Removing a character of another class keeps class `c` present. */
  lemma RemovePreservesOccurs(pw: string, i: nat, c: CharClass)
    requires i < |pw| && Occurs(pw, c) && !InClass(pw[i], c)
    ensures Occurs(pw[..i] + pw[i + 1..], c)
  {
    var others := pw[..i] + pw[i + 1..];
    var j :| 0 <= j < |pw| && InClass(pw[j], c);
    if j < i {
      assert others[j] == pw[j];
    } else {
      assert others[j - 1] == pw[j];
    }
  }

  /** Setting apart a character of the first class leaves the other classes
      covered, and the multiset loses exactly that character. */
  lemma RemoveOthersStillCovered(pw: string, i: nat, classes: seq<CharClass>)
    requires classes != [] && i < |pw| && InClass(pw[i], classes[0])
    requires forall i, j :: 0 <= i < j < |classes| ==> classes[i] != classes[j]
    requires forall c :: c in classes ==> Occurs(pw, c)
    ensures multiset(pw) == multiset(pw[..i] + pw[i + 1..]) + multiset{pw[i]}
    ensures forall c :: c in classes[1..] ==> Occurs(pw[..i] + pw[i + 1..], c)
  {
    assert pw == pw[..i] + [pw[i]] + pw[i + 1..];
    forall c | c in classes[1..]
      ensures Occurs(pw[..i] + pw[i + 1..], c)
    {
      var k :| 0 <= k < |classes[1..]| && classes[1..][k] == c;
      assert c == classes[k + 1] != classes[0];
      RemovePreservesOccurs(pw, i, c);
    }
  }

  /** From a password that covers distinct classes, one character per class
      (in class order) can be set apart; the rest is what remains. */
  lemma {:induction false} SplitForced(pw: string, classes: seq<CharClass>) returns (forced: string, rest: string)
    requires forall i, j :: 0 <= i < j < |classes| ==> classes[i] != classes[j]
    requires forall c :: c in classes ==> Occurs(pw, c)
    ensures |forced| == |classes|
    ensures forall i :: 0 <= i < |classes| ==> InClass(forced[i], classes[i])
    ensures multiset(forced) + multiset(rest) == multiset(pw)
  {
    if classes == [] {
      return "", pw;
    }
    assert Occurs(pw, classes[0]);
    var i :| 0 <= i < |pw| && InClass(pw[i], classes[0]);
    var others := pw[..i] + pw[i + 1..];
    RemoveOthersStillCovered(pw, i, classes);
    var forcedTail, restTail := SplitForced(others, classes[1..]);
    forced, rest := [pw[i]] + forcedTail, restTail;
  }

  /** The converse of ShuffledDrawIsAdmissible: every password that meets the
      promises for distinct classes is a rearrangement of a list pass_gen can draw. */
  lemma AdmissibleIsDrawable(pw: string, length: int, classes: seq<CharClass>) returns (drawn: string)
    requires forall i, j :: 0 <= i < j < |classes| ==> classes[i] != classes[j]
    requires Admissible(pw, length, classes)
    ensures DrawnInOrder(drawn, length, classes) && multiset(drawn) == multiset(pw)
  {
    var forced, rest := SplitForced(pw, classes);
    drawn := forced + rest;
    assert |drawn| == |multiset(drawn)| == |multiset(pw)| == |pw|;
    forall i | |classes| <= i < |drawn|
      ensures drawn[i] in Join(Alphabets(classes))
    {
      assert drawn[i] == rest[i - |classes|];
      assert drawn[i] in multiset(pw);
      var j :| 0 <= j < |pw| && pw[j] == drawn[i];
      AllowedIsJoined(drawn[i], classes);
    }
  }

  /** random.shuffle: Fisher–Yates from the last position down to 1, swapping
      position i with a position j drawn from [0, i]. */
  method Shuffle<T>(a: array<T>)
    modifies a
    ensures multiset(a[..]) == multiset(old(a[..]))
  {
    var i := a.Length - 1;
    while i > 0
      invariant i < a.Length
      invariant multiset(a[..]) == multiset(old(a[..]))
    {
      var j :| 0 <= j <= i;
      a[i], a[j] := a[j], a[i];
      i := i - 1;
    }
  }

  /** `[random.choice(s) for s in sets]`: one character drawn from each set, in order. */
  method ChooseOneEach(sets: seq<string>) returns (chars: seq<char>)
    requires forall i :: 0 <= i < |sets| ==> sets[i] != []
    ensures |chars| == |sets|
    ensures forall i :: 0 <= i < |sets| ==> chars[i] in sets[i]
  {
    chars := [];
    for t := 0 to |sets|
      invariant |chars| == t
      invariant forall i :: 0 <= i < t ==> chars[i] in sets[i]
    {
      var j :| 0 <= j < |sets[t]|;
      chars := chars + [sets[t][j]];
    }
  }

  /** `[random.choice(alphabet) for _ in range(n)]`: n characters drawn from one alphabet. */
  method ChooseMany(alphabet: string, n: nat) returns (chars: seq<char>)
    requires n > 0 ==> alphabet != []
    ensures |chars| == n
    ensures forall i :: 0 <= i < n ==> chars[i] in alphabet
  {
    chars := [];
    for t := 0 to n
      invariant |chars| == t
      invariant forall i :: 0 <= i < t ==> chars[i] in alphabet
    {
      var j :| 0 <= j < |alphabet|;
      chars := chars + [alphabet[j]];
    }
  }

  /** The list `char_sets`: the alphabet of each enabled class, appended in class order. */
  method CollectCharSets(useUpper: bool, useLower: bool, useDigits: bool, useSpecial: bool)
    returns (charSets: seq<string>)
    ensures charSets == Alphabets(EnabledClasses(useUpper, useLower, useDigits, useSpecial))
  {
    charSets := [];
    if useUpper {
      charSets := charSets + [AsciiUppercase];
      AlphabetsSnoc([], Upper);
    }
    ghost var classes := EnabledClasses(useUpper, false, false, false);
    if useLower {
      charSets := charSets + [AsciiLowercase];
      AlphabetsSnoc(classes, Lower);
    }
    classes := EnabledClasses(useUpper, useLower, false, false);
    if useDigits {
      charSets := charSets + [Digits];
      AlphabetsSnoc(classes, Digit);
    }
    classes := EnabledClasses(useUpper, useLower, useDigits, false);
    if useSpecial {
      charSets := charSets + [Punctuation];
      AlphabetsSnoc(classes, Special);
      assert charSets == Alphabets(classes + [Special]);
      assert classes + [Special] == EnabledClasses(useUpper, useLower, useDigits, useSpecial);
    }
  }

  /** The defaults are those of pass_gen's signature. */
  method PassGen(length: int := 12, useUpper: bool := true, useLower: bool := true,
                 useDigits: bool := true, useSpecial: bool := false)
    returns (r: Result)
    ensures length < MinLength ==> r == Err(LengthTooShort)
    ensures length >= MinLength && EnabledClasses(useUpper, useLower, useDigits, useSpecial) == []
            ==> r == Err(NoCharacterType)
    ensures length >= MinLength && EnabledClasses(useUpper, useLower, useDigits, useSpecial) != []
            ==> r.Ok? && Admissible(r.password, length, EnabledClasses(useUpper, useLower, useDigits, useSpecial))
    ensures r.Ok? ==> exists drawn :: DrawnInOrder(drawn, length, EnabledClasses(useUpper, useLower, useDigits, useSpecial))
                                      && multiset(drawn) == multiset(r.password)
  {
    if length < MinLength {
      return Err(LengthTooShort);
    }

    var charSets := CollectCharSets(useUpper, useLower, useDigits, useSpecial);
    ghost var classes := EnabledClasses(useUpper, useLower, useDigits, useSpecial);
    if charSets == [] {
      return Err(NoCharacterType);
    }

    // one character from each selected alphabet, then fill the rest from the joined alphabets
    var passwordChars := ChooseOneEach(charSets);
    var allChars := Join(charSets);
    var fill := ChooseMany(allChars, length - |passwordChars|);
    passwordChars := passwordChars + fill;
    assert DrawnInOrder(passwordChars, length, classes);

    var buffer := new char[length](i requires 0 <= i < length => passwordChars[i]);
    assert buffer[..] == passwordChars;
    Shuffle(buffer);
    ShuffledDrawIsAdmissible(passwordChars, buffer[..], length, classes);
    return Ok(buffer[..]);
  }
}
