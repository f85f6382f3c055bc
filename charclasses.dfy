/// The four character classes of pass_gen.py: the ASCII alphabets the
/// generator draws from (Python's string.ascii_uppercase, ascii_lowercase,
/// digits and punctuation) and the per-character tests the strength checker
/// applies (str.isupper, str.islower, str.isdigit, membership in punctuation),
/// restricted to ASCII.
module CharClasses {

  datatype Option<T> = None | Some(value: T)

  datatype CharClass = Upper | Lower | Digit | Special

  const AsciiUppercase: string := "ABCDEFGHIJKLMNOPQRSTUVWXYZ"
  const AsciiLowercase: string := "abcdefghijklmnopqrstuvwxyz"
  const Digits: string := "0123456789"
  const Punctuation: string := "!\"#$%&'()*+,-./:;<=>?@[\\]^_`{|}~"

  /** str.isupper on a single ASCII character. */
  predicate IsUpper(ch: char) { 'A' <= ch <= 'Z' }

  /** str.islower on a single ASCII character. */
  predicate IsLower(ch: char) { 'a' <= ch <= 'z' }

  /** str.isdigit on a single ASCII character. */
  predicate IsDigit(ch: char) { '0' <= ch <= '9' }

  /** `ch in string.punctuation`. */
  predicate IsSpecial(ch: char) { ch in Punctuation }

  /** The per-character test get_strength applies for class `c`; every
      character it accepts is printable, non-blank ASCII. */
  predicate InClass(ch: char, c: CharClass): (b: bool)
    ensures b ==> '!' <= ch <= '~'
  {
    match c
    case Upper => IsUpper(ch)
    case Lower => IsLower(ch)
    case Digit => IsDigit(ch)
    case Special => IsSpecial(ch)
  }

  /** The class a character belongs to, if any: the four classes are disjoint. */
  function ClassOf(ch: char): (r: Option<CharClass>)
    ensures forall c :: InClass(ch, c) <==> r == Some(c)
  {
    if IsUpper(ch) then Some(Upper)
    else if IsLower(ch) then Some(Lower)
    else if IsDigit(ch) then Some(Digit)
    else if IsSpecial(ch) then Some(Special)
    else None
  }

  /** The alphabet pass_gen appends to char_sets for a class; it holds exactly
      the characters the strength checker recognises as that class. */
  function Alphabet(c: CharClass): (s: string)
    ensures s != []
    ensures forall ch :: ch in s <==> InClass(ch, c)
  {
    match c
    case Upper => AsciiUppercase
    case Lower => AsciiLowercase
    case Digit => Digits
    case Special => Punctuation
  }

  /** Some character of `s` belongs to class `c`. */
  ghost predicate Occurs(s: string, c: CharClass) {
    exists i :: 0 <= i < |s| && InClass(s[i], c)
  }
}
