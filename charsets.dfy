/** The four character classes a password may draw from, the user's
    selection of classes, and the working alphabet built from a selection. */
module CharacterSets {

  const LowercaseChars: string := "abcdefghijklmnopqrstuvwxyz"
  const UppercaseChars: string := "ABCDEFGHIJKLMNOPQRSTUVWXYZ"
  const DigitChars: string := "0123456789"
  const SpecialChars: string := "!@#$%^&*()_+-=[]{}|;:,.<>?"

  datatype CharClass = Lowercase | Uppercase | Digit | Special

  /** The fixed string of characters of one class. */
  function ClassChars(k: CharClass): string {
    match k
    case Lowercase => LowercaseChars
    case Uppercase => UppercaseChars
    case Digit => DigitChars
    case Special => SpecialChars
  }

  /** The class a character is sorted into: letters and digits by their
      ranges, everything else is special. */
  function ClassOf(c: char): CharClass {
    if 'a' <= c <= 'z' then Lowercase
    else if 'A' <= c <= 'Z' then Uppercase
    else if '0' <= c <= '9' then Digit
    else Special
  }

  /** The four enabled-flags of the user's selection. */
  datatype Selection = Selection(useLowercase: bool, useUppercase: bool, useDigits: bool, useSpecialChars: bool)
  {
    function Enabled(k: CharClass): bool {
      match k
      case Lowercase => useLowercase
      case Uppercase => useUppercase
      case Digit => useDigits
      case Special => useSpecialChars
    }

    /** The selection with the flag of class `k` set to `on`, every other flag kept. */
    function With(k: CharClass, on: bool): (s: Selection)
      ensures s.Enabled(k) == on
      ensures forall k' :: k' != k ==> s.Enabled(k') == Enabled(k')
    {
      match k
      case Lowercase => this.(useLowercase := on)
      case Uppercase => this.(useUppercase := on)
      case Digit => this.(useDigits := on)
      case Special => this.(useSpecialChars := on)
    }
  }

  const AllClasses: Selection := Selection(true, true, true, true)

  /** The guard of the generator: at least one class is enabled. */
  predicate AnyEnabled(s: Selection)
    ensures AnyEnabled(s) <==> exists k :: s.Enabled(k)
  {
    assert s.Enabled(Lowercase) == s.useLowercase && s.Enabled(Uppercase) == s.useUppercase;
    assert s.Enabled(Digit) == s.useDigits && s.Enabled(Special) == s.useSpecialChars;
    s.useLowercase || s.useDigits || s.useSpecialChars || s.useUppercase
  }

  /** The working alphabet: the strings of the enabled classes, concatenated
      in the order lowercase, uppercase, digits, special. */
  function Alphabet(s: Selection): (r: string)
    ensures |r| == (if s.useLowercase then 26 else 0) + (if s.useUppercase then 26 else 0)
                 + (if s.useDigits then 10 else 0) + (if s.useSpecialChars then 26 else 0)
    ensures |r| > 0 <==> AnyEnabled(s)
  {
    (if s.useLowercase then LowercaseChars else "")
    + (if s.useUppercase then UppercaseChars else "")
    + (if s.useDigits then DigitChars else "")
    + (if s.useSpecialChars then SpecialChars else "")
  }

  lemma LowercaseRange()
    ensures forall j :: 0 <= j < |LowercaseChars| ==> ClassOf(LowercaseChars[j]) == Lowercase
  {
  }

  lemma UppercaseRange()
    ensures forall j :: 0 <= j < |UppercaseChars| ==> ClassOf(UppercaseChars[j]) == Uppercase
  {
  }

  lemma DigitRange()
    ensures forall j :: 0 <= j < |DigitChars| ==> ClassOf(DigitChars[j]) == Digit
  {
  }

  lemma SpecialRange()
    ensures forall j :: 0 <= j < |SpecialChars| ==> ClassOf(SpecialChars[j]) == Special
  {
  }

  /** Every character of a class string is sorted into that class. */
  lemma ClassCharsHaveClass(k: CharClass, c: char)
    requires c in ClassChars(k)
    ensures ClassOf(c) == k
  {
    match k
    case Lowercase => LowercaseRange();
    case Uppercase => UppercaseRange();
    case Digit => DigitRange();
    case Special => SpecialRange();
  }

  /** The four class strings are pairwise disjoint. */
  lemma ClassesDisjoint(k1: CharClass, k2: CharClass, c: char)
    requires k1 != k2
    ensures !(c in ClassChars(k1) && c in ClassChars(k2))
  {
    if c in ClassChars(k1) && c in ClassChars(k2) {
      ClassCharsHaveClass(k1, c);
      ClassCharsHaveClass(k2, c);
    }
  }

  /** Membership in a concatenation of four strings. */
  lemma ConcatMembers(a: string, b: string, d: string, e: string, c: char)
    ensures c in a + b + d + e <==> c in a || c in b || c in d || c in e
  {
    assert c in a + b <==> c in a || c in b;
    assert c in a + b + d <==> c in a + b || c in d;
  }

  /** A character is in the working alphabet exactly when it belongs to the
      string of its own class and that class is enabled. */
  lemma AlphabetMembers(s: Selection, c: char)
    ensures c in Alphabet(s) <==> s.Enabled(ClassOf(c)) && c in ClassChars(ClassOf(c))
  {
    var l := if s.useLowercase then LowercaseChars else "";
    var u := if s.useUppercase then UppercaseChars else "";
    var d := if s.useDigits then DigitChars else "";
    var x := if s.useSpecialChars then SpecialChars else "";
    ConcatMembers(l, u, d, x, c);
    if c in l {
      ClassCharsHaveClass(Lowercase, c);
    } else if c in u {
      ClassCharsHaveClass(Uppercase, c);
    } else if c in d {
      ClassCharsHaveClass(Digit, c);
    } else if c in x {
      ClassCharsHaveClass(Special, c);
    }
  }

  /** No character of a disabled class is in the working alphabet. */
  lemma DisabledClassExcluded(s: Selection, k: CharClass, c: char)
    requires !s.Enabled(k)
    requires c in ClassChars(k)
    ensures c !in Alphabet(s)
  {
    ClassCharsHaveClass(k, c);
    AlphabetMembers(s, c);
  }

  /** Every character of an enabled class is in the working alphabet. */
  lemma EnabledClassIncluded(s: Selection, k: CharClass, c: char)
    requires s.Enabled(k)
    requires c in ClassChars(k)
    ensures c in Alphabet(s)
  {
    ClassCharsHaveClass(k, c);
    AlphabetMembers(s, c);
  }
}
