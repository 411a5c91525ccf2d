/** Building the working alphabet and drawing a password from it. The random
    source is an oracle: a sequence of draws, each a real number in [0, 1). */
module Generation {
  import opened CharacterSets

  /** Every draw of the random source lies in [0, 1). */
  predicate UnitDraws(draws: seq<real>) {
    forall i :: 0 <= i < |draws| ==> 0.0 <= draws[i] < 1.0
  }

  /** The index a draw `r` selects in an alphabet of `n` characters: the floor
      of `r * n`. */
  function DrawIndex(r: real, n: nat): (i: nat)
    requires 0.0 <= r < 1.0
    requires n > 0
    ensures i < n
  {
    var x := r * n as real;
    assert 0.0 <= x < n as real by {
      assert r * n as real < 1.0 * n as real;
    }
    x.Floor
  }

  /** Scaling both sides by a positive factor keeps their order. */
  lemma ScaleOrder(a: real, b: real, m: real)
    requires m > 0.0
    ensures a <= b <==> a * m <= b * m
    ensures a < b <==> a * m < b * m
  {
    assert (b - a) * m == b * m - a * m;
  }

  /** Each index owns an interval of draws of width 1/n, so a uniform draw
      selects every index with the same probability. */
  lemma DrawIndexInterval(r: real, n: nat, i: nat)
    requires 0.0 <= r < 1.0
    requires n > 0
    ensures DrawIndex(r, n) == i <==> i as real / n as real <= r < (i + 1) as real / n as real
  {
    var nr := n as real;
    var lo := i as real / nr;
    var hi := (i + 1) as real / nr;
    assert lo * nr == i as real;
    assert hi * nr == (i + 1) as real;
    ScaleOrder(lo, r, nr);
    ScaleOrder(r, hi, nr);
  }

  /** The character a draw picks from a non-empty alphabet. */
  function Pick(characters: string, r: real): (c: char)
    requires |characters| > 0
    requires 0.0 <= r < 1.0
    ensures c in characters
  {
    characters[DrawIndex(r, |characters|)]
  }

  /** The password that the draws produce, one character per draw, in order. */
  function Sample(characters: string, draws: seq<real>): (p: string)
    requires |characters| > 0
    requires UnitDraws(draws)
    ensures |p| == |draws|
    decreases |draws|
  {
    if draws == [] then ""
    else Sample(characters, draws[..|draws| - 1]) + [Pick(characters, draws[|draws| - 1])]
  }

  /** Position `i` of a sampled password is the character draw `i` picks. */
  lemma {:induction false} SampleAt(characters: string, draws: seq<real>, i: nat)
    requires |characters| > 0
    requires UnitDraws(draws)
    requires i < |draws|
    ensures Sample(characters, draws)[i] == Pick(characters, draws[i])
  {
    var n := |draws| - 1;
    if i < n {
      assert draws[..n][i] == draws[i];
      SampleAt(characters, draws[..n], i);
    }
  }

  /** Every character of a sampled password is in the alphabet it was drawn from. */
  lemma SampleInAlphabet(characters: string, draws: seq<real>)
    requires |characters| > 0
    requires UnitDraws(draws)
    ensures forall i :: 0 <= i < |draws| ==> Sample(characters, draws)[i] in characters
  {
    forall i | 0 <= i < |draws| ensures Sample(characters, draws)[i] in characters {
      SampleAt(characters, draws, i);
    }
  }

  /** A password drawn from the working alphabet of `s` holds only characters
      of enabled classes, each taken from its own class string. */
  lemma SampleRespectsSelection(s: Selection, draws: seq<real>, i: nat)
    requires AnyEnabled(s)
    requires UnitDraws(draws)
    requires i < |draws|
    ensures var c := Sample(Alphabet(s), draws)[i];
      s.Enabled(ClassOf(c)) && c in ClassChars(ClassOf(c))
  {
    SampleAt(Alphabet(s), draws, i);
    AlphabetMembers(s, Sample(Alphabet(s), draws)[i]);
  }

  /** A password drawn from the working alphabet of `s` holds no character of
      a class that `s` disables. */
  lemma SampleExcludesDisabled(s: Selection, draws: seq<real>, k: CharClass)
    requires AnyEnabled(s)
    requires UnitDraws(draws)
    requires !s.Enabled(k)
    ensures forall i :: 0 <= i < |draws| ==> Sample(Alphabet(s), draws)[i] !in ClassChars(k)
  {
    forall i | 0 <= i < |draws| ensures Sample(Alphabet(s), draws)[i] !in ClassChars(k) {
      var c := Sample(Alphabet(s), draws)[i];
      SampleRespectsSelection(s, draws, i);
      if c in ClassChars(k) {
        ClassCharsHaveClass(k, c);
      }
    }
  }

  /** With only lowercase letters enabled, every generated character is
      between 'a' and 'z'. */
  lemma LowercaseOnly(draws: seq<real>)
    requires UnitDraws(draws)
    ensures forall i :: 0 <= i < |draws| ==>
      'a' <= Sample(Alphabet(Selection(true, false, false, false)), draws)[i] <= 'z'
  {
    var s := Selection(true, false, false, false);
    forall i | 0 <= i < |draws| ensures 'a' <= Sample(Alphabet(s), draws)[i] <= 'z' {
      SampleRespectsSelection(s, draws, i);
    }
  }

  /** Builds the working alphabet by appending the string of each enabled
      class in turn. */
  method BuildAlphabet(s: Selection) returns (characters: string)
    ensures characters == Alphabet(s)
  {
    characters := "";
    if s.useLowercase { characters := characters + LowercaseChars; }
    if s.useUppercase { characters := characters + UppercaseChars; }
    if s.useDigits { characters := characters + DigitChars; }
    if s.useSpecialChars { characters := characters + SpecialChars; }
  }

  /** Appends one drawn character per position for `count` positions. */
  method FillPassword(characters: string, draws: seq<real>, count: nat) returns (password: string)
    requires |characters| > 0
    requires UnitDraws(draws)
    requires count <= |draws|
    ensures password == Sample(characters, draws[..count])
  {
    password := "";
    var i := 0;
    while i < count
      invariant 0 <= i <= count
      invariant password == Sample(characters, draws[..i])
    {
      assert draws[..i + 1][..i] == draws[..i];
      password := password + [characters[DrawIndex(draws[i], |characters|)]];
      i := i + 1;
    }
  }
}
