/** The state of the password generator screen and the operations that act on
    it: the length slider, the four class switches, "select all types",
    generating a password and copying it. */
module App {
  import opened CharacterSets
  import opened Generation

  const DefaultLength: int := 20
  const MinLength: int := 8
  const MaxLength: int := 100

  /** What a request to generate a password ends in. */
  datatype GenerateOutcome = Generated | NoCharacterTypesSelected

  /** What a request to copy the password ends in: the text handed to the
      clipboard, or the "nothing to copy" notice. */
  datatype CopyOutcome = Copied(text: string) | NothingToCopy

  class PasswordApp {
    var sliderValue: int
    var password: string
    var useLowercase: bool
    var useUppercase: bool
    var useDigits: bool
    var useSpecialChars: bool

    /** The slider keeps the length within its bounds. */
    ghost predicate Valid()
      reads this
    {
      MinLength <= sliderValue <= MaxLength
    }

    /** The four class flags as one value. */
    function Flags(): Selection
      reads this
    {
      Selection(useLowercase, useUppercase, useDigits, useSpecialChars)
    }

    /** The initial state: length 20, every class enabled, no password yet. */
    constructor()
      ensures Valid()
      ensures sliderValue == DefaultLength && password == ""
      ensures Flags() == AllClasses
    {
      sliderValue := DefaultLength;
      password := "";
      useLowercase := true;
      useUppercase := true;
      useDigits := true;
      useSpecialChars := true;
    }

    /** Moving the slider sets the length; the slider offers only whole
        numbers from 8 to 100. */
    method SetLength(n: int)
      requires MinLength <= n <= MaxLength
      modifies this`sliderValue
      ensures Valid() && sliderValue == n
      ensures Flags() == old(Flags()) && password == old(password)
    {
      sliderValue := n;
    }

    /** Flipping the switch of one class sets its flag and no other. */
    method SetClassEnabled(k: CharClass, on: bool)
      requires Valid()
      modifies this`useLowercase, this`useUppercase, this`useDigits, this`useSpecialChars
      ensures Valid() && Flags() == old(Flags()).With(k, on)
      ensures sliderValue == old(sliderValue) && password == old(password)
    {
      match k
      case Lowercase => useLowercase := on;
      case Uppercase => useUppercase := on;
      case Digit => useDigits := on;
      case Special => useSpecialChars := on;
    }

    /** The recovery action offered when no class is selected: enables every
        class, touching neither the length nor the password. */
    method SelectAllTypes()
      requires Valid()
      modifies this`useLowercase, this`useUppercase, this`useDigits, this`useSpecialChars
      ensures Valid() && Flags() == AllClasses && AnyEnabled(Flags())
      ensures sliderValue == old(sliderValue) && password == old(password)
    {
      useLowercase := true;
      useUppercase := true;
      useDigits := true;
      useSpecialChars := true;
    }

    /** Generates a password of `sliderValue` characters from the working
        alphabet, taking one draw per position; with no class enabled it
        reports that and leaves the whole state as it was. */
    method GeneratePassword(draws: seq<real>) returns (outcome: GenerateOutcome)
      requires Valid()
      requires UnitDraws(draws) && sliderValue <= |draws|
      modifies this`password
      ensures Valid() && Flags() == old(Flags()) && sliderValue == old(sliderValue)
      ensures outcome == Generated <==> AnyEnabled(Flags())
      ensures outcome == NoCharacterTypesSelected ==> password == old(password)
      ensures outcome == Generated ==>
        && password == Sample(Alphabet(Flags()), draws[..sliderValue])
        && |password| == sliderValue
        && forall i :: 0 <= i < |password| ==> password[i] in Alphabet(Flags())
    {
      if useLowercase || useDigits || useSpecialChars || useUppercase {
        var characters := BuildAlphabet(Flags());
        var generated := FillPassword(characters, draws, sliderValue);
        SampleInAlphabet(characters, draws[..sliderValue]);
        password := generated;
        outcome := Generated;
      } else {
        outcome := NoCharacterTypesSelected;
      }
    }

    /** Copies the password only when there is one. */
    method HandleCopy() returns (outcome: CopyOutcome)
      ensures outcome.Copied? <==> password != ""
      ensures outcome.Copied? ==> outcome.text == password
    {
      if password != "" {
        outcome := Copied(password);
      } else {
        outcome := NothingToCopy;
      }
    }
  }

  /** Generating with every class switched off fails and changes nothing:
      the password stays empty, the flags stay off and the length stays 20.
      After "select all types" the same request yields a 20-character
      password drawn from all four classes. */
  method RecoveryScenario(draws: seq<real>)
    returns (first: GenerateOutcome, blockedPassword: string, blockedFlags: Selection, blockedLength: int,
             second: GenerateOutcome, password: string)
    requires UnitDraws(draws) && DefaultLength <= |draws|
    ensures first == NoCharacterTypesSelected
    ensures blockedPassword == "" && blockedLength == DefaultLength
    ensures blockedFlags == Selection(false, false, false, false)
    ensures second == Generated
    ensures |password| == DefaultLength
    ensures forall i :: 0 <= i < |password| ==> password[i] in Alphabet(AllClasses)
  {
    var app := new PasswordApp();
    app.SetClassEnabled(Lowercase, false);
    app.SetClassEnabled(Uppercase, false);
    app.SetClassEnabled(Digit, false);
    app.SetClassEnabled(Special, false);
    first := app.GeneratePassword(draws);
    blockedPassword, blockedFlags, blockedLength := app.password, app.Flags(), app.sliderValue;
    app.SelectAllTypes();
    second := app.GeneratePassword(draws);
    password := app.password;
  }
}
