# Random password generator: the generation core

This project models the decision logic of a browser-based random password
generator. The screen keeps a desired length (a slider from 8 to 100,
default 20) and four switches for the character classes: lowercase letters,
uppercase letters, digits and special characters. All four are on at first.

To generate a password, the screen first checks that at least one class is
on. It then builds a working alphabet by concatenating the fixed strings of
the enabled classes, in the order lowercase, uppercase, digits, special. For
every position it picks the character at index `floor(r * |alphabet|)` of a
random number `r` in [0, 1), and stores the result. With no class enabled it
only reports "no character types selected" and offers "select all types" as
the fix. Copying hands the password to the clipboard only when there is one.

Layout:

- `charsets.dfy`, module `CharacterSets`: the four class strings, the
  `Selection` of enabled flags, the working `Alphabet`, the class of a
  character, and lemmas on alphabet size, membership and disjointness.
- `generation.dfy`, module `Generation`: the draw-to-index map, the password
  that a sequence of draws produces (`Sample`), the imperative alphabet
  builder and generation loop, and lemmas on the generated password.
- `app.dfy`, module `App`: class `PasswordApp` with the screen's state
  fields (`sliderValue`, `password` and the four `use…` flags) and its
  operations.

The random source is a parameter. A call receives a sequence of draws, each
a real number in [0, 1), and consumes one draw per position.

## Model

| member | source | states |
|---|---|---|
| CharacterSets.AnyEnabled | src/App.tsx:61 | true exactly when at least one of the four class flags is set |
| CharacterSets.Alphabet | src/App.tsx:61-66 | the working alphabet's length is 26/26/10/26 summed over the enabled classes, and it is non-empty exactly when the guard "some class enabled" holds |
| CharacterSets.ClassesDisjoint | src/App.tsx:63-66 | no character belongs to two of the four class strings |
| CharacterSets.AlphabetMembers | src/App.tsx:62-66 | a character is in the working alphabet if and only if its class is enabled and it is in that class's string |
| CharacterSets.DisabledClassExcluded | src/App.tsx:63-66 | no character of a disabled class is in the working alphabet |
| CharacterSets.EnabledClassIncluded | src/App.tsx:63-66 | every character of an enabled class is in the working alphabet |
| CharacterSets.Selection.With | src/App.tsx:177-209 | flipping one class switch sets that flag to the new value and keeps every other flag |
| Generation.DrawIndex | src/App.tsx:69-71 | `floor(r * n)` with `0 <= r < 1` and `n > 0` is a valid index, below `n` |
| Generation.DrawIndexInterval | src/App.tsx:69-71 | draw `r` selects index `i` if and only if `i/n <= r < (i+1)/n`, so every index owns an interval of width `1/n` of the draws |
| Generation.Pick | src/App.tsx:69-71 | the character a draw selects is a member of the alphabet |
| Generation.Sample | src/App.tsx:67-72 | the password produced from a sequence of draws has exactly one character per draw |
| Generation.SampleAt | src/App.tsx:67-72 | character `i` of the password is the character that draw `i` selects |
| Generation.SampleInAlphabet | src/App.tsx:67-72 | every character of a generated password is in the alphabet it was drawn from |
| Generation.SampleRespectsSelection | src/App.tsx:61-72 | every character of a generated password belongs to an enabled class and comes from that class's string |
| Generation.SampleExcludesDisabled | src/App.tsx:61-72 | a generated password holds no character of any disabled class |
| Generation.LowercaseOnly | src/App.tsx:61-72 | with only lowercase letters enabled, every generated character is between 'a' and 'z' |
| Generation.BuildAlphabet | src/App.tsx:62-66 | the conditional appends build exactly the working alphabet of the flags, so two builds from unchanged flags give the same string |
| Generation.FillPassword | src/App.tsx:67-72 | the counted loop, appending one drawn character per iteration, yields the password the first `count` draws produce |
| App.PasswordApp.Valid | src/App.tsx:170-171 | the length lies in 8..100 |
| App.PasswordApp.constructor | src/App.tsx:21-28 | the initial state has length 20, all four classes enabled and an empty password |
| App.PasswordApp.SetLength | src/App.tsx:165-173 | the slider sets the length to a whole number in 8..100 and changes nothing else |
| App.PasswordApp.SetClassEnabled | src/App.tsx:175-209 | a class switch sets its own flag only; the length and the password stay, and the length bounds still hold |
| App.PasswordApp.SelectAllTypes | src/App.tsx:53-58 | all four flags become true, so the guard then holds; the length and the password stay |
| App.PasswordApp.GeneratePassword | src/App.tsx:60-91 | generation succeeds exactly when some class is enabled; on success the stored password has length `sliderValue` and every character is in the working alphabet; on failure the password, the flags and the length are unchanged |
| App.PasswordApp.HandleCopy | src/App.tsx:30-34 | the password is copied if and only if it is non-empty, and the copied text is the password; the state never changes |
| App.RecoveryScenario | src/App.tsx:53-91 | with every class off, generation fails and leaves the password empty, the flags off and the length 20; after "select all types", generation at the default length gives a 20-character password from all four classes |

## Left out

- The automatic regeneration on every change of the length or a flag (src/App.tsx:104-106) is left out. It is scheduling by the UI framework; each regeneration is one call of `GeneratePassword`.
- The mirror of the password into the text field (src/App.tsx:100-102) is left out because it is display state.
- The random source is a parameter: a sequence of draws in [0, 1). Its distribution is not modelled. `DrawIndexInterval` states only that each index owns an equal share of [0, 1).
- Draws and their product with the alphabet length are exact reals, not IEEE doubles. Rounding of the floating-point product is not modelled.
- JavaScript strings are sequences of UTF-16 code units. Every character here is ASCII, so a `char` stands for one unit. `charAt` returns an empty string for an index out of range; in exact arithmetic, `DrawIndex` proves that case never arises.
- The notifications, with their "Check All Types" and "Generate Password" buttons (src/App.tsx:33-49, 75-90), are left out. The outcome values `NoCharacterTypesSelected` and `NothingToCopy` stand for them. The button actions are `SelectAllTypes` and `GeneratePassword`.
- The clipboard write (src/App.tsx:32) is platform I/O. `HandleCopy` returns the text that it would write.
- The link button to the repository and all markup (src/App.tsx:108-221) are left out because they are rendering only.
- The generator stores the password in the screen's state rather than returning it as a pure value. The model follows the code: `GeneratePassword` assigns `password`, and the pure part is `Sample`.
