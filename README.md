# Password generator core in Dafny

A model of the logic of a client-side password generator (a single React
component, `App.tsx`, with its types in `types.ts`). The component keeps a
length, four character-class switches (uppercase, lowercase, numbers,
symbols), the current password, a strength level and a "copied" flag. It

- builds a character pool by concatenating the fixed alphabets of the enabled
  classes, always in the order uppercase, lowercase, numbers, symbols;
- draws `length` characters from the pool at random indices, or writes the
  placeholder `Select options` when no class is enabled;
- scores the configuration (one point for each length threshold 8, 12, 16 met,
  one point per enabled class) and maps the score to Too Weak, Weak, Medium or
  Strong;
- flips one switch per checkbox change, and sets `copied` when the user copies
  a real password.

Modules, one per part of the component:

- `Options` (`options.dfy`): `PasswordOptions` as a four-boolean datatype, the
  switch names, and the toggle.
- `Charsets` (`charsets.dfy`): the four alphabets of `CHARSETS` and the
  character class each one is.
- `Strength` (`strength.dfy`): the score, the level, and `CalculateStrength`,
  the step-by-step counting of the source, proved to yield the level of the
  pure score.
- `Generator` (`generator.dfy`): the pool, `BuildCharset` (the `+=`
  accumulation), and `GeneratePassword` (the sampling loop). The random indices
  are an input sequence `draws`, each below the pool size, which is what
  `Math.floor(Math.random() * charset.length)` can produce.
- `App` (`app.dfy`): the component's state as the class `PasswordGenerator`,
  one method per handler, and the effect that regenerates and rescores after a
  configuration change as the explicit method `Refresh`.

The symbols alphabet `!@#$%^&*()_+-=[]{}|;:,.<>?` has 26 characters
(`App.tsx:11`), so a pool with all classes has 88 characters.

The code overloads the password value with the placeholder `Select options`
for an empty pool; the model keeps that string rather than a separate
"unavailable" state, and proves that no generated password can equal it (the
placeholder holds a space, which no alphabet does).

## Model

| member | source | states |
|---|---|---|
| `Options.Toggle` | App.tsx:73-75 | the toggled switch is negated and the other three keep their values |
| `Options.ToggleTwice` | App.tsx:73-75 | toggling the same switch twice gives back the original options |
| `Options.ToggleEnabled` | App.tsx:73-75 | toggling removes the switch from the enabled set if it was on and adds it otherwise; the class count moves by exactly one |
| `Options.EnabledCountIsCardinality` | App.tsx:32-36 | counting `charTypes` switch by switch gives the number of enabled classes, at most 4 |
| `Strength.Score` | App.tsx:27-38 | the score never exceeds 7 |
| `Strength.ScoreCountsThresholds` | App.tsx:27-38 | the score is the number of thresholds in {8, 12, 16} the length reaches plus the number of enabled classes |
| `Strength.LevelCountsBoundaries` | App.tsx:40-43 | the level's rank is the number of the boundaries 3, 5, 6 the score reaches: Too Weak up to 2, Weak for 3-4, Medium for 5, Strong from 6 |
| `Strength.LevelMonotone` | App.tsx:40-43 | a higher score never gives a lower level |
| `Strength.EnabledCountMonotone` | App.tsx:32-36 | enabling more classes never lowers the class points |
| `Strength.StrengthMonotone` | App.tsx:27-43 | a longer length or a superset of enabled classes never lowers the score or the level |
| `Strength.StrengthExamples` | App.tsx:26-44 | length 16 with all classes is Strong; 8 with lowercase only is Too Weak; 12 with upper, lower and numbers is Medium; 16 with upper and lower is Medium; 32 with no class is Weak |
| `Strength.CalculateStrength` | App.tsx:26-44 | the imperative counting with `score` and `charTypes` yields the level of the pure score, whose rank counts the level boundaries reached |
| `Charsets.CharsetSizes` | App.tsx:7-12 | the alphabets hold 26, 26, 10 and 26 characters |
| `Charsets.UppercaseClass` | App.tsx:8 | a character is in the uppercase alphabet exactly when it is between A and Z |
| `Charsets.LowercaseClass` | App.tsx:9 | a character is in the lowercase alphabet exactly when it is between a and z |
| `Charsets.NumbersClass` | App.tsx:10 | a character is in the numbers alphabet exactly when it is a digit |
| `Charsets.SymbolsClass` | App.tsx:11 | a symbol is not a letter, not a digit and not a space |
| `Charsets.CharsetsClassed` | App.tsx:7-12 | every character of each alphabet has that alphabet's class rank |
| `Generator.Pool` | App.tsx:47-51 | the pool's length is the sum of 26, 26, 10 and 26 over the enabled classes |
| `Generator.PoolMembers` | App.tsx:47-51 | a character is in the pool exactly when its class is enabled |
| `Generator.PoolEmpty` | App.tsx:47-53 | the pool is empty exactly when no class is enabled |
| `Generator.PoolHasNoSpace` | App.tsx:7-12 | the pool never holds a space |
| `Generator.PoolOrdered` | App.tsx:47-51 | along the pool the class never goes back: uppercase, then lowercase, then digits, then symbols |
| `Generator.DrawnNeverSentinel` | App.tsx:53-62 | a string made only of pool characters is never `Select options` |
| `Generator.GeneratedIsPossible` | App.tsx:58-62 | a password generated from valid draws has `length` characters (none for length 0 or less), all from the pool |
| `Generator.PossibleIsGenerated` | App.tsx:58-62 | every string of that length over the pool is produced by some valid draws |
| `Generator.BuildCharset` | App.tsx:47-51 | the `+=` accumulation of the enabled alphabets yields the pool |
| `Generator.GeneratePassword` | App.tsx:46-64 | the sentinel exactly when the pool is empty; otherwise `length` characters with character i the pool character at draw i, and the empty string for a length of 0 or less |
| `App.OutcomeCopyable` | App.tsx:77-78 | after generation the copy guard passes exactly when some class is enabled and the length is positive |
| `App.PasswordGenerator.constructor` | App.tsx:15-24 | the initial state: empty password, length 16, upper, lower and numbers on, symbols off, Too Weak, not copied |
| `App.PasswordGenerator.SetLength` | App.tsx:120 | the slider sets the length and nothing else |
| `App.PasswordGenerator.HandleOptionChange` | App.tsx:73-75 | the options become the toggle of the old options; nothing else changes |
| `App.PasswordGenerator.Regenerate` | App.tsx:140-146 | the button regenerates the password from the draws for the unchanged configuration and keeps a settled state settled |
| `App.PasswordGenerator.Refresh` | App.tsx:66-70 | the effect regenerates the password and recomputes the strength, after which password and strength agree with the configuration |
| `App.PasswordGenerator.HandleCopyToClipboard` | App.tsx:77-83 | `copied` becomes true when the password is non-empty and not the sentinel, and is unchanged otherwise |
| `App.ToggleSymbolsAndCopy` | App.tsx:66-82 | starting from the initial state, running the effect, enabling symbols and running it again gives a 16-character Strong password that the copy action accepts |

## Left out

- The React hook machinery (`useState`, `useCallback`, `useEffect`): the state is the fields of `PasswordGenerator`, and the effect after a change of length or options is `Refresh`, which a caller invokes explicitly.
- The random source (`Math.random`) and the uniformity of the draws: the draws are an input, and only the shape of the result is proved, not its distribution.
- `navigator.clipboard.writeText`: a foreign side effect; `HandleCopyToClipboard` models only the guard and the `copied` flag.
- The 2000 ms `setTimeout` that resets `copied`: timer-driven. The code does not cancel an earlier timer when the user copies again, so there is no "restart the window" behaviour to model either.
- The slider bounds 6 to 32: they constrain only the UI control; the generator and the scorer accept any integer length, and a negative length runs the loop zero times.
- `Number(e.target.value)`: the length is an integer; a non-integer or NaN length cannot come from the range input and is not modelled.
- The `color` strings of `Strength` in `types.ts`, all markup, styles and animation, and `components/Checkbox.tsx`: presentation only.
- JavaScript strings are UTF-16; every alphabet character is ASCII, so one `char` per code unit is exact here.
