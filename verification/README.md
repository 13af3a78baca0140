# Password generator — a Dafny model

The repository is a single-page password generator. Its component holds six
pieces of state: the displayed `password`, the requested `charLength`, and
four include flags, one per character class. Checkboxes toggle the flags. A
range slider (4 to 20) sets the length. The generate button builds a pool by
appending the enabled classes' fixed strings in the order uppercase,
lowercase, numbers, symbols. If the pool is empty, it shows an error and keeps
the old password. Otherwise it draws `charLength` random indices into the
pool and stores the characters they select.

The model has two modules:

- `CharacterPool` (`pool.dfy`) holds the four classes and their strings, the
  flags as a value, and `Charset`, the pool as a pure function. It proves
  what the pool is: the enabled classes in order, its size, which characters
  it holds, and that no character occurs twice in it.
- `App` (`app.dfy`) holds the sampling loop as the method `FillPassword`. The
  loop is proved against the specification function `Sample`. The module
  also holds the component as the class `Generator`, with the six fields and
  one method per handler.

`Math.random` is replaced by an explicit sequence of draws: one natural
number per loop iteration, each below the pool size. That bound is exactly
what `Math.floor(Math.random() * charset.length)` guarantees. The output is
then a function of the draws.

## Model

| member | source | states |
|---|---|---|
| `CharacterPool.Charset` | src/App.jsx:34-38 | The pool's length is the sum of the enabled classes' sizes (26 upper-case, 26 lower-case, 10 digits, 15 symbols). The pool is empty exactly when no flag is set. |
| `CharacterPool.CharsetIsEnabledClassesInOrder` | src/App.jsx:34-38 | The pool equals an independent reference: take the enabled classes from the order uppercase, lowercase, numbers, symbols, and concatenate their strings. |
| `CharacterPool.CharsetMembership` | src/App.jsx:34-38 | A character is in the pool if and only if some enabled class contains it. |
| `CharacterPool.CharsetMonotone` | src/App.jsx:34-38 | Enabling more classes never removes a character from the pool. |
| `CharacterPool.ClassInCharsetIffEnabled` | src/App.jsx:34-38 | A character of class k is in the pool if and only if k is enabled. So a toggle adds or removes exactly its own class's characters. |
| `CharacterPool.ClassesAreDisjoint` | src/App.jsx:35-38 | No character belongs to two of the four class strings. |
| `CharacterPool.ClassCharsHaveNoDuplicates` | src/App.jsx:35-38 | No class string repeats a character. |
| `CharacterPool.CharsetHasNoDuplicates` | src/App.jsx:34-38 | Whatever flags are set, no character occurs twice in the pool. So a uniform index picks each enabled character with the same chance. |
| `App.Sample` | src/App.jsx:45-49 | The sampled password has one character per draw. Character i is the pool character at draw i. |
| `App.FillPassword` | src/App.jsx:45-49 | The counted loop that appends `charset[draw]` `charLength` times yields exactly `Sample(charset, draws)`. |
| `App.ProducibleIffOverPool` | src/App.jsx:45-49 | Some in-range draw sequence of length n yields a password if and only if it has length n and every character is in the pool. |
| `App.SampleInjective` | src/App.jsx:46-48 | Over a pool without repeats, equal passwords come from equal draw sequences. Each possible password has exactly one draw sequence. |
| `App.SampleFromEnabledClasses` | src/App.jsx:34-49 | Every generated character belongs to a class whose flag is set. |
| `App.NumbersOnlyGivesDigits` | src/App.jsx:37-49 | With only numbers selected, every generated character lies in '0'..'9'. |
| `App.UppercaseAndSymbolsOnly` | src/App.jsx:35-49 | With uppercase and symbols selected, every character is in 'A'..'Z' or is one of the symbols. |
| `App.Generator.constructor` | src/App.jsx:6-11 | The initial state: password "Generated Password", length 4 and no flags set. The length is within the slider's bounds. |
| `App.Generator.HandleCheckboxChange` | src/App.jsx:13-31 | The flag whose checkbox name matches is set to `checked`. The other three flags keep their values. An unknown name changes no flag. `password` and `charLength` are unchanged, and `Valid()` is kept. |
| `App.Generator.HandleCharLengthChange` | src/App.jsx:65-68 | `charLength` becomes the slider value (4 to 20, the slider's bounds at src/App.jsx:95-96). The flags and the password are unchanged. The bound invariant `Valid()` holds afterwards. |
| `App.Generator.GeneratePassword` | src/App.jsx:33-52 | The outcome is the rejection with the "select at least one character set" message when no flag is set, and `Generated` when at least one flag is set. On rejection the password is unchanged. On `Generated` the password becomes `Sample(pool, draws)`, of length `charLength`, with every character in the pool. Only `password` may change, so the slider-bounds invariant `Valid()` is kept. |

## Left out

- Rendering and layout (src/App.jsx:70-160) are presentation only.
- Toast notifications are a third-party UI library. The empty-pool error is the `Rejected` outcome carrying its message. The success toast belongs to the copy action, which is also left out.
- `copyToClipboard` is an asynchronous browser clipboard call with no logic of its own.
- `Math.random` and the floating-point multiply and floor are left out. They become the `draws` parameter, with the precondition that each draw is below the pool size. The draws are only constrained when the pool is non-empty, because no draw happens otherwise.
- `parseInt` of the slider's string value is left out. So is the initial `charLength` being the string `"4"`, which JavaScript compares as the number 4. `charLength` is a natural number, initially 4.
- React's deferred state updates (`setPassword`, `setIncludeUppercase`, …) are modelled as immediate field assignments. Each handler changes only its own fields, so the order of updates does not matter here.
- The code does not check for a length below 1: a length of 0 gives the empty password. The model follows the code, and `FillPassword` accepts any length.
- App.Generator.GeneratePassword: uniformity of the random source is not stated. The model captures it only structurally: `CharsetHasNoDuplicates` and `SampleInjective` show that uniform draws over pool indices give every password over the enabled characters the same chance.
