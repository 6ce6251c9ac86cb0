# Name formatting engines, modelled in Dafny

This project models the two name formatters of the library:

- `formatName(name, format)` of `src/name-formatter.ts`. It has a fifteen-entry `tokenMap` (`F f FIRST L l LAST M m MIDDLE I i J j K k`). The keys are joined into one regular expression and applied by a global `String.replace`.
- `formatName(options)` of `src/strfname.ts`. It has the twelve one-letter keys and a module-level `globalDefaultFormat`. The default starts as `"F L"`, `setDefaultFormat` replaces it, and the default is used when `options.format` is falsy.

A format string is scanned from left to right (`TokenScan.Scan`). A regex alternation takes the first alternative in the order written that matches, not the longest, and only the `g` flag is set, so matching is case-sensitive. At each position, the first key in table order that starts the rest of the format is replaced by its derived value, and the scan resumes after it. Where no key starts, one character is copied unchanged.

In `src/name-formatter.ts`, `F`, `L` and `M` are listed before `FIRST`, `LAST` and `MIDDLE`. So the multi-letter keys never win: the first character alone decides every match (`TokenScan.MatchByHead`). Both formatters therefore equal one per-character reference, `TokenScan.Letterwise`, which replaces each token letter by its value and keeps every other character. From that follow:

- the agreement of the two files (`Strfname.TablesAgree`);
- the concatenation property (`TokenScan.LetterwiseAppend`);
- the concrete expectations of `src/name-formatter.test.ts`.

Name fields are `Option<string>`. `None` stands for `null` / `undefined`. `Field` reads `None` and `Some("")` alike as `""`, which is what `x || ''` does. The options object is an `Option` of a record, and so is the two-argument variant's `name`. The module-level variable of `src/strfname.ts` is the field of a `Strfname.Formatter` object. `setDefaultFormat` and `formatName(options)` are methods on it. The pure specification of `formatName(options)` is `Strfname.Render`, which takes the default format as a parameter.

The test names and expectations of `src/name-formatter.test.ts` (lines 32-62) describe a different matcher from the one the code implements. The model follows the code, which has:

- first-match alternation, so it never picks the longest token;
- no case-insensitive `LAST` and no special rule for differently cased `MIDDLE`, so `lAST` reads as `l` followed by the literal `AST`;
- no dropping of unrecognised characters: `X` in `"F X L Y"` is copied to the output.

Three assertions of `src/name-formatter.test.ts` (lines 33, 57 and 61) expect those other behaviours. Lemmas state what the code returns instead (`NameFormatterTests.AllCapsWordsReadByLetter`, `MixedCaseWordsReadByLetter`, `UnknownLettersCopied`). Each also proves that the result differs from the test's expected string.

Files:

- `wrappers.dfy`: `Option`.
- `ascii_case.dfy`: ASCII `toUpperCase` / `toLowerCase`.
- `names.dfy`: `Name`, token table entries, `Derive`.
- `token_scan.dfy`: first-match scan, shadowed tables, the per-character reference.
- `name_formatter.dfy`: `src/name-formatter.ts`.
- `strfname.dfy`: `src/strfname.ts`.
- `name_formatter_tests.dfy`: the expectations of `src/name-formatter.test.ts`. The per-character pieces at its end are evaluation steps for the test lemmas, not separate claims.

## Model

| member | source | states |
|---|---|---|
| AsciiCase.UpperChar | src/name-formatter.ts:28 | The result is never a lower-case letter. A letter `a`..`z` moves down by 32 code points and any other character is unchanged. |
| AsciiCase.LowerChar | src/name-formatter.ts:29 | The result is never an upper-case letter. A letter `A`..`Z` moves up by 32 code points and any other character is unchanged. |
| AsciiCase.Upper | src/name-formatter.ts:18 | `toUpperCase` keeps the length and maps every character by `UpperChar`. |
| AsciiCase.Lower | src/name-formatter.ts:17 | `toLowerCase` keeps the length and maps every character by `LowerChar`. |
| Names.Field | src/name-formatter.ts:16 | The falsy fallback to `''`: the result is `""` exactly when the field is absent or is `""`, and a non-empty result is the field's own value. |
| Names.Initial | src/name-formatter.ts:28-35 | `charAt(0)` re-cased behind a truthiness test: length 0 for an empty field and 1 otherwise, equal to `toUpperCase` or `toLowerCase` of the one-character prefix, and with no letter of the opposite case. |
| Names.Derive | src/name-formatter.ts:16-35 | What each token lambda yields. An empty or absent field gives `""`. `F`/`L`/`M` give the field as it is. Whole-field transforms keep the length and re-case every character. Initials are at most one character, the re-cased first character. Lower-casing transforms leave no upper-case letter and upper-casing ones leave no lower-case letter. |
| TokenScan.KeyHeads | src/name-formatter.ts:41 | The set of characters at which a match can start is exactly the first characters of the non-empty keys, in both directions. |
| TokenScan.Match | src/name-formatter.ts:41 | An alternative the regex picks is an entry of the table whose key starts the input. No pick means no key of the table starts it. |
| TokenScan.MatchIsFirst | src/name-formatter.ts:41 | Among the keys that start the input, the first in table order is picked. |
| TokenScan.Scan | src/name-formatter.ts:55-61 | The global replace terminates, because every key is non-empty. A format with no character that starts a key comes back unchanged. |
| TokenScan.ShadowedWellFormed | src/name-formatter.ts:14-36 | In a table where every longer key follows the one-letter key it starts with, every key is non-empty. |
| TokenScan.MatchByHead | src/name-formatter.ts:14-41 | In such a table the first character alone decides the match, and the winning key is that one character. |
| TokenScan.LetterEntry | src/strfname.ts:31-50 | Each token letter's entry: its key is the letter, `F f I i` read the first name, `M m J j` the middle and `L l K k` the last. Upper-case `F L M` keep the field, lower-case `f l m` lower it, `I J K` give an upper-case initial and `i j k` a lower-case one. |
| TokenScan.LetterValue | src/strfname.ts:72-75 | A character that is not a token letter stands for itself. A token letter reading an absent or empty field vanishes. An initial letter gives at most one character, and a whole-field letter gives as many characters as its field has. |
| TokenScan.Letterwise | src/strfname.ts:72-75 | Reference semantics: a format without token letters comes back unchanged. |
| TokenScan.LetterMatch | src/name-formatter.ts:41 | In a table of the twelve letters, a one-character input is matched by that letter's entry, and by nothing when it is not a token letter. |
| TokenScan.LetterTableMatch | src/name-formatter.ts:41 | In a shadowed letter table the match at any position is the entry of the current character when that is a token letter, and there is none otherwise. The empty input matches nothing. |
| TokenScan.NothingMatchesEmpty | src/name-formatter.ts:41 | No key of a shadowed table matches the empty string. |
| TokenScan.ScanIsLetterwise | src/name-formatter.ts:55-61 | In a shadowed letter table the first-match scan equals the per-character reference on every format. |
| TokenScan.LetterwiseAppend | src/name-formatter.ts:55-61 | No reordering: the output for `a + b` is the output for `a` followed by the output for `b`. |
| TokenScan.PartLetters | src/name-formatter.ts:15-35 | The letters reading a given field are exactly the token letters whose entry reads it. |
| TokenScan.EmptyFieldVanishes | src/name-formatter.ts:16-35 | When a field is absent or empty, deleting every letter that reads it from the format does not change the output, and the literals around it stay. |
| NameFormatter.TokenMapFacts | src/name-formatter.ts:14-36 | The fifteen-entry table `NameFormatter.TokenMap` is shadowed and has non-empty keys. Its one-letter keys are exactly the twelve letter entries. |
| NameFormatter.TokenMapShadowed | src/name-formatter.ts:14-26 | `FIRST`, `LAST` and `MIDDLE` each come after `F`, `L` and `M`. |
| NameFormatter.FormatName | src/name-formatter.ts:50-62 | A missing name, or a null or empty format, gives `""`. Otherwise the result is the per-character reference on the format. |
| NameFormatter.MultiLetterKeysNeverWin | src/name-formatter.ts:14-41 | The regex picks the one-letter key equal to the current character, case for case. A picked key always has length 1, so `FIRST`, `LAST` and `MIDDLE` never match. |
| NameFormatter.FormatNameAppend | src/name-formatter.ts:55-61 | `formatName(name, a + b)` is `formatName(name, a) + formatName(name, b)`, for all `a` and `b`. |
| NameFormatter.LiteralsCopied | src/name-formatter.ts:55-61 | A format without token letters is returned unchanged, so separators and unknown letters are copied. |
| NameFormatter.EmptyFieldTokensVanish | src/name-formatter.ts:16-35 | For an absent or empty field, the result is that of the format with the tokens reading that field removed. |
| NameFormatter.FirstNameTokens | src/name-formatter.ts:16-29 | As one-letter formats: `F` is the first name, `f` is it lower-cased, `I` is its upper-case initial and `i` its lower-case initial. |
| NameFormatter.MiddleNameTokens | src/name-formatter.ts:24-32 | The same four readings for `M m J j` and the middle name. |
| NameFormatter.LastNameTokens | src/name-formatter.ts:20-35 | The same four readings for `L l K k` and the last name. |
| NameFormatterTests.NullNameOrFormat | src/name-formatter.test.ts:15-18 | A null name or a null format gives `""`. |
| NameFormatterTests.FormatsFL | src/name-formatter.test.ts:20-22 | `"F L"` on John Robert Doe gives `"John Doe"`. |
| NameFormatterTests.FormatsLFM | src/name-formatter.test.ts:24-26 | `"L, F M"` gives `"Doe, John Robert"`. |
| NameFormatterTests.FormatsLowerDotted | src/name-formatter.test.ts:28-30 | `"f.l.m."` gives `"john.doe.robert."`. |
| NameFormatterTests.AllCapsWordsReadByLetter | src/name-formatter.test.ts:32-34 | The code gives `"JohnJRST DoeAST RobertJDDDoeE"` for `"FIRST LAST MIDDLE"`, not the expected `"JOHN DOE ROBERT"`. |
| NameFormatterTests.FormatsInitials | src/name-formatter.test.ts:36-38 | `"I.J.K."` gives `"J.R.D."`. |
| NameFormatterTests.FormatsLowerInitials | src/name-formatter.test.ts:40-42 | `"ijk"` gives `"jrd"`. |
| NameFormatterTests.MissingMiddleNameFML | src/name-formatter.test.ts:45 | Without a middle name, `"F M L"` gives `"Jane  Doe"`, with a double space. |
| NameFormatterTests.MissingMiddleNameFJL | src/name-formatter.test.ts:46 | Without a middle name, `"F J L"` gives `"Jane  Doe"`. |
| NameFormatterTests.MissingMiddleNameInitials | src/name-formatter.test.ts:47 | Without a middle name, `"I.J.K."` gives `"J..D."`. |
| NameFormatterTests.EmptyNameParts | src/name-formatter.test.ts:50-54 | Empty first and last names give `" "` for `"F L"` and `".."` for `"I.K."`. |
| NameFormatterTests.MixedCaseWordsReadByLetter | src/name-formatter.test.ts:56-58 | The code gives `"John doeAST RobertJdddoee"` for `"F lAST MIddle"`, not the expected `"John DOE Robert"`. |
| NameFormatterTests.UnknownLettersCopied | src/name-formatter.test.ts:60-62 | The code gives `"John X Doe Y"` for `"F X L Y"`: unknown letters are copied, so the result is not the expected `"John  Doe "`. |
| Strfname.TokenMapFacts | src/strfname.ts:31-50 | The twelve-entry table `Strfname.TokenMap` is shadowed and has non-empty keys. Every key is one character, and each of the twelve letters has its entry. |
| Strfname.FormatToUse | src/strfname.ts:66 | The falsy fallback from `options.format` to `globalDefaultFormat`: the format to use is empty exactly when the explicit format is falsy and the default is empty. A non-empty explicit format is the result, and otherwise the default is. |
| Strfname.Render | src/strfname.ts:61-76 | Missing options give `""`. Otherwise the result is the per-character reference on `options.format`, or on the default when that is falsy, and an empty format to use gives `""`. |
| Strfname.Formatter.constructor | src/strfname.ts:17 | The default format starts as `"F L"`. |
| Strfname.Formatter.SetDefaultFormat | src/strfname.ts:23-25 | The default becomes the argument unconditionally, `""` included. |
| Strfname.Formatter.FormatName | src/strfname.ts:61-76 | The result is `Render` with the default read at call time. Missing options give `""`. A non-empty explicit format is applied as it is. A null, undefined or empty format falls back to the default. Nothing is modified. |
| Strfname.ExplicitFormatIgnoresDefault | src/strfname.ts:66 | With a non-empty explicit format, the default does not affect the result. |
| Strfname.FallsBackToDefault | src/strfname.ts:66 | With a null, undefined or empty format, the result is the default format applied to the name. |
| Strfname.EmptyDefaultGivesEmpty | src/strfname.ts:66-70 | With no explicit format and an empty default, the result is `""`. |
| Strfname.TablesAgree | src/strfname.ts:31-52 | The twelve-key and the fifteen-key replace give the same output on every format. |
| Strfname.AgreesWithNameFormatter | src/strfname.ts:61-76 | For all options and defaults, `formatName(options)` equals `formatName(name, format)` of `src/name-formatter.ts` on the same fields and the format it uses. |
| Strfname.ScanAppend | src/strfname.ts:72-75 | With one-character keys only, the output for `a + b` is the output for `a` followed by that for `b`. |
| Strfname.DefaultFormatLifecycle | src/strfname.ts:17-25 | On a fresh module state, options whose format is absent or `""` are formatted with `"F L"`. After `setDefaultFormat("")`, the same options give `""`. |

## Left out

- AsciiCase.Upper, AsciiCase.Lower, AsciiCase.UpperChar, AsciiCase.LowerChar: only ASCII letters change case. JavaScript's full Unicode mapping can change length (`ß` becomes `SS`) and is not modelled.
- Names.Initial: `charAt(0)` takes the first UTF-16 code unit. The model takes the first `char`, so surrogate pairs are not modelled.
- Regex construction (`new RegExp`, `Object.keys` order, `lastIndex`) is modelled by its result: the ordered key list and the first-match scan.
- The `transform ? transform(name) : ''` fallback (src/name-formatter.ts:59-60, src/strfname.ts:73-74) is not modelled. A matched key is always a key of the table, so the `''` branch cannot be taken. The scan uses the matched entry directly.
- JavaScript truthiness of `name` and `options` is modelled by `Option`. Values of other types passed through `as any` are not modelled.
- The expectations of src/name-formatter.test.ts:33, 57 and 61 are not met by the code. The model follows the code and states what it returns instead.
- Concurrency: `globalDefaultFormat` is modelled as one object's field, with sequential method calls.
- The Jest harness and the module exports are not modelled.
