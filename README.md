# A verified model of the `frut.cli.commandline` argument parser

The parser turns an argument vector into an ordered list of entries. Each entry has an
optional option name and an optional parameter. It reads an ordered table of option
descriptors (`Option`: `name`, `alias`, `takesParam`, `requiresParam`) and a tar-mode flag.
Parsing runs in two phases:

- the **tar pre-pass**: when tar mode is on and the first token does not start with `-`,
  every letter of that token is a flag, and flags that take a parameter consume the
  following tokens in order;
- the **main scan**: a left-to-right state machine over the remaining tokens. Its state is
  the `terminated` flag (set by `--`) and the pending option (`currentOptName`), which waits
  for its parameter in the next token. Each token is handled by the first case that applies:
  an operand (or any token after `--`), then `--` itself, then a pending option followed by
  an option-looking token (an error), then a long option `--abbr[=value]`, and last a
  combined short option `-abc`.

Any error aborts the whole parse.

Modules, one per file:

| file | module | contents |
|---|---|---|
| `wrappers.dfy` | `Wrappers` | `Option` and `Result` |
| `text.dfy` | `Text` | `startsWith` as the sequence prefix relation, and `indexOf` for one character |
| `option.dfy` | `Options` | the `Option` descriptor as the datatype `OptionSpec` |
| `lookup.dfy` | `Lookup` | `findByFirstLetter` and `findByAbbreviation` as first-match recursive functions |
| `semantics.dfy` | `Semantics` | the meaning of `parse`: a step function per tar letter, per token and per short-option letter, folded left to right |
| `parser.dfy` | `Parser` | `parse` and the two lookups as imperative methods with loops, each proved equal to its `Semantics` or `Lookup` function |
| `properties.dfy` | `Properties` | properties of the main scan, of pending options and of the tar pre-pass |
| `forms.dfy` | `FormProperties` | properties of the short and long option forms |
| `scenarios.dfy` | `Scenarios` | the operand and tar cases of ParserTest.java as lemmas |
| `realworld.dfy` | `RealWorld` | the real-world case of ParserTest.java as a lemma |

Entry.java is not modelled line by line. Its uses in the parser (`new Entry(name, param)`)
and in the tests (`entry.name`, `entry.param`) show a value of two nullable strings, so it
is the datatype `Entry(name: Option<string>, param: Option<string>)`. The `IOException`s become
`Err(kind)` with one of four kinds: `UnrecognizedOption`, `MissingParameter`,
`UnexpectedParameter` and `EmptyOptionName`. A `Parser` object holds only its two final
fields (the tar flag and the option array), so these are parameters of `parse`.

The imperative `Parser.Parse` keeps the source's shape. It appends to one entry list and
moves one parameter cursor through the tar letters. Its main loop carries `terminated` and
`currentOptName`. The tar block and the bodies of the long and short cases are separate
methods (`TarPass`, `LongOption`, `ShortOption`). Each loop is proved by an invariant that
folding the specification over the whole input equals folding it from the loop's current
state over what is left.

## Model

| member | source | states |
|---|---|---|
| Options.DescriptorStoresFields | src/main/java/frut/cli/commandline/Option.java:3-15 | the immutable descriptor is the datatype `OptionSpec`: the constructor stores each of `name`, `alias`, `takesParam` and `requiresParam` unchanged, and a descriptor is determined by those four fields |
| Text.StartsWith | src/main/java/frut/cli/commandline/Parser.java:63 | `startsWith` (also at lines 25, 75 and 150) holds exactly when the string is at least as long as the prefix and agrees with it character by character |
| Text.IndexOf | src/main/java/frut/cli/commandline/Parser.java:77 | `indexOf` is -1 exactly when the character is absent; otherwise it is an in-range position holding the character, with no earlier occurrence |
| Lookup.FindByFirstLetter | src/main/java/frut/cli/commandline/Parser.java:139-146 | a found option is one of the declared options and its alias begins with the letter |
| Lookup.FindByAbbreviation | src/main/java/frut/cli/commandline/Parser.java:148-155 | a found option is one of the declared options and its alias starts with the abbreviation |
| Lookup.FirstLetterAbsent | src/main/java/frut/cli/commandline/Parser.java:139-146 | the letter lookup returns null exactly when no declared alias begins with the letter |
| Lookup.FirstLetterPicksEarliest | src/main/java/frut/cli/commandline/Parser.java:139-146 | the letter lookup returns the earliest declared option that matches; a later match is never reported and ambiguity is not signalled |
| Lookup.AbbreviationAbsent | src/main/java/frut/cli/commandline/Parser.java:148-155 | the abbreviation lookup returns null exactly when no declared alias starts with the abbreviation |
| Lookup.AbbreviationPicksEarliest | src/main/java/frut/cli/commandline/Parser.java:148-155 | the abbreviation lookup returns the earliest declared option whose alias starts with the abbreviation |
| Parser.LetterLookup | src/main/java/frut/cli/commandline/Parser.java:139-146 | the `for` loop with early return computes exactly the first-match letter lookup |
| Parser.AbbreviationLookup | src/main/java/frut/cli/commandline/Parser.java:148-155 | the `for` loop with early return computes exactly the first-match abbreviation lookup |
| Semantics.SplitLong | src/main/java/frut/cli/commandline/Parser.java:76-89 | the split fails exactly when `=` is the first character, and then with an empty option name; a value is split off exactly when the text contains `=` |
| Semantics.ScanLong | src/main/java/frut/cli/commandline/Parser.java:90-105 | a long option either defers its option to the next token, leaving the entries alone, or appends exactly one entry, and it never sets `terminated`; an unexpected parameter is only reported for text containing `=` |
| Semantics.ScanShort | src/main/java/frut/cli/commandline/Parser.java:108-130 | a short token keeps the entries already produced as a prefix, adds at most one entry per remaining letter, and leaves `terminated` alone |
| Semantics.ScanToken | src/main/java/frut/cli/commandline/Parser.java:62-131 | a token only appends entries, keeping those already produced in order; after `--` every token is accepted and `terminated` stays set |
| Semantics.ScanFold | src/main/java/frut/cli/commandline/Parser.java:61-131 | the main scan preserves the entries it starts with as a prefix of its result, and after `--` it cannot fail |
| Semantics.Parse | src/main/java/frut/cli/commandline/Parser.java:17-137 | a successful parse begins with the entries of the tar pre-pass, which itself succeeded |
| Semantics.TarFold | src/main/java/frut/cli/commandline/Parser.java:29-53 | on success the tar parameter cursor never moves back and never passes the end of the vector |
| Semantics.TarPrePass | src/main/java/frut/cli/commandline/Parser.java:25-57 | on success the position where the main scan starts is within the vector |
| Parser.TarPass | src/main/java/frut/cli/commandline/Parser.java:25-54 | the tar loop (entries appended in place, cursor `nextParamIndex`) computes exactly the tar fold of the first token's letters, errors included |
| Parser.LongOption | src/main/java/frut/cli/commandline/Parser.java:75-106 | the long-option case computes exactly the long-option step, with its five outcomes |
| Parser.ShortOption | src/main/java/frut/cli/commandline/Parser.java:108-130 | the short-option loop, including its `break` at the first parameter-taking letter, computes exactly the short-option step |
| Parser.Parse | src/main/java/frut/cli/commandline/Parser.java:17-137 | `parse` computes exactly the two-phase specification: the tar pre-pass, the main scan from the cursor it leaves, and the dangling-option check |
| Properties.EmptyArgs | src/main/java/frut/cli/commandline/Parser.java:18-20 | an empty vector yields no entries, whatever the options and the tar mode |
| Properties.ScanFoldAppend | src/main/java/frut/cli/commandline/Parser.java:61-131 | scanning `a + b` is scanning `a` and then `b` from the state `a` leaves, and an error in `a` aborts the rest |
| Properties.PositionalTokens | src/main/java/frut/cli/commandline/Parser.java:63-66 | operand-looking tokens (`-` or not starting with `-`) each yield one entry carrying the token, in order; a pending option names only the first of them, and no option is pending afterwards |
| Properties.TerminatedTokens | src/main/java/frut/cli/commandline/Parser.java:63-66 | after `--` every token, whatever its shape and including another `--`, yields an operand entry, in order |
| Properties.EndOfOptions | src/main/java/frut/cli/commandline/Parser.java:63-71 | the first `--` emits nothing and keeps a pending option, which the next token then satisfies; all later tokens become operand entries |
| Properties.AllPositional | src/main/java/frut/cli/commandline/Parser.java:17-66 | with tar mode off, a vector of operand-looking tokens yields exactly one `(null, token)` entry per token, in order |
| Properties.PendingTakesNext | src/main/java/frut/cli/commandline/Parser.java:63-66 | a pending option takes the next operand-looking token (any token after `--`) as its parameter, and is then cleared |
| Properties.PendingBeforeOption | src/main/java/frut/cli/commandline/Parser.java:72-74 | a pending option followed by an option-looking token other than `--` aborts with a missing parameter |
| Properties.PendingAtEnd | src/main/java/frut/cli/commandline/Parser.java:133-136 | the parse succeeds exactly when no option is pending at the end; a pending one aborts with a missing parameter |
| Properties.TarFlagShape | src/main/java/frut/cli/commandline/Parser.java:31-51 | one tar letter keeps the earlier entries and appends exactly one: its option's name, with the token under the cursor when the option takes a parameter and a token remains, and null otherwise; the cursor moves past exactly the parameter taken |
| Properties.TarFlagErrors | src/main/java/frut/cli/commandline/Parser.java:31-40 | a tar letter fails exactly when it names no option (an unrecognised option) or when its option requires a parameter and no token remains (a missing parameter) |
| Properties.TarFoldEntries | src/main/java/frut/cli/commandline/Parser.java:30-52 | the tar letters produce one entry per letter, in letter order; the i-th is its option's name with, when that option takes a parameter, the token at the start cursor plus the number of parameters the earlier letters took, if one remains there, and null otherwise |
| Properties.TarNoParamAfterGap | src/main/java/frut/cli/commandline/Parser.java:36-46 | once a parameter-taking tar letter gets no parameter, no later tar letter gets one |
| Properties.TarUnknownLetter | src/main/java/frut/cli/commandline/Parser.java:30-34 | a letter naming no option aborts the pre-pass with an unrecognised option once the letters before it succeeded, whatever follows it |
| Properties.TarFoldParams | src/main/java/frut/cli/commandline/Parser.java:36-46 | the parameters the tar entries carry are exactly the tokens from the starting cursor to the final cursor, in order |
| Properties.TarExhausted | src/main/java/frut/cli/commandline/Parser.java:36-50 | with no token left, the tar letters abort with a missing parameter if any of them requires one, and otherwise each yields `(name, null)` |
| Properties.TarFoldSplit | src/main/java/frut/cli/commandline/Parser.java:30-52 | the letters `a + b` are processed as `a`, then `b` from where `a` left the cursor |
| Properties.TarParamsInOrder | src/main/java/frut/cli/commandline/Parser.java:36-46 | when every tar letter takes a parameter and enough tokens follow, the i-th letter gets the i-th token after the cursor and the cursor advances by the number of letters |
| Properties.TarSkipped | src/main/java/frut/cli/commandline/Parser.java:25-57 | with tar mode off, or a first token starting with `-`, nothing is consumed before the main scan, which starts at the first token |
| Properties.TarEntriesFirst | src/main/java/frut/cli/commandline/Parser.java:25-61 | a successful tar-mode parse begins with one entry per letter of the first token, each as the tar fold gives it at the cursor reached by that letter (starting at the second token), whose parameters are the tokens after the first in order, and the main scan resumes at the first token not consumed |
| FormProperties.ShortPlainPrefix | src/main/java/frut/cli/commandline/Parser.java:110-130 | letters that take no parameter each append `(name, null)`, in letter order, and the scan continues after them |
| FormProperties.ShortTokenIsShort | src/main/java/frut/cli/commandline/Parser.java:108-110 | a token `-body` with nothing pending, before `--`, and `body` not starting with `-` is scanned as a combined short option |
| FormProperties.ShortWithParam | src/main/java/frut/cli/commandline/Parser.java:110-130 | the first parameter-taking letter ends the token: the rest of the token is its parameter; with nothing left, a required parameter becomes pending and an optional one is null; earlier letters each yield `(name, null)` |
| FormProperties.ShortAllPlain | src/main/java/frut/cli/commandline/Parser.java:110-130 | a short token whose letters take no parameter yields `(name, null)` per letter, in order |
| FormProperties.ShortUnknownLetter | src/main/java/frut/cli/commandline/Parser.java:112-115 | an unknown letter before any parameter-taking letter aborts as an unrecognised option |
| FormProperties.SplitLongWithValue | src/main/java/frut/cli/commandline/Parser.java:76-89 | after `--`, a non-empty name without `=` followed by `=value` splits into that name and that value |
| FormProperties.SplitLongInverse | src/main/java/frut/cli/commandline/Parser.java:76-89 | the split is undone by joining: the text is the name alone when there is no value, and otherwise name, `=`, value, with no `=` in the name |
| FormProperties.LongTokenIsLong | src/main/java/frut/cli/commandline/Parser.java:68-76 | a token `--m` with `m` non-empty, nothing pending and before `--`, is scanned as a long option on `m` |
| FormProperties.LongWithValue | src/main/java/frut/cli/commandline/Parser.java:90-105 | `--abbr=value`: unmatched is an unrecognised option, a value for an option that takes none is an unexpected parameter, and otherwise the first matching option gets `value` |
| FormProperties.LongBare | src/main/java/frut/cli/commandline/Parser.java:90-105 | `--abbr` without `=`: a required parameter becomes pending (also for an option marked required that takes none); an optional one is a missing parameter; an option without parameter yields `(name, null)` |
| FormProperties.LongEmptyName | src/main/java/frut/cli/commandline/Parser.java:83-85 | `--=value` aborts with an empty option name |
| Scenarios.AllStandaloneWhenNoOptions | src/test/java/frut/cli/commandline/ParserTest.java:33-47 | with no options and tar mode off, `- arg1 arg2 arg3 -` yields five operand entries carrying those tokens |
| Scenarios.TarAllRequireParams | src/test/java/frut/cli/commandline/ParserTest.java:50-74 | tar letters `abcd`, all requiring parameters, take the next four tokens in order and the last two tokens are operands |
| Scenarios.TarSomeRequireParams | src/test/java/frut/cli/commandline/ParserTest.java:77-104 | in `abcd` only `a` and `d` take tokens; `b` and `c` yield `(name, null)`; the rest are operands |
| Scenarios.TarOptionalParamsPresent | src/test/java/frut/cli/commandline/ParserTest.java:107-131 | optional tar parameters that are present are taken like required ones |
| Scenarios.TarOptionalParamsOmitted | src/test/java/frut/cli/commandline/ParserTest.java:134-157 | once the tokens run out, an optional tar parameter is null and a letter without parameter is unaffected |
| RealWorld.RealWorldExample | src/test/java/frut/cli/commandline/ParserTest.java:160-200 | `cxjf filename.dat -o output.txt -vqr random --longopt=value -- -i --iii qq` yields the eleven entries the test expects, in order |

## Left out

- Exception message text: only the kind of each error is modelled. The tar and short
  "unrecognized" messages print the null lookup result; that text is not reproduced.
- The Java `assert` in the short-option case (Parser.java:108): the cases before it already
  guarantee that the token starts with `-`.
- `Collections.emptyList()` versus `LinkedList` (mutability of the returned list) and the
  varargs plumbing of the constructor and of `parse`: the result is a sequence value.
- UTF-16 `char` semantics: strings are sequences of characters, compared exactly.
- Empty aliases: `alias.charAt(0)` throws on them. The model requires every alias to be
  non-empty (`ValidOptions`) wherever the first-letter lookup can run, instead of modelling
  that exception.
- Entry.java line by line: only what its uses show is modelled, as the two-field datatype
  described above.
- Inline code of `parse`: the tar block and the long and short cases are separate methods
  (`TarPass`, `LongOption`, `ShortOption`) called from the main loop. They work on the same
  entry list and state, passed in and returned as values, so the in-place list is a value.
- The JUnit harness: the tests' scenarios are lemmas; the two empty-vector tests are
  `Properties.EmptyArgs`.
