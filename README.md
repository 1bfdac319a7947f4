# remove-gpl: the pattern engine and the directory walk

remove-gpl strips licence preambles from the source files in a directory
tree. Rewriting is driven by *pattern files*, which are key/value tables. Each
table has a `filepattern` regular expression that selects files by their bare
name, a `numpatterns` count, and the pairs `find<i>` / `replace<i>` for
`i` = 1..count.

This project models the two classes that hold the logic:

- `PatternUtils`, in `pattern_utils.dfy` (module `PatternUtils`):
  - `checkPattern` validates a table. It runs its checks in a fixed order and returns the first failure.
  - `loadPattern` returns the table when `checkPattern` accepts it, and otherwise throws with that message.
  - `processFile` applies the pairs in index order, each as a global substitution on every line. It compares the result with the original line by line, and saves the file only when something changed and the run is not a dry run.
- `Main`, in `main.dfy` (module `Driver`, class `Main`):
  - `check` validates the directory setting.
  - `loadPatterns` fills the registry `m_Patterns`. It loads the bundled defaults (when enabled) and then the user's pattern files, and stops at the first failure.
  - `remove(File)` walks the tree. It skips `.` and `..`, recurses into sub-directories in recursive mode, and processes each other entry once per rule whose file pattern matches its whole name. It stops at the first error.
  - `execute` chains the three steps.

Supporting modules:

- `common.dfy`: `Option` and `Result`. `Option` stands for Java's `null`-or-value returns; `Result` stands for a call that may throw.
- `numerals.dfy`: `Integer.toString` and `Integer.parseInt` on ASCII decimal text, with the 32-bit range.
- `regex.dfy`: the `java.util.regex` engine as an uninterpreted `Engine` value. It provides compile, its syntax-error text, whole-string match and `replaceAll`.
- `files.dfy`: the file system. It has an immutable tree of named entries (`Node`), and a `FileSystem` object whose mutable `content` maps each readable regular file to its lines. Its invariant `Valid` (`OnlyFiles`) says that only paths naming a regular file of the tree have lines, so a directory is never readable. Reads fail for paths without lines. Writes fail, with a recorded exception text, for the paths in `writeFailures`.

How the imperative code is proved:

- Each imperative method is proved against a pure specification function:
  - `CheckPattern` against `Validate`;
  - `ProcessFile` against `ProcessOutcome`;
  - `LoadSources` and `LoadPatterns` against `LoadAll` and `Register`;
  - `MatchPatterns` against `MatchRules`;
  - `Remove` against `WalkDir`, `WalkEntries` and `EntryOutcome`;
  - `Execute` against all of these.
- The properties the program promises are proved as lemmas about those functions.

How the registry is modelled:

- In `m_Patterns`, a key is a freshly compiled `java.util.regex.Pattern`. `Pattern` keeps object identity as its equality, so every loaded table gets its own key.
- The model therefore keys the registry by a fresh number. The field `compiled` counts the patterns compiled so far.
- `HashMap` key order is unspecified. It becomes a parameter: `Remove` takes `order`, any enumeration of the keys, and `Execute` takes `arrange`, which maps each key set to such an enumeration.

Where the code behaves differently from what one might expect, the model follows the code:

- Without recursion, a directory entry is not skipped. It is tried against every rule, and if a rule matches its name, reading it fails and that error ends the walk (`FlatModeMatchedDirectoryFails`, under the file-system invariant).
- A file whose name matches several rules is processed by every one of them, in registry order, not only by the first.
- Two tables with the same `filepattern` text are two registry entries, so neither replaces the other (`RegisterGrows`).
- A `numpatterns` value that parses to zero or a negative number is accepted and requires no pairs (`NonPositiveCount`).
- The compile-failure message for a find pattern opens a quote it never closes (`Failed to compile find pattern 'find1: ...`). The model keeps that text.

## Model

| member | source | states |
|---|---|---|
| Numerals.ParseInt | src/main/java/com/github/fracpete/removegpl/PatternUtils.java:79-84 | `Integer.parseInt` yields only 32-bit values and rejects the empty string |
| Numerals.Decimal | src/main/java/com/github/fracpete/removegpl/PatternUtils.java:88 | the key suffix `i+1` is a non-empty digit string without leading zero |
| Numerals.DecimalValue | src/main/java/com/github/fracpete/removegpl/PatternUtils.java:88 | reading back the decimal text of `n` gives `n` |
| Numerals.DecimalInjective | src/main/java/com/github/fracpete/removegpl/PatternUtils.java:88-99 | distinct indices give distinct `find<i>`/`replace<i>` suffixes |
| Numerals.ParseDecimal | src/main/java/com/github/fracpete/removegpl/PatternUtils.java:80 | `parseInt` reads back every non-negative int that `toString` writes |
| Numerals.ParseNegativeDecimal | src/main/java/com/github/fracpete/removegpl/PatternUtils.java:80 | `parseInt` accepts a leading minus, down to the smallest int |
| Files.WriteOutcome | src/main/java/com/github/fracpete/removegpl/FileUtils.java:99-107 | a save either replaces exactly that file's lines and returns null, or returns "Failed to write content to '<f>': <e>" and changes nothing |
| Files.FileSystem.ReadLines | src/main/java/com/github/fracpete/removegpl/FileUtils.java:81-90 | `loadFile` returns the file's lines exactly when it is a readable file, otherwise null |
| Files.FileSystem.WriteLines | src/main/java/com/github/fracpete/removegpl/FileUtils.java:99-107 | the new file state and the result are those of `WriteOutcome`, and only regular files keep having lines |
| PatternUtils.PairError | src/main/java/com/github/fracpete/removegpl/PatternUtils.java:87-101 | pair k reports nothing exactly when find<k> is present and compiles and replace<k> is present |
| PatternUtils.PairsErrorFirst | src/main/java/com/github/fracpete/removegpl/PatternUtils.java:86-102 | the pair loop reports nothing iff every pair passes, and otherwise reports the lowest failing pair, all pairs before it passing |
| PatternUtils.ValidateSound | src/main/java/com/github/fracpete/removegpl/PatternUtils.java:61-105 | `checkPattern` returns null iff the table is well formed: filepattern present and compiling, numpatterns present and parsing, every pair 1..num complete (an empty replace value counts as present) |
| PatternUtils.MissingFilePattern | src/main/java/com/github/fracpete/removegpl/PatternUtils.java:67-68 | a table without `filepattern` is rejected with exactly "Missing key: filepattern", whatever else it holds |
| PatternUtils.NonPositiveCount | src/main/java/com/github/fracpete/removegpl/PatternUtils.java:79-86 | a count that parses to zero or less passes with no find/replace keys |
| PatternUtils.PairsErrorAgree | src/main/java/com/github/fracpete/removegpl/PatternUtils.java:86-102 | the pair loop depends only on the find/replace keys of the indices it visits |
| PatternUtils.OtherKeysIgnored | src/main/java/com/github/fracpete/removegpl/PatternUtils.java:67-102 | two tables that agree on filepattern, numpatterns and the pairs 1..num get the same verdict, so every other key is ignored |
| PatternUtils.CheckPattern | src/main/java/com/github/fracpete/removegpl/PatternUtils.java:61-105 | the loop with early returns returns the message of the first failing check in the documented order, and null exactly for a well-formed table |
| PatternUtils.LoadPattern | src/main/java/com/github/fracpete/removegpl/PatternUtils.java:114-126 | returns the table iff it is well formed, and otherwise fails with exactly `checkPattern`'s message |
| PatternUtils.PassesPerLine | src/main/java/com/github/fracpete/removegpl/PatternUtils.java:156-165 | the rewritten content has as many lines as the original, and line n is the fold of `replaceAll` over the pairs in index order, applied to original line n |
| PatternUtils.PassesCompose | src/main/java/com/github/fracpete/removegpl/PatternUtils.java:160-165 | running pairs a and then pairs b equals running a + b: each pair's output is the next pair's input |
| PatternUtils.ProcessKeepsFiles | src/main/java/com/github/fracpete/removegpl/PatternUtils.java:175-182 | processing never creates or deletes files, touches no other file, and changes nothing on a dry run |
| PatternUtils.ProcessRewritesLines | src/main/java/com/github/fracpete/removegpl/PatternUtils.java:153-177 | a read, rewrite and save of a writable file succeeds and leaves each line rewritten by the pair fold |
| PatternUtils.ReprocessIsNoop | src/main/java/com/github/fracpete/removegpl/PatternUtils.java:167-182 | for a table stable under re-application, processing the rewritten file again finds no change and writes nothing |
| PatternUtils.ReplaceInEveryLine | src/main/java/com/github/fracpete/removegpl/PatternUtils.java:163-164 | after the in-place loop every line is `replaceAll` of its old value with this pair, and the number of lines is kept |
| PatternUtils.ApplyPairs | src/main/java/com/github/fracpete/removegpl/PatternUtils.java:159-165 | after the pair loop the lines are the original lines rewritten by pairs 1..num in index order (`Rewrite`) |
| PatternUtils.Differs | src/main/java/com/github/fracpete/removegpl/PatternUtils.java:168-174 | `different` is true iff some line of the copy differs from the original line at the same index, that is iff the two line lists differ |
| PatternUtils.ProcessFile | src/main/java/com/github/fracpete/removegpl/PatternUtils.java:137-183 | the method's result and new file state are `ProcessOutcome`: "Failed to load file: <f>" with no write on a read failure; null with no write when no line differs or on a dry run; otherwise the save of the rewritten lines |
| Driver.LoadSource | src/main/java/com/github/fracpete/removegpl/PatternUtils.java:114-125 | a source loads only as a well-formed table; a rejected table fails with "java.lang.IllegalStateException: " + the check's message; an unreadable source fails with its exception |
| Driver.LoadAllFailFast | src/main/java/com/github/fracpete/removegpl/Main.java:284-325 | loading yields the tables of a prefix of the sources, each well formed, and fails exactly when the prefix is short, with the message of the first failing source |
| Driver.LoadAllAppend | src/main/java/com/github/fracpete/removegpl/Main.java:284-325 | loading the defaults and then the files is one fail-fast pass over both, the files being loaded only if every default loaded |
| Driver.BadDefaultStopsLoading | src/main/java/com/github/fracpete/removegpl/Main.java:296-297 | a failing default pattern ends loading before any user pattern file is read |
| Driver.RegisterAt | src/main/java/com/github/fracpete/removegpl/Main.java:294 | the j-th loaded table is stored under the j-th fresh key |
| Driver.RegisterFacts | src/main/java/com/github/fracpete/removegpl/Main.java:294-316 | registering keeps every earlier entry and adds each loaded table under its own fresh key and nothing else |
| Driver.RegisterGrows | src/main/java/com/github/fracpete/removegpl/Main.java:294-316 | the registry grows by one entry per loaded table, even when file patterns repeat |
| Driver.RegisterAppend | src/main/java/com/github/fracpete/removegpl/Main.java:284-325 | registering the defaults' tables and then the files' tables is registering both |
| Driver.RegisterValid | src/main/java/com/github/fracpete/removegpl/Main.java:293-294 | only well-formed tables are ever registered, all under keys already handed out |
| Driver.MatchingRules | src/main/java/com/github/fracpete/removegpl/Main.java:369-370 | the rules whose file pattern matches a name are well-formed tables |
| Driver.MatchRulesIsFilteredFold | src/main/java/com/github/fracpete/removegpl/Main.java:369-375 | an entry is processed once with each rule whose pattern fully matches its name, in registry order, and with no other rule, stopping at the first error |
| Driver.UnreadableMatchFails | src/main/java/com/github/fracpete/removegpl/Main.java:369-373 | when some rule matches an unreadable entry, the entry's processing fails with "Failed to load file" at the first match |
| Driver.FlatModeMatchedDirectoryFails | src/main/java/com/github/fracpete/removegpl/Main.java:365-376 | without recursion, a directory of the tree whose name some rule matches is processed and fails with "Failed to load file: <d>", since a directory never has lines |
| Driver.MatchRulesFrame | src/main/java/com/github/fracpete/removegpl/Main.java:369-375 | trying the rules on an entry changes at most that file, nothing when no rule matches, and nothing on a dry run |
| Driver.WalkDirFrame | src/main/java/com/github/fracpete/removegpl/Main.java:347-382 | a walk keeps the set of files, changes only entries some rule matches, and changes nothing on a dry run |
| Driver.WalkEntriesFrame | src/main/java/com/github/fracpete/removegpl/Main.java:359-379 | the entries loop from entry i changes only the candidates of entries i.. and nothing on a dry run |
| Driver.EntryFrame | src/main/java/com/github/fracpete/removegpl/Main.java:360-376 | one entry changes only its own candidates: none for `.`/`..`, its subtree's in recursive mode, or itself when a rule matches |
| Driver.CandidatesBelow | src/main/java/com/github/fracpete/removegpl/Main.java:347-382 | every file a walk may rewrite lies strictly below the walked directory |
| Driver.EntriesCandidatesBelow | src/main/java/com/github/fracpete/removegpl/Main.java:359-379 | the files the entries loop may rewrite lie strictly below the directory |
| Driver.EntryCandidatesBelow | src/main/java/com/github/fracpete/removegpl/Main.java:365-366 | in recursive mode a sub-directory is recursed into and never itself rewritten |
| Driver.Main.Setup | src/main/java/com/github/fracpete/removegpl/Main.java:369-371 | the tables the walk iterates are the registry's in the given key order, all well formed |
| Driver.Main.constructor | src/main/java/com/github/fracpete/removegpl/Main.java:73-81 | no directory, not recursive, defaults enabled, no pattern files, no dry run, empty registry, no pattern compiled yet |
| Driver.Main.Check | src/main/java/com/github/fracpete/removegpl/Main.java:262-271 | returns "No directory set!", then "Directory does not exist: <d>", then "Not a directory: <d>", and null exactly when the directory is set, exists and is a directory |
| Driver.Main.LoadSources | src/main/java/com/github/fracpete/removegpl/Main.java:284-325 | the loading loop loads the sources in order, adds each table under the next fresh key, and on the first failure returns its prefixed message, keeping the tables loaded before it |
| Driver.Main.LoadPatterns | src/main/java/com/github/fracpete/removegpl/Main.java:278-328 | the result is the error of one fail-fast pass over the defaults (when enabled) and then the pattern files, and the registry gains exactly the loaded tables |
| Driver.Main.MatchPatterns | src/main/java/com/github/fracpete/removegpl/Main.java:369-375 | the loop over the registry's keys processes the entry with each table whose file pattern fully matches its name, in key order, and returns the first error: the result and new file state are those of `MatchRules` |
| Driver.Main.Remove | src/main/java/com/github/fracpete/removegpl/Main.java:347-382 | the recursive method's result and new file state are those of the walk specification: unlistable directory gives null; entries in listing order; `.`/`..` skipped; recursion only in recursive mode; every matching rule applied; first error returned |
| Driver.Main.Execute | src/main/java/com/github/fracpete/removegpl/Main.java:398-413 | a failed check changes nothing, registry and compile count included, and returns its message; the load adds its tables under fresh keys and advances the compile count by their number; a failed load returns "Failed to load patterns: " + its message without touching files; otherwise the walk of the directory with the loaded registry; only regular files have lines before and after |

## Left out

- Command-line handling is not modelled. This covers `setOptions` with argparse4j, `main` and the exit codes. It is plumbing around a foreign library.
- The trivial getters and setters, including `setPatternFiles(null)`, are not modelled. The model's fields stand for them.
- Verbose progress output on standard output is not modelled. It has no effect on results.
- `Properties.load` text parsing and `ClassLoader.getSystemResourceAsStream` are not modelled. A pattern source arrives as a `SourceText`: either the parsed table, or the text of the exception that reading it throws (a missing resource, an unreadable file). Stream closing (`closeQuietly`) is left out.
- The regular-expression engine is uninterpreted, with no meaning given to any pattern. This includes the exceptions `replaceAll` can throw on a malformed replacement template: the model treats `replaceAll` as total.
- `Integer.parseInt` is modelled on ASCII digits only. Other Unicode decimal digits, which Java also accepts, are left out.
- `FileUtils.loadFile` and `saveFile` are abstract operations: a read fails for a path that is not a readable file, and a write fails for a path listed in `writeFailures`. A failed write is assumed to leave the file unchanged, whereas a real truncating write may leave it partly written. Line-separator handling in reading and writing is not modelled.
- The directory tree itself never changes during a run. The listing order of a directory is the order of its entries in the tree.
- `File.toString` is modelled as the path components joined by `/`. Absolute paths and platform separators are not modelled.
- The two loading loops of `loadPatterns` share their body and differ only in where a table comes from and in the message prefix, which a `Source` carries. `Driver.Main.LoadPatterns` therefore runs one loop, `LoadSources`, over the enabled defaults followed by the pattern files. Because the defaults loop returns on its first failure, this loads exactly what the two loops load. `LoadAllAppend` and `BadDefaultStopsLoading` state the split into the two phases.
- The concrete `HashMap` iteration order is not modelled. `Remove` and `Execute` take any enumeration of the registry's keys.
- Driver.Main.Remove: requires the class invariant that every registered table is well formed. In the program this always holds, because only `loadPatterns` fills the registry and it only adds checked tables.
