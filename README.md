# Code cleanup goal — a Dafny model

This project models the `cleanup` goal of a Maven plugin. The goal walks a
source directory and runs up to five checks on every `.java` file it finds:

- a missing line terminator at the end of the file;
- lines longer than a limit;
- `TODO` markers;
- method signatures with more parameters than a limit;
- imports whose simple name is never used.

Each check logs a warning per finding and returns a flag. The goal combines the
flags per file and over all files, and fails the build when the combined flag is
set.

The model follows the shape of the Java code:

- **The plugin object.** `CleanupMojo.CodeCleanupMojo` is a class.
  - Its configuration is a record that is fixed once the object is created.
  - Its log is a `seq<Message>` field that the methods append to.
  - `Execute`, `CheckFileForViolations` and the check methods are imperative
    methods with the same loops and flag updates as the source. In `Execute`
    the stream's `map` over the files becomes a `while` loop over them.
  - Each method is proved against a specification function:
    - `RunOutcome` and `RunLog` for the run;
    - `FileReport` for one file;
    - `AnyViolation` and `LineWarnings` for one line check;
    - `UnusedImportsScan` for the import check.
- **The import check's tree walk.** The used-name visitor is the class
  `UnusedImports.UsedNameCollector`. It fills a set in place, and
  `UnusedImports.NamesIn` specifies that set.
- **The stream pipelines of `execute` are functions:**
  - the `.java` filter is `JavaFiles`;
  - the per-file map is `FileFlags`;
  - `reduce(Boolean::logicalOr)` is `ReduceOr`.
- **Java semantics are written out** in module `JavaLang`:
  - `int` arithmetic with wrap-around, so `maxLineLength - 1` wraps for the smallest int;
  - `String.trim`, `contains` and `endsWith`;
  - `String.split(",")`, which drops trailing empty pieces and returns the
    whole string when there is no comma.
- **The signature regular expression is a parameter.** `MethodPattern` is a
  function from a trimmed line to its first match, if any: an optional
  (method name, parameter text) pair. The pattern is compiled with `MULTILINE`
  and anchored with `^`. A line can therefore match more than once only when it
  holds U+0085, U+2028 or U+2029. Those characters end a line for the pattern,
  but `readAllLines` does not split on them and `trim` keeps them. The model
  covers the first match only (see "Left out").
- **Log messages are data.** `Log.Message` keeps what each message is about,
  not its wording.

The model reproduces the code as written, including the points where a reader
might expect something else:

- An empty file is flagged by the newline check. A reader might expect an
  empty file to pass, since it has no last line to terminate. But
  `hasNewlineAtEOF` returns false on zero bytes (line 153), so line 75 flags the
  file. The model follows the code (`Aggregation.EmptyFileFlagged`). With the
  unused-import check on, as by default, line 91 then replaces that flag, so an
  empty file without imports ends up not flagged.
- The missing-newline warning is logged before the test, so it is logged for
  every file.
- The `||` updates short-circuit. Once a violation is found, the later text
  checks do not run and log nothing. The unused-import check at lines 90-91
  still runs and logs.
- With the unused-import check on, its result replaces the file's flag instead
  of being OR-ed into it.

Module `CorrectedAggregation` holds the corrected per-file check described
under "Findings", together with what is proved about it.

## Model

| member | source | states |
|---|---|---|
| JavaLang.Sub32 | src/main/java/com/example/cleanup/CodeCleanupMojo.java:142 | Java `int` subtraction: the result is the int that is congruent to the mathematical difference modulo 2^32. |
| JavaLang.Trim | src/main/java/com/example/cleanup/CodeCleanupMojo.java:105 | `trim` never lengthens its input, and its result neither starts nor ends with a character up to U+0020. |
| JavaLang.Contains | src/main/java/com/example/cleanup/CodeCleanupMojo.java:130 | The empty string is contained in every string, and no string is contained in a shorter one. |
| JavaLang.Split | src/main/java/com/example/cleanup/CodeCleanupMojo.java:113 | `split(",")` gives at most one piece more than there are commas. When a comma occurs, the last piece is never empty. |
| JavaLang.TrimStartSpec | src/main/java/com/example/cleanup/CodeCleanupMojo.java:105 | Trimming the front gives a suffix of the input that does not start with a character up to U+0020. Every character removed is such a character. |
| JavaLang.TrimEndSpec | src/main/java/com/example/cleanup/CodeCleanupMojo.java:105 | Trimming the end gives a prefix of the input that does not end with a character up to U+0020. Every character removed is such a character. |
| JavaLang.TrimSpec | src/main/java/com/example/cleanup/CodeCleanupMojo.java:105 | `trim` gives a slice of the input that neither starts nor ends with white space. It is empty exactly when every character of the input is white space. |
| JavaLang.ContainsIff | src/main/java/com/example/cleanup/CodeCleanupMojo.java:130 | `contains(sub)` holds exactly when `sub` is a prefix of some suffix of the string. |
| JavaLang.CountChar | src/main/java/com/example/cleanup/CodeCleanupMojo.java:113 | The number of commas is at most the length. It is zero exactly when the string holds no comma. |
| JavaLang.Segments | src/main/java/com/example/cleanup/CodeCleanupMojo.java:113 | Splitting at every separator gives one piece more than there are separators. |
| JavaLang.SegmentsHaveNoSeparator | src/main/java/com/example/cleanup/CodeCleanupMojo.java:113 | No piece of the split contains the separator. |
| JavaLang.JoinSegments | src/main/java/com/example/cleanup/CodeCleanupMojo.java:113 | Joining the pieces with the separator gives the string back, so the split loses no character. |
| JavaLang.DropTrailingEmpty | src/main/java/com/example/cleanup/CodeCleanupMojo.java:113 | `split` with limit 0 removes exactly the trailing empty pieces: the result is a prefix, it does not end with an empty piece, and every dropped piece is empty. |
| JavaLang.LastSegmentEmpty | src/main/java/com/example/cleanup/CodeCleanupMojo.java:113 | The last piece is empty exactly when the string is empty or ends with the separator. |
| JavaLang.SplitCount | src/main/java/com/example/cleanup/CodeCleanupMojo.java:113 | A non-empty text that does not end with a comma splits into one piece more than it has commas. |
| JavaLang.SplitOnlySeparators | src/main/java/com/example/cleanup/CodeCleanupMojo.java:113 | A text made only of commas splits into no pieces at all, since every piece is a dropped trailing empty one. |
| UnusedImports.NamesIn | src/main/java/com/example/cleanup/CodeCleanupMojo.java:174-195 | The used-name set of a tree includes the names its root contributes. |
| UnusedImports.NamesInIff | src/main/java/com/example/cleanup/CodeCleanupMojo.java:174-195 | A name is in the used-name set of a tree exactly when some node names it: a name expression, a method parameter or thrown type, or a caught type. |
| UnusedImports.NamesInAllIff | src/main/java/com/example/cleanup/CodeCleanupMojo.java:174-195 | The same holds for a sequence of sibling trees: a name is collected iff it occurs in one of them. |
| UnusedImports.UsedNameCollector.constructor | src/main/java/com/example/cleanup/CodeCleanupMojo.java:172 | The used-name set starts empty. |
| UnusedImports.UsedNameCollector.Visit | src/main/java/com/example/cleanup/CodeCleanupMojo.java:174-195 | Visiting a node adds exactly the names of its subtree to the set: its own names, then its children's (`super.visit`). |
| UnusedImports.UsedNameCollector.VisitAll | src/main/java/com/example/cleanup/CodeCleanupMojo.java:174-195 | Visiting siblings in order adds exactly the names of all of them. |
| UnusedImports.Unused | src/main/java/com/example/cleanup/CodeCleanupMojo.java:197-200 | The filter keeps exactly the imports whose simple identifier is not used, and never yields more imports than it was given. |
| UnusedImports.UnusedAppend | src/main/java/com/example/cleanup/CodeCleanupMojo.java:197-200 | The filter keeps import order: the report on a concatenation is the concatenation of the reports. |
| UnusedImports.MoreUsagesFilterReport | src/main/java/com/example/cleanup/CodeCleanupMojo.java:197-200 | More used names only remove imports from the report. The new report is the old one filtered by the extra names, and nothing is added. |
| UnusedImports.NamesInAllAppend | src/main/java/com/example/cleanup/CodeCleanupMojo.java:174-195 | The used-name set of two runs of siblings is the union of theirs. |
| UnusedImports.CatchUsageRemovesImport | src/main/java/com/example/cleanup/CodeCleanupMojo.java:188-194 | Adding a catch clause whose type is an import's identifier takes that import out of the report and adds none. |
| UnusedImports.ListImportScenario | src/main/java/com/example/cleanup/CodeCleanupMojo.java:188-200 | An unused `java.util.List` import is the only one reported. Once `List` is a caught type, nothing is reported. |
| LineChecks.NewlineAtEOFIff | src/main/java/com/example/cleanup/CodeCleanupMojo.java:151-158 | `hasNewlineAtEOF` holds iff the bytes are non-empty and the last one is LF (10) or CR (13). An empty file has no newline at its end. |
| LineChecks.HasNewlineAtEOF | src/main/java/com/example/cleanup/CodeCleanupMojo.java:151-158 | An empty file has no newline at its end (line 153). |
| LineChecks.WarningFor | src/main/java/com/example/cleanup/CodeCleanupMojo.java:116-143 | The warning for a breaking line is a line warning about that file and that 1-based line number, of the kind of the check that raised it. |
| LineChecks.CheckLine | src/main/java/com/example/cleanup/CodeCleanupMojo.java:115-145 | A line gets a warning exactly when it breaks the check. The warning carries the file and the line number. |
| LineChecks.LineWarningsSound | src/main/java/com/example/cleanup/CodeCleanupMojo.java:104-146 | Every warning a check's loop logs is about a breaking line, carries its 1-based number and is that line's warning. Line numbers strictly increase, so no line is reported twice. For the parameter check this holds for the first-match step the model uses (see `CleanupMojo.CodeCleanupMojo.ParamsLineWarning` under "Left out"). |
| LineChecks.LineWarningsComplete | src/main/java/com/example/cleanup/CodeCleanupMojo.java:104-146 | Every breaking line gets its warning. |
| LineChecks.LineWarningsFoundIff | src/main/java/com/example/cleanup/CodeCleanupMojo.java:124-148 | A check's loop logs some warning iff some line breaks the check. |
| LineChecks.LineWarningsKinds | src/main/java/com/example/cleanup/CodeCleanupMojo.java:116-143 | Every warning a line check logs is about the file being checked and is of that check's kind. |
| LineChecks.ScanSound | src/main/java/com/example/cleanup/CodeCleanupMojo.java:104-146 | For any per-line rule that numbers its warnings, every warning of the loop is the rule's warning for the line it names. |
| LineChecks.ScanInLineOrder | src/main/java/com/example/cleanup/CodeCleanupMojo.java:104-146 | For such a rule, the loop's warnings come in strictly increasing line order. |
| LineChecks.ScanComplete | src/main/java/com/example/cleanup/CodeCleanupMojo.java:104-146 | Every warning the rule gives for a line appears in the loop's log. |
| LineChecks.LineWarningsStep | src/main/java/com/example/cleanup/CodeCleanupMojo.java:129-134 | One iteration appends the warning for line `i + 1`, if any, to the warnings of the first `i` lines. |
| LineChecks.LineLengthViolationIff | src/main/java/com/example/cleanup/CodeCleanupMojo.java:142 | `length > max - 1` is `length >= max`. When `max` is the smallest int, the subtraction wraps and no line is too long. |
| LineChecks.ParamViolationIff | src/main/java/com/example/cleanup/CodeCleanupMojo.java:110-115 | A matched signature whose trimmed parameter block is empty never violates. A non-empty block not ending in a comma violates iff commas + 1 exceeds the maximum. |
| LineChecks.NoMatchNoParamViolation | src/main/java/com/example/cleanup/CodeCleanupMojo.java:106-108 | A line the signature pattern does not match never violates the parameter check. |
| CleanupMojo.ImportEntries | src/main/java/com/example/cleanup/CodeCleanupMojo.java:204 | There is exactly one log entry per reported import. |
| CleanupMojo.UnusedImportsScan | src/main/java/com/example/cleanup/CodeCleanupMojo.java:197-208 | The import check is true iff it logs something. It then logs the heading first, and one line more than there are unused imports. |
| CleanupMojo.FileReport | src/main/java/com/example/cleanup/CodeCleanupMojo.java:69-98 | With every check switched off, a file is neither flagged nor logged about. A file is flagged only when some check is enabled. |
| CleanupMojo.JavaFiles | src/main/java/com/example/cleanup/CodeCleanupMojo.java:50-52 | The filter never adds files and keeps only paths ending with `.java`. |
| CleanupMojo.ReduceOr | src/main/java/com/example/cleanup/CodeCleanupMojo.java:55-58 | `reduce` gives no value exactly when there are no flags. |
| CleanupMojo.CodeCleanupMojo.constructor | src/main/java/com/example/cleanup/CodeCleanupMojo.java:27-38 | The goal starts with its configured parameters, its compiled signature pattern and an empty log. |
| CleanupMojo.CodeCleanupMojo.Execute | src/main/java/com/example/cleanup/CodeCleanupMojo.java:41-66 | The outcome is `RunOutcome` of the configured per-file check. The log gains exactly `RunLog`: the missing-directory warning alone, or the two headings, every file's entries in walk order, and the closing line when nothing was found. |
| CleanupMojo.CodeCleanupMojo.CheckFileForViolations | src/main/java/com/example/cleanup/CodeCleanupMojo.java:69-98 | The flag and the appended log are those of `FileReport`: the enabled text checks in source order with short-circuit, then the unused-import check's result replacing the flag. |
| CleanupMojo.CodeCleanupMojo.OrLineCheck | src/main/java/com/example/cleanup/CodeCleanupMojo.java:79-87 | `flag \|\| has…(lines, file)` is the OR of the flag and the check's result. The check runs and logs only when the flag is still false. |
| CleanupMojo.CodeCleanupMojo.HasMaxParamsExceeded | src/main/java/com/example/cleanup/CodeCleanupMojo.java:100-125 | It returns true iff some line breaks the parameter check. The log gains exactly one warning per such line, in line order. |
| CleanupMojo.CodeCleanupMojo.ParamsLineWarning | src/main/java/com/example/cleanup/CodeCleanupMojo.java:105-121 | One line of the parameter check gives a warning iff the line breaks the check, judged on the line's first signature match. The warning is that line's warning, with the method name and the parameter count. |
| CleanupMojo.CodeCleanupMojo.HasToDoComments | src/main/java/com/example/cleanup/CodeCleanupMojo.java:127-137 | It returns true iff some line contains `TODO`. The log gains exactly one warning per such line, in line order. |
| CleanupMojo.CodeCleanupMojo.HasMaxLineLengthExceeded | src/main/java/com/example/cleanup/CodeCleanupMojo.java:139-149 | It returns true iff some line is longer than `maxLineLength - 1` in 32-bit arithmetic. The log gains exactly one warning per such line, in line order. |
| CleanupMojo.CodeCleanupMojo.HasUnusedImports | src/main/java/com/example/cleanup/CodeCleanupMojo.java:160-214 | The result and the appended log are those of `UnusedImportsScan`: a heading and one entry per unused import when there is any, nothing otherwise. |
| CleanupMojo.FilesStep | src/main/java/com/example/cleanup/CodeCleanupMojo.java:55-57 | Checking one more file appends its flag and its log entries after those of the earlier files. |
| CleanupMojo.RunLogShape | src/main/java/com/example/cleanup/CodeCleanupMojo.java:47-63 | Once the directory exists, the run's log is the two headings, the files' entries, and the closing line unless the run fails. |
| CleanupMojo.WhenStep | src/main/java/com/example/cleanup/CodeCleanupMojo.java:78-88 | One optional `flag = flag \|\| check` step equals the `When` function. |
| Aggregation.ShortCircuitFound | src/main/java/com/example/cleanup/CodeCleanupMojo.java:78-88 | A short-circuit chain of checks finds something iff one of its checks does. |
| Aggregation.NoneFoundLogsAll | src/main/java/com/example/cleanup/CodeCleanupMojo.java:78-88 | When no check finds anything, every check in the chain runs and logs. |
| Aggregation.ShortCircuitStopsAtFirst | src/main/java/com/example/cleanup/CodeCleanupMojo.java:78-88 | The checks up to the first one that finds something run and log. Those after it log nothing. |
| Aggregation.ChainWhen | src/main/java/com/example/cleanup/CodeCleanupMojo.java:78-88 | An optional step is an optional element of the chain. |
| Aggregation.TextChainIsShortCircuit | src/main/java/com/example/cleanup/CodeCleanupMojo.java:73-88 | The step-by-step text checks are the short-circuit chain of the enabled ones, in source order. |
| Aggregation.ChainStartsWithFirst | src/main/java/com/example/cleanup/CodeCleanupMojo.java:73-88 | The chain's log starts with everything its first check logs. |
| Aggregation.TextChainFound | src/main/java/com/example/cleanup/CodeCleanupMojo.java:73-88 | The text checks find something iff some enabled check does. |
| Aggregation.TextChainMessages | src/main/java/com/example/cleanup/CodeCleanupMojo.java:73-88 | The text checks log only what enabled checks log. |
| Aggregation.TextFoundIff | src/main/java/com/example/cleanup/CodeCleanupMojo.java:73-88 | On a file, the text checks find a violation iff an enabled newline, line-length, TODO or parameter check does. |
| Aggregation.FileFlagWithoutUnusedImports | src/main/java/com/example/cleanup/CodeCleanupMojo.java:70-97 | With the unused-import check off, the file's flag is the OR of the enabled text checks. |
| Aggregation.NewlineWarningLoggedRegardless | src/main/java/com/example/cleanup/CodeCleanupMojo.java:73-76 | With the newline check on, the missing-newline warning is the first message logged for every file, whether or not it ends with a terminator. |
| Aggregation.EmptyFileFlagged | src/main/java/com/example/cleanup/CodeCleanupMojo.java:153 | An empty file is flagged by the newline check. The later text checks are skipped, and only the newline warning is logged for its text. |
| Aggregation.ShortCircuitSkipsLaterChecks | src/main/java/com/example/cleanup/CodeCleanupMojo.java:78-88 | Once an enabled text check finds a violation, later checks do not run. The log holds only the warnings of the checks up to that one. |
| Aggregation.ImportEntriesExact | src/main/java/com/example/cleanup/CodeCleanupMojo.java:204 | There is one log entry per reported import, in the report's order. |
| Aggregation.UnusedImportsScanExact | src/main/java/com/example/cleanup/CodeCleanupMojo.java:197-208 | The import check is true iff some import's simple name is never used. It then logs a heading and exactly one entry per unused import in import order, and otherwise nothing. |
| Aggregation.UnusedImportsOverwrite | src/main/java/com/example/cleanup/CodeCleanupMojo.java:90-92 | With the unused-import check on, the file's flag is that check's result alone. The text checks' warnings stay in the log before the import lines. |
| Aggregation.UnusedImportsScanMessages | src/main/java/com/example/cleanup/CodeCleanupMojo.java:202-204 | The import check logs only its heading and its per-import entries. |
| Aggregation.ImportEntriesAreEntries | src/main/java/com/example/cleanup/CodeCleanupMojo.java:204 | The import lines are all import entries. |
| Aggregation.FileReportMessages | src/main/java/com/example/cleanup/CodeCleanupMojo.java:69-98 | A file's log holds only the newline warning when that check is on, warnings of enabled line checks, and lines of the enabled import check; a disabled check logs nothing. |
| Aggregation.DisabledThresholdsLogNothing | src/main/java/com/example/cleanup/CodeCleanupMojo.java:78-88 | With a threshold of -1, no warning of that check's kind is logged. Every message logged for a file is a warning. |
| Aggregation.DisabledSwitchesLogNothing | src/main/java/com/example/cleanup/CodeCleanupMojo.java:73-92 | With the newline, TODO or unused-import check switched off, no message of that check's kind is logged for the file. |
| Aggregation.JavaFilesExact | src/main/java/com/example/cleanup/CodeCleanupMojo.java:50-52 | The filter keeps exactly the walked files whose path ends with `.java`. |
| Aggregation.JavaFilesNone | src/main/java/com/example/cleanup/CodeCleanupMojo.java:50-52 | A walk with no `.java` path leaves nothing to check. |
| Aggregation.JavaFilesAppend | src/main/java/com/example/cleanup/CodeCleanupMojo.java:50-52 | The filter keeps walk order. |
| Aggregation.FileFlagsExact | src/main/java/com/example/cleanup/CodeCleanupMojo.java:55-56 | The map gives one flag per file, in file order. |
| Aggregation.ReduceOrIff | src/main/java/com/example/cleanup/CodeCleanupMojo.java:55-58 | `reduce(Boolean::logicalOr).orElse(false)` is true iff some flag is true. It is false for no flags. |
| Aggregation.RunFailsIff | src/main/java/com/example/cleanup/CodeCleanupMojo.java:50-63 | With the directory present, the run fails iff some walked `.java` file is flagged. It is never skipped. |
| Aggregation.EmptyRunPasses | src/main/java/com/example/cleanup/CodeCleanupMojo.java:47-63 | A walk with no `.java` file passes and logs the two headings, an empty file list and the closing line. |
| Aggregation.MissingSourceDirSkips | src/main/java/com/example/cleanup/CodeCleanupMojo.java:42-45 | A missing source directory ends the run early, without failing, after one warning. |
| Aggregation.NonJavaFileIgnored | src/main/java/com/example/cleanup/CodeCleanupMojo.java:50-52 | Adding a non-`.java` file anywhere in the walk changes neither the outcome nor the log. |
| Aggregation.LineWarningsOneLine | src/main/java/com/example/cleanup/CodeCleanupMojo.java:141-146 | A one-line file gets the line's warning if it breaks the check, and nothing otherwise. |
| Aggregation.NoTodoInXs | src/main/java/com/example/cleanup/CodeCleanupMojo.java:130 | A line of `x`s contains no `TODO`. |
| Aggregation.ShortFileReport | src/main/java/com/example/cleanup/CodeCleanupMojo.java:69-98 | With a limit of 120 and the import check off, a file holding one empty line is not flagged and logs only the newline warning. |
| Aggregation.LongFileReport | src/main/java/com/example/cleanup/CodeCleanupMojo.java:139-149 | With a limit of 120 and the import check off, a file holding a 130-character line is flagged. It logs the newline warning and one line warning for line 1. |
| Aggregation.LongLineRun | src/main/java/com/example/cleanup/CodeCleanupMojo.java:41-98 | With a limit of 120 and the import check off, a walk of those two files logs exactly one line warning, for line 1 of the long file, and the run fails. |
| Aggregation.TwoFileRun | src/main/java/com/example/cleanup/CodeCleanupMojo.java:50-63 | A walk of two `.java` files logs their entries one after the other and fails iff one of them is flagged. |
| CorrectedAggregation.CorrectedFlagIsOr | src/main/java/com/example/cleanup/CodeCleanupMojo.java:90-92 | With the corrected last step, a file is flagged iff some enabled check finds a violation, the import check included. |
| CorrectedAggregation.CorrectedNewlineWarningGated | src/main/java/com/example/cleanup/CodeCleanupMojo.java:73-76 | With the corrected newline step, the missing-newline warning is logged iff the check is on and the file lacks its final terminator. |
| CorrectedAggregation.CorrectedAgreesWithoutUnusedImports | src/main/java/com/example/cleanup/CodeCleanupMojo.java:70-97 | With the import check off, the corrected flag is the flag the code computes. |
| CorrectedAggregation.CorrectedRunFailsIff | src/main/java/com/example/cleanup/CodeCleanupMojo.java:55-63 | With the corrected per-file check, the run fails iff some enabled check finds a violation in some walked `.java` file. |
| CorrectedAggregation.NoImportsNoneUnused | src/main/java/com/example/cleanup/CodeCleanupMojo.java:197-207 | A file without imports is not flagged by the import check and logs nothing for it. |
| CorrectedAggregation.TodoFileHasTodo | src/main/java/com/example/cleanup/CodeCleanupMojo.java:130 | The one-line file `// TODO` breaks the TODO check. |
| CorrectedAggregation.OneFileRun | src/main/java/com/example/cleanup/CodeCleanupMojo.java:50-63 | A walk of one `.java` file fails iff that file is flagged. |
| CorrectedAggregation.OverwriteDiscardsViolation | src/main/java/com/example/cleanup/CodeCleanupMojo.java:82-92 | With the default parameters, a file holding a TODO and no imports is not flagged as written, and the run passes. The corrected check flags it, and the run fails. |
| CorrectedAggregation.LongFileReportWithImportCheck | src/main/java/com/example/cleanup/CodeCleanupMojo.java:90-92 | With a limit of 120 and the import check on, as by default, the long file's text checks find the long line and log it. The import check then clears the flag. |
| CorrectedAggregation.LongLineRunWithImportCheck | src/main/java/com/example/cleanup/CodeCleanupMojo.java:41-98 | With a limit of 120 and the import check on, the walk of the short and the long file passes as written. The corrected check fails it. |
| CorrectedAggregation.NewlineWarningWithoutViolation | src/main/java/com/example/cleanup/CodeCleanupMojo.java:73-76 | As written, a file ending with a line feed is not flagged but still gets the missing-newline warning. The corrected check logs nothing for it. |

## Left out

- File-system access is not modelled. The walk, `readAllLines`, `readAllBytes`, `FileInputStream` and `File.exists` become inputs:
  - the list of walked files in walk order;
  - each file's bytes, lines and syntax tree, given independently of one another;
  - whether the source directory exists.
- The `IOException` paths (lines 64-65, 93-94, 209-210) are not modelled: reads always succeed.
- Parsing with JavaParser is not modelled. The syntax tree is an input. The `orElse(null)` and `assert cu != null` failure for an unparsable file (lines 164-170) is left out.
- The regular-expression engine is not modelled. The pattern compiled at line 102 is the `MethodPattern` parameter, which gives the first match of a line.
- CleanupMojo.CodeCleanupMojo.HasMaxParamsExceeded: handles only the first match of each line. In `MULTILINE` mode, `^` also matches after U+0085, U+2028 and U+2029, which `readAllLines` leaves inside a line. A line such as `void a(int x, int y)` U+2028 `void b(int p, int q)` makes `find()` at line 108 succeed twice, and Java then logs up to two warnings for it where the model logs at most one.
- CleanupMojo.CodeCleanupMojo.ParamsLineWarning: looks only at the line's first signature match, so it is the source of the first-match gap described on the `HasMaxParamsExceeded` line above. With `maxMethodParameters = 1`, the line `void a(int x)` U+2028 `void b(int p, int q)` gets no warning from it, while the second `find()` at line 108 matches `b` and Java warns.
- The text of log messages is not modelled, including how an import is printed (`toString().trim()`, line 199). Messages carry the data they report.
- Log levels other than warning and info are not modelled, so the error-level logs of the I/O paths are left out.
- `MojoExecutionException` is modelled as the outcome `Failed`. The Maven parameter injection is modelled as the fixed configuration of the class.
- The visitor's node kinds are limited to those it overrides, plus one kind for every other node. The text the parser prints for a type is taken as given.
- Lines are sequences of characters, compared without any Unicode processing. `trim` removes characters up to U+0020, as Java's does.
- CleanupMojo.CodeCleanupMojo.HasMaxLineLengthExceeded: measures a line in Unicode characters, while `String.length()` at line 142 counts UTF-16 code units. The two differ on a line holding a character outside the Basic Multilingual Plane, which Java counts twice. With `maxLineLength = 3`, the line of two U+1F600 characters has Java length 4, so Java warns; the model's length is 2, so it does not.
- UnusedImports.UsedNames: walks only the type declarations. `cu.accept` at line 174 also visits the package declaration, whose annotations can hold name expressions; those names are not collected.

## Findings

| source | as written | input that shows it | evidently intended | confidence | as-written member | corrected member |
|---|---|---|---|---|---|---|
| src/main/java/com/example/cleanup/CodeCleanupMojo.java:90-92 | `violationsFound = hasUnusedImports(file)` replaces the flag set by the earlier checks | default parameters and a file ending with a line feed whose only line is `// TODO`, with no imports: the TODO is found and logged, yet the file is not flagged and the run passes. Likewise, with a limit of 120, a walk of two import-free files, one holding a 130-character line, passes (`CorrectedAggregation.LongLineRunWithImportCheck`) | `violationsFound = violationsFound \|\| hasUnusedImports(file)`: a file is flagged iff some enabled check finds a violation | high, not executed | CorrectedAggregation.OverwriteDiscardsViolation | CorrectedAggregation.CorrectedFlagIsOr |
| src/main/java/com/example/cleanup/CodeCleanupMojo.java:73-76 | the missing-newline warning is logged before, and regardless of, the test | default parameters and a file whose bytes end with a line feed: the file is not flagged for it, yet the warning is logged | the warning is logged only when the file lacks its final line terminator | high, not executed | CorrectedAggregation.NewlineWarningWithoutViolation | CorrectedAggregation.CorrectedNewlineWarningGated |
