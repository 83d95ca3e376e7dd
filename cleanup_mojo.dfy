/** The `cleanup` goal: its configuration, the per-file aggregation of the
    enabled checks, the run over every `.java` file, and the plugin object
    whose methods run the checks and append to its log. */
module CleanupMojo {
  import opened Wrappers
  import opened JavaLang
  import opened UnusedImports
  import opened Log
  import opened LineChecks

  /** The goal's parameters. A threshold of -1 switches its check off. */
  datatype Config = Config(
    checkUnusedImports: bool,
    maxLineLength: Int32,
    checkNewLineAtEnd: bool,
    checkTODOs: bool,
    maxMethodParameters: Int32)

  const Disabled: Int32 := -1

  /** The parameters' default values. */
  const DefaultConfig := Config(true, Disabled, true, true, Disabled)

  /** A file found under the source directory: its path, its raw bytes, its
      lines (without terminators) and its syntax tree. */
  datatype SourceFile = SourceFile(
    path: Path,
    bytes: seq<Byte>,
    lines: seq<string>,
    unit: CompilationUnit)

  /** What one check (or a sequence of them) concluded and logged. */
  datatype Report = Report(found: bool, emitted: seq<Message>)

  /** How `execute` ends: it returns early without a source directory,
      returns normally when nothing was found, and throws otherwise. */
  datatype Outcome = SkippedNoSourceDir | Passed | Failed

  /** The newline step: the warning is logged before the test is made. */
  function NewlineScan(file: SourceFile): Report {
    Report(!HasNewlineAtEOF(file.bytes), [MissingNewline(file.path)])
  }

  /** One of the line-by-line checks over the file's lines. */
  function LineScan(file: SourceFile, check: LineCheck): Report {
    Report(AnyViolation(file.lines, check), LineWarnings(file.path, file.lines, check))
  }

  /** One warning per reported import, in order. */
  function ImportEntries(imports: seq<Import>): (r: seq<Message>)
    ensures |r| == |imports|
  {
    if imports == [] then []
    else ImportEntries(imports[..|imports| - 1]) + [UnusedImportEntry(imports[|imports| - 1])]
  }

  /** The unused-import check: a heading and one line per unused import when
      there is any, nothing otherwise. */
  function UnusedImportsScan(path: Path, unit: CompilationUnit): (r: Report)
    ensures r.found <==> r.emitted != []
    ensures r.found ==>
      r.emitted[0] == UnusedImportsIn(path) && |r.emitted| == 1 + |Unused(unit.imports, UsedNames(unit))|
  {
    var unused := Unused(unit.imports, UsedNames(unit));
    if unused == [] then Report(false, [])
    else Report(true, [UnusedImportsIn(path)] + ImportEntries(unused))
  }

  /** `flag = flag || next`: once `acc` has found something, `next` is not run
      and logs nothing. */
  function OrElse(acc: Report, next: Report): Report {
    if acc.found then acc else Report(next.found, acc.emitted + next.emitted)
  }

  /** One optional `flag = flag || next` step: when the check is enabled,
      `next` runs unless `acc` has already found something. */
  function When(enabled: bool, acc: Report, next: Report): Report {
    if enabled then OrElse(acc, next) else acc
  }

  /** The four optional text steps of `checkFileForViolations`, in source
      order, given what each check would conclude and log if it ran. */
  function TextChain(cfg: Config, newline: Report, length: Report, todo: Report, params: Report): Report {
    var afterNewline := When(cfg.checkNewLineAtEnd, Report(false, []), newline);
    var afterLength := When(cfg.maxLineLength != Disabled, afterNewline, length);
    var afterTodo := When(cfg.checkTODOs, afterLength, todo);
    When(cfg.maxMethodParameters != Disabled, afterTodo, params)
  }

  /** The text checks of `checkFileForViolations` on one file. */
  function TextReport(cfg: Config, pattern: MethodPattern, file: SourceFile): Report {
    TextChain(cfg, NewlineScan(file), LineScan(file, MaxLineLength(cfg.maxLineLength)),
              LineScan(file, ToDo), LineScan(file, MaxParams(cfg.maxMethodParameters, pattern)))
  }

  /** The last step: when enabled, the unused-import check's result REPLACES
      the flag, and its warnings follow the text checks' ones. */
  function Overwrite(enabled: bool, text: Report, imports: Report): Report {
    if enabled then Report(imports.found, text.emitted + imports.emitted) else text
  }

  /** `checkFileForViolations` on one file: with every check switched off
      nothing is found or logged, and a file is only flagged by some enabled
      check. */
  function FileReport(cfg: Config, pattern: MethodPattern, file: SourceFile): (r: Report)
    ensures (!cfg.checkNewLineAtEnd && cfg.maxLineLength == Disabled && !cfg.checkTODOs
             && cfg.maxMethodParameters == Disabled && !cfg.checkUnusedImports) ==> r == Report(false, [])
    ensures r.found ==> (cfg.checkNewLineAtEnd || cfg.maxLineLength != Disabled || cfg.checkTODOs
                         || cfg.maxMethodParameters != Disabled || cfg.checkUnusedImports)
  {
    Overwrite(cfg.checkUnusedImports, TextReport(cfg, pattern, file), UnusedImportsScan(file.path, file.unit))
  }

  /** The per-file check `execute` maps over the files. */
  function FileCheck(cfg: Config, pattern: MethodPattern): SourceFile -> Report {
    (f: SourceFile) => FileReport(cfg, pattern, f)
  }

  /** The stream filter on `Path.toString().endsWith(".java")`: it keeps
      only `.java` paths and never adds a file. */
  function JavaFiles(walked: seq<SourceFile>): (r: seq<SourceFile>)
    ensures |r| <= |walked|
    ensures forall k :: 0 <= k < |r| ==> EndsWith(r[k].path, ".java")
  {
    if walked == [] then []
    else (if EndsWith(walked[0].path, ".java") then [walked[0]] else []) + JavaFiles(walked[1..])
  }

  function Paths(files: seq<SourceFile>): seq<Path> {
    seq(|files|, k requires 0 <= k < |files| => files[k].path)
  }

  /** The stream `map` step: one flag per file, in order. */
  function FileFlags(check: SourceFile -> Report, files: seq<SourceFile>): seq<bool> {
    if files == [] then []
    else FileFlags(check, files[..|files| - 1]) + [check(files[|files| - 1]).found]
  }

  /** Everything the per-file checks log, file after file. */
  function FilesLog(check: SourceFile -> Report, files: seq<SourceFile>): seq<Message> {
    if files == [] then []
    else FilesLog(check, files[..|files| - 1]) + check(files[|files| - 1]).emitted
  }

  /** `Stream.reduce(Boolean::logicalOr)`: nothing for no flags, otherwise
      the left-to-right `||` of them. */
  function ReduceOr(flags: seq<bool>): (r: Option<bool>)
    ensures r.None? <==> flags == []
  {
    if flags == [] then None
    else if |flags| == 1 then Some(flags[0])
    else Some(ReduceOr(flags[..|flags| - 1]).value || flags[|flags| - 1])
  }

  /** Whether the run ends normally, `check` being the per-file check. */
  function RunOutcome(check: SourceFile -> Report, sourceDirExists: bool, walked: seq<SourceFile>): Outcome {
    if !sourceDirExists then SkippedNoSourceDir
    else if ReduceOr(FileFlags(check, JavaFiles(walked))).GetOr(false) then Failed
    else Passed
  }

  /** Everything the run logs. */
  function RunLog(check: SourceFile -> Report, sourceDir: Path, sourceDirExists: bool,
                  walked: seq<SourceFile>): seq<Message>
  {
    if !sourceDirExists then [SourceDirMissing(sourceDir)]
    else
      var files := JavaFiles(walked);
      [Scanning(sourceDir), FilesFound(Paths(files))]
      + FilesLog(check, files)
      + (if RunOutcome(check, sourceDirExists, walked) == Failed then [] else [NoViolations])
  }

  /** The plugin object: its configuration is fixed when it is created; its
      log only grows. */
  class CodeCleanupMojo {
    const config: Config
    /** The compiled method-signature pattern. */
    const methodPattern: MethodPattern
    var log: seq<Message>

    constructor (config: Config, methodPattern: MethodPattern)
      ensures this.config == config && this.methodPattern == methodPattern
      ensures log == []
    {
      this.config := config;
      this.methodPattern := methodPattern;
      log := [];
    }

    /** `execute`: check every `.java` file the walk found and fail if any
        file's flag is set. */
    method Execute(sourceDir: Path, sourceDirExists: bool, walked: seq<SourceFile>) returns (outcome: Outcome)
      modifies this
      ensures outcome == RunOutcome(FileCheck(config, methodPattern), sourceDirExists, walked)
      ensures log == old(log) + RunLog(FileCheck(config, methodPattern), sourceDir, sourceDirExists, walked)
    {
      if !sourceDirExists {
        log := log + [SourceDirMissing(sourceDir)];
        return SkippedNoSourceDir;
      }
      log := log + [Scanning(sourceDir)];
      var javaFiles := JavaFiles(walked);
      log := log + [FilesFound(Paths(javaFiles))];
      ghost var start := log;
      ghost var check := FileCheck(config, methodPattern);
      var flags: seq<bool> := [];
      var i := 0;
      while i < |javaFiles|
        invariant 0 <= i <= |javaFiles|
        invariant flags == FileFlags(check, javaFiles[..i])
        invariant log == start + FilesLog(check, javaFiles[..i])
      {
        ghost var log0 := log;
        var flag := CheckFileForViolations(javaFiles[i]);
        FilesStep(check, javaFiles, i, start, log0, log);
        flags := flags + [flag];
        i := i + 1;
      }
      assert javaFiles[..i] == javaFiles;
      var violationsFound := ReduceOr(flags).GetOr(false);
      if violationsFound {
        outcome := Failed;
      } else {
        log := log + [NoViolations];
        outcome := Passed;
      }
      RunLogShape(check, sourceDir, walked, old(log), start, log);
    }

    /** `checkFileForViolations`: the enabled checks in source order, each
        skipped once a violation is known, then the unused-import check. */
    method CheckFileForViolations(file: SourceFile) returns (found: bool)
      modifies this
      ensures found == FileReport(config, methodPattern, file).found
      ensures log == old(log) + FileReport(config, methodPattern, file).emitted
    {
      ghost var start := log;
      ghost var acc := Report(false, []);
      found := false;
      if config.checkNewLineAtEnd {
        log := log + [MissingNewline(file.path)];
        found := !HasNewlineAtEOF(file.bytes);
      }
      acc := When(config.checkNewLineAtEnd, acc, NewlineScan(file));

      ghost var log0, found0 := log, found;
      if config.maxLineLength != Disabled {
        found := OrLineCheck(found, LengthCheck(), file);
      }
      WhenStep(config.maxLineLength != Disabled, start, acc, LineScan(file, LengthCheck()), found0, log0, found, log);
      acc := When(config.maxLineLength != Disabled, acc, LineScan(file, LengthCheck()));

      log0, found0 := log, found;
      if config.checkTODOs {
        found := OrLineCheck(found, ToDo, file);
      }
      WhenStep(config.checkTODOs, start, acc, LineScan(file, ToDo), found0, log0, found, log);
      acc := When(config.checkTODOs, acc, LineScan(file, ToDo));

      log0, found0 := log, found;
      if config.maxMethodParameters != Disabled {
        found := OrLineCheck(found, ParamsCheck(), file);
      }
      WhenStep(config.maxMethodParameters != Disabled, start, acc, LineScan(file, ParamsCheck()), found0, log0, found, log);
      acc := When(config.maxMethodParameters != Disabled, acc, LineScan(file, ParamsCheck()));

      assert acc == TextReport(config, methodPattern, file);
      if config.checkUnusedImports {
        found := HasUnusedImports(file.path, file.unit);
        AppendAssoc(start, acc.emitted, UnusedImportsScan(file.path, file.unit).emitted);
      }
    }

    /** The line-length check with the configured threshold. */
    function LengthCheck(): LineCheck {
      MaxLineLength(config.maxLineLength)
    }

    /** The parameter-count check with the configured threshold and pattern. */
    function ParamsCheck(): LineCheck {
      MaxParams(config.maxMethodParameters, methodPattern)
    }

    /** `flag = flag || has…(lines, file)`: the check runs, and logs, only
        when no violation is known yet; `flag` is what the earlier checks
        concluded. */
    method OrLineCheck(flag: bool, check: LineCheck, file: SourceFile) returns (r: bool)
      requires check == LengthCheck() || check == ToDo || check == ParamsCheck()
      modifies this
      ensures r == (flag || AnyViolation(file.lines, check))
      ensures log == old(log) + (if flag then [] else LineWarnings(file.path, file.lines, check))
    {
      if flag {
        return true;
      }
      if check.MaxLineLength? {
        r := HasMaxLineLengthExceeded(file.lines, file.path);
      } else if check.ToDo? {
        r := HasToDoComments(file.lines, file.path);
      } else {
        r := HasMaxParamsExceeded(file.lines, file.path);
      }
    }

    /** `hasMaxParamsExceeded`: one warning per matched signature line whose
        parameter count is above the threshold. */
    method HasMaxParamsExceeded(lines: seq<string>, file: Path) returns (found: bool)
      modifies this
      ensures found == AnyViolation(lines, MaxParams(config.maxMethodParameters, methodPattern))
      ensures log == old(log) + LineWarnings(file, lines, MaxParams(config.maxMethodParameters, methodPattern))
    {
      ghost var check := MaxParams(config.maxMethodParameters, methodPattern);
      ghost var start := log;
      found := false;
      var i := 0;
      while i < |lines|
        invariant 0 <= i <= |lines|
        invariant found == (LineWarnings(file, lines[..i], check) != [])
        invariant log == start + LineWarnings(file, lines[..i], check)
      {
        ghost var log0 := log;
        var warning := ParamsLineWarning(lines[i], i + 1, file);
        if warning.Some? {
          log := log + [warning.value];
          found := true;
        }
        LineWarningsStep(start, file, lines, i, check, log0, log);
        i := i + 1;
      }
      assert lines[..i] == lines;
      LineWarningsFoundIff(file, lines, check);
    }

    /** One iteration of `hasMaxParamsExceeded`: trim the line, match the
        signature pattern, trim the parameter block and count its pieces; the
        warning for line number `n` when the count is above the threshold. */
    method ParamsLineWarning(line: string, n: nat, file: Path) returns (w: Option<Message>)
      ensures w.Some? <==> Violates(ParamsCheck(), line)
      ensures w.Some? ==> w.value == WarningFor(ParamsCheck(), file, n, line)
    {
      var trimmed := Trim(line);
      match methodPattern(trimmed) {
        case Some(sig) =>
          var paramBlock := Trim(sig.parameters);
          if paramBlock != [] {
            var paramCount := |Split(paramBlock, ',')|;
            if paramCount > config.maxMethodParameters as int {
              return Some(LineWarning(file, n, TooManyParams(sig.methodName, paramCount, config.maxMethodParameters)));
            }
          }
        case None =>
      }
      return None;
    }

    /** `hasToDoComments`: one warning per line containing `TODO`. */
    method HasToDoComments(lines: seq<string>, file: Path) returns (found: bool)
      modifies this
      ensures found == AnyViolation(lines, ToDo)
      ensures log == old(log) + LineWarnings(file, lines, ToDo)
    {
      ghost var start := log;
      found := false;
      var i := 0;
      while i < |lines|
        invariant 0 <= i <= |lines|
        invariant found == (LineWarnings(file, lines[..i], ToDo) != [])
        invariant log == start + LineWarnings(file, lines[..i], ToDo)
      {
        ghost var log0 := log;
        if Contains(lines[i], "TODO") {
          log := log + [LineWarning(file, i + 1, TodoFound(Trim(lines[i])))];
          found := true;
          assert WarningFor(ToDo, file, i + 1, lines[i]) == log[|log| - 1];
        } else {
          assert !Violates(ToDo, lines[i]);
        }
        LineWarningsStep(start, file, lines, i, ToDo, log0, log);
        i := i + 1;
      }
      assert lines[..i] == lines;
      LineWarningsFoundIff(file, lines, ToDo);
    }

    /** `hasMaxLineLengthExceeded`: one warning per line longer than
        `maxLineLength - 1` (32-bit arithmetic). */
    method HasMaxLineLengthExceeded(lines: seq<string>, file: Path) returns (found: bool)
      modifies this
      ensures found == AnyViolation(lines, MaxLineLength(config.maxLineLength))
      ensures log == old(log) + LineWarnings(file, lines, MaxLineLength(config.maxLineLength))
    {
      ghost var check := MaxLineLength(config.maxLineLength);
      ghost var start := log;
      found := false;
      var i := 0;
      while i < |lines|
        invariant 0 <= i <= |lines|
        invariant found == (LineWarnings(file, lines[..i], check) != [])
        invariant log == start + LineWarnings(file, lines[..i], check)
      {
        ghost var log0 := log;
        if |lines[i]| > Sub32(config.maxLineLength, 1) as int {
          log := log + [LineWarning(file, i + 1, LineTooLong)];
          found := true;
          assert WarningFor(check, file, i + 1, lines[i]) == log[|log| - 1];
        } else {
          assert !Violates(check, lines[i]);
        }
        LineWarningsStep(start, file, lines, i, check, log0, log);
        i := i + 1;
      }
      assert lines[..i] == lines;
      LineWarningsFoundIff(file, lines, check);
    }

    /** `hasUnusedImports`: collect the used names with the visitor, then
        report the imports whose identifier is not among them. */
    method HasUnusedImports(path: Path, unit: CompilationUnit) returns (found: bool)
      modifies this
      ensures found == UnusedImportsScan(path, unit).found
      ensures log == old(log) + UnusedImportsScan(path, unit).emitted
    {
      var collector := new UsedNameCollector();
      collector.VisitAll(unit.types);
      assert collector.usedNames == UsedNames(unit);
      var unusedImports := Unused(unit.imports, collector.usedNames);
      if unusedImports != [] {
        log := log + [UnusedImportsIn(path)];
        var i := 0;
        while i < |unusedImports|
          invariant 0 <= i <= |unusedImports|
          invariant log == old(log) + [UnusedImportsIn(path)] + ImportEntries(unusedImports[..i])
        {
          log := log + [UnusedImportEntry(unusedImports[i])];
          assert unusedImports[..i + 1][..i] == unusedImports[..i];
          i := i + 1;
        }
        assert unusedImports[..i] == unusedImports;
        assert log == old(log) + ([UnusedImportsIn(path)] + ImportEntries(unusedImports));
        found := true;
      } else {
        found := false;
      }
    }
  }

  /** One more file checked: its flag and its log entries go at the end. */
  lemma FilesStep(check: SourceFile -> Report, files: seq<SourceFile>, i: nat,
                  start: seq<Message>, log0: seq<Message>, log1: seq<Message>)
    requires i < |files|
    requires log0 == start + FilesLog(check, files[..i])
    requires log1 == log0 + check(files[i]).emitted
    ensures log1 == start + FilesLog(check, files[..i + 1])
    ensures FileFlags(check, files[..i + 1]) == FileFlags(check, files[..i]) + [check(files[i]).found]
  {
    var front := files[..i + 1];
    assert front[..i] == files[..i] && front[i] == files[i];
    AppendAssoc(start, FilesLog(check, files[..i]), check(files[i]).emitted);
  }

  /** The run's log, once the directory exists: the two headings, the files'
      entries, and the closing line when nothing was found. */
  lemma RunLogShape(check: SourceFile -> Report, sourceDir: Path, walked: seq<SourceFile>,
                    before: seq<Message>, start: seq<Message>, after: seq<Message>)
    requires start == before + [Scanning(sourceDir)] + [FilesFound(Paths(JavaFiles(walked)))]
    requires var body := start + FilesLog(check, JavaFiles(walked));
      after == if RunOutcome(check, true, walked) == Failed then body else body + [NoViolations]
    ensures after == before + RunLog(check, sourceDir, true, walked)
  {
  }

  /** One optional `flag = flag || next` step, in terms of what has been
      logged since `start`. */
  lemma WhenStep(enabled: bool, start: seq<Message>, acc: Report, next: Report,
                 found0: bool, log0: seq<Message>, found1: bool, log1: seq<Message>)
    requires found0 == acc.found && log0 == start + acc.emitted
    requires enabled ==> found1 == (found0 || next.found)
    requires enabled ==> log1 == log0 + (if found0 then [] else next.emitted)
    requires !enabled ==> found1 == found0 && log1 == log0
    ensures found1 == When(enabled, acc, next).found && log1 == start + When(enabled, acc, next).emitted
  {
  }

  lemma AppendAssoc(a: seq<Message>, b: seq<Message>, c: seq<Message>)
    ensures a + b + c == a + (b + c)
  {
  }
}
