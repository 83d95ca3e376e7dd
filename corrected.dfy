/** `checkFileForViolations` as its checks evidently mean it: the newline
    warning is logged only for a file that lacks its final line terminator,
    and the unused-import check is OR-ed into the flag like the text checks
    instead of replacing it. Beside it, inputs on which the code as written
    departs from that. */
module CorrectedAggregation {
  import opened JavaLang
  import opened UnusedImports
  import opened Log
  import opened LineChecks
  import opened CleanupMojo
  import opened Aggregation

  /** The newline step with its warning logged only on a violation. */
  function GatedNewlineScan(file: SourceFile): Report {
    var missing := !HasNewlineAtEOF(file.bytes);
    Report(missing, if missing then [MissingNewline(file.path)] else [])
  }

  /** The text checks with the gated newline step. */
  function CorrectedTextReport(cfg: Config, pattern: MethodPattern, file: SourceFile): Report {
    TextChain(cfg, GatedNewlineScan(file), LineScan(file, MaxLineLength(cfg.maxLineLength)),
              LineScan(file, ToDo), LineScan(file, MaxParams(cfg.maxMethodParameters, pattern)))
  }

  /** The corrected per-file check: `flag = flag || hasUnusedImports(file)`
      as the last optional step. */
  function CorrectedFileReport(cfg: Config, pattern: MethodPattern, file: SourceFile): Report {
    When(cfg.checkUnusedImports, CorrectedTextReport(cfg, pattern, file), UnusedImportsScan(file.path, file.unit))
  }

  function CorrectedFileCheck(cfg: Config, pattern: MethodPattern): SourceFile -> Report {
    (f: SourceFile) => CorrectedFileReport(cfg, pattern, f)
  }

  /** A file is flagged iff one of the enabled checks, the unused-import check
      included, finds a violation: no check's result is ever dropped. */
  lemma CorrectedFlagIsOr(cfg: Config, pattern: MethodPattern, file: SourceFile)
    ensures CorrectedFileReport(cfg, pattern, file).found <==>
      EnabledTextViolation(cfg, pattern, file) || (cfg.checkUnusedImports && HasUnusedImport(file.unit))
  {
    TextChainFound(cfg, GatedNewlineScan(file), LineScan(file, MaxLineLength(cfg.maxLineLength)),
                   LineScan(file, ToDo), LineScan(file, MaxParams(cfg.maxMethodParameters, pattern)));
    UnusedImportsScanExact(file.path, file.unit);
  }

  /** The newline warning is logged iff the check is on and the file lacks
      its final line terminator. */
  lemma CorrectedNewlineWarningGated(cfg: Config, pattern: MethodPattern, file: SourceFile)
    ensures MissingNewline(file.path) in CorrectedFileReport(cfg, pattern, file).emitted <==>
      cfg.checkNewLineAtEnd && !HasNewlineAtEOF(file.bytes)
  {
    var newline := GatedNewlineScan(file);
    var length := LineScan(file, MaxLineLength(cfg.maxLineLength));
    var todo := LineScan(file, ToDo);
    var params := LineScan(file, MaxParams(cfg.maxMethodParameters, pattern));
    var imports := UnusedImportsScan(file.path, file.unit);
    TextChainMessages(cfg, newline, length, todo, params);
    LineWarningsKinds(file.path, file.lines, MaxLineLength(cfg.maxLineLength));
    LineWarningsKinds(file.path, file.lines, ToDo);
    LineWarningsKinds(file.path, file.lines, MaxParams(cfg.maxMethodParameters, pattern));
    UnusedImportsScanMessages(file.path, file.unit);
    assert MissingNewline(file.path) !in imports.emitted;
    if cfg.checkNewLineAtEnd && !HasNewlineAtEOF(file.bytes) {
      TextChainIsShortCircuit(cfg, newline, length, todo, params);
      var scans := EnabledScans(cfg, newline, length, todo, params);
      assert scans[0] == newline;
      ChainStartsWithFirst(scans);
      assert MissingNewline(file.path) in CorrectedTextReport(cfg, pattern, file).emitted;
    }
  }

  /** Without the unused-import check, the corrected flag is the flag the
      code computes: the text checks already combine with `||`. */
  lemma CorrectedAgreesWithoutUnusedImports(cfg: Config, pattern: MethodPattern, file: SourceFile)
    requires !cfg.checkUnusedImports
    ensures CorrectedFileReport(cfg, pattern, file).found == FileReport(cfg, pattern, file).found
  {
    CorrectedFlagIsOr(cfg, pattern, file);
    FileFlagWithoutUnusedImports(cfg, pattern, file);
  }

  /** With the corrected check, the run fails iff some enabled check finds a
      violation in some `.java` file. */
  lemma CorrectedRunFailsIff(cfg: Config, pattern: MethodPattern, walked: seq<SourceFile>)
    ensures RunOutcome(CorrectedFileCheck(cfg, pattern), true, walked) == Failed <==>
      exists f :: f in walked && EndsWith(f.path, ".java")
        && (EnabledTextViolation(cfg, pattern, f) || (cfg.checkUnusedImports && HasUnusedImport(f.unit)))
  {
    RunFailsIff(CorrectedFileCheck(cfg, pattern), walked);
    forall f | f in walked
      ensures CorrectedFileReport(cfg, pattern, f).found <==>
        EnabledTextViolation(cfg, pattern, f) || (cfg.checkUnusedImports && HasUnusedImport(f.unit))
    {
      CorrectedFlagIsOr(cfg, pattern, f);
    }
  }

  /** The file `// TODO` followed by a line feed, with no imports. */
  const TodoFile := SourceFile("Todo.java", [47, 47, 32, 84, 79, 68, 79, LF], ["// TODO"], CompilationUnit([], []))

  /** A file ending with a line feed whose only line is empty, with no imports. */
  const CleanFile := SourceFile("Clean.java", [LF], [""], CompilationUnit([], []))

  /** No import, so none is unused. */
  lemma NoImportsNoneUnused(path: Path, unit: CompilationUnit)
    requires unit.imports == []
    ensures UnusedImportsScan(path, unit) == Report(false, [])
  {
  }

  /** The TODO file breaks the TODO check. */
  lemma TodoFileHasTodo()
    ensures AnyViolation(TodoFile.lines, ToDo)
  {
    ContainsIff("// TODO", "TODO");
    assert "TODO" <= "// TODO"[3..];
    assert Violates(ToDo, TodoFile.lines[0]);
  }

  /** A walk of one `.java` file fails iff that file is flagged. */
  lemma OneFileRun(check: SourceFile -> Report, f: SourceFile)
    requires EndsWith(f.path, ".java")
    ensures RunOutcome(check, true, [f]) == (if check(f).found then Failed else Passed)
  {
    RunFailsIff(check, [f]);
    assert f in [f];
  }

  /** As written, with the default configuration, the TODO is found and
      logged but the unused-import check then clears the flag: the file is not
      flagged and the run passes. The corrected check flags it. */
  lemma OverwriteDiscardsViolation(pattern: MethodPattern)
    ensures AnyViolation(TodoFile.lines, ToDo)
    ensures !FileReport(DefaultConfig, pattern, TodoFile).found
    ensures RunOutcome(FileCheck(DefaultConfig, pattern), true, [TodoFile]) == Passed
    ensures CorrectedFileReport(DefaultConfig, pattern, TodoFile).found
    ensures RunOutcome(CorrectedFileCheck(DefaultConfig, pattern), true, [TodoFile]) == Failed
  {
    TodoFileHasTodo();
    NoImportsNoneUnused(TodoFile.path, TodoFile.unit);
    assert EnabledTextViolation(DefaultConfig, pattern, TodoFile);
    CorrectedFlagIsOr(DefaultConfig, pattern, TodoFile);
    OneFileRun(FileCheck(DefaultConfig, pattern), TodoFile);
    OneFileRun(CorrectedFileCheck(DefaultConfig, pattern), TodoFile);
  }

  /** A line limit of 120, every other parameter as by default. */
  const DefaultLimitConfig := DefaultConfig.(maxLineLength := 120)

  /** As written, with the unused-import check on as by default, the walk of
      the short file and the file with a 130-character line passes: the long
      line is found and logged, but neither file has an unused import, so no
      file is flagged. The corrected check flags the long file and fails. */
  lemma LongLineRunWithImportCheck(pattern: MethodPattern)
    ensures AnyViolation(LongFile.lines, MaxLineLength(120))
    ensures FileReport(DefaultLimitConfig, pattern, LongFile)
      == Report(false, [MissingNewline("B.java"), LineWarning("B.java", 1, LineTooLong)])
    ensures RunOutcome(FileCheck(DefaultLimitConfig, pattern), true, [ShortFile, LongFile]) == Passed
    ensures RunOutcome(CorrectedFileCheck(DefaultLimitConfig, pattern), true, [ShortFile, LongFile]) == Failed
  {
    var cfg := DefaultLimitConfig;
    LongFileReportWithImportCheck(pattern);
    NoImportsNoneUnused(ShortFile.path, ShortFile.unit);
    assert !FileReport(cfg, pattern, ShortFile).found;
    CorrectedFlagIsOr(cfg, pattern, LongFile);
    TwoFileRun(FileCheck(cfg, pattern), ShortFile, LongFile);
    TwoFileRun(CorrectedFileCheck(cfg, pattern), ShortFile, LongFile);
  }

  /** The long file under that configuration: its text report is the one
      without the import check, and the import check then clears the flag. */
  lemma LongFileReportWithImportCheck(pattern: MethodPattern)
    ensures AnyViolation(LongFile.lines, MaxLineLength(120))
    ensures EnabledTextViolation(DefaultLimitConfig, pattern, LongFile)
    ensures FileReport(DefaultLimitConfig, pattern, LongFile)
      == Report(false, [MissingNewline("B.java"), LineWarning("B.java", 1, LineTooLong)])
  {
    LongFileReport(pattern);
    assert TextReport(DefaultLimitConfig, pattern, LongFile) == TextReport(LimitConfig, pattern, LongFile);
    NoImportsNoneUnused(LongFile.path, LongFile.unit);
    var length := MaxLineLength(120);
    assert Violates(length, LongFile.lines[0]);
  }

  /** As written, a file that ends with a line feed still gets the
      missing-newline warning, though it is not flagged for it; the corrected
      check logs nothing for it. */
  lemma NewlineWarningWithoutViolation(pattern: MethodPattern)
    ensures HasNewlineAtEOF(CleanFile.bytes)
    ensures !FileReport(DefaultConfig, pattern, CleanFile).found
    ensures MissingNewline(CleanFile.path) in FileReport(DefaultConfig, pattern, CleanFile).emitted
    ensures CorrectedFileReport(DefaultConfig, pattern, CleanFile) == Report(false, [])
  {
    NoImportsNoneUnused(CleanFile.path, CleanFile.unit);
    NewlineWarningLoggedRegardless(DefaultConfig, pattern, CleanFile);
    LineWarningsOneLine(CleanFile.path, "", ToDo);
    assert !Violates(ToDo, "");
    assert !AnyViolation(CleanFile.lines, ToDo);
  }
}
