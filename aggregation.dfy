/** What `checkFileForViolations` and `execute` promise, stated about the
    specification functions the plugin's methods are proved against, and the
    places where the code departs from a plain OR of the checks. */
module Aggregation {
  import opened Wrappers
  import opened JavaLang
  import opened UnusedImports
  import opened Log
  import opened LineChecks
  import opened CleanupMojo

  /** Checks combined left to right with a short-circuiting `||`. */
  function ShortCircuitOr(scans: seq<Report>): Report {
    if scans == [] then Report(false, [])
    else OrElse(ShortCircuitOr(scans[..|scans| - 1]), scans[|scans| - 1])
  }

  /** The text checks the configuration enables, in the order the code runs them. */
  function EnabledScans(cfg: Config, newline: Report, length: Report, todo: Report, params: Report): seq<Report> {
    (if cfg.checkNewLineAtEnd then [newline] else [])
    + (if cfg.maxLineLength != Disabled then [length] else [])
    + (if cfg.checkTODOs then [todo] else [])
    + (if cfg.maxMethodParameters != Disabled then [params] else [])
  }

  /** Everything a sequence of checks logs when every one of them runs. */
  function Emitted(scans: seq<Report>): seq<Message> {
    if scans == [] then []
    else Emitted(scans[..|scans| - 1]) + scans[|scans| - 1].emitted
  }

  /** A chain of checks finds something iff one of its checks does. */
  lemma {:induction false} ShortCircuitFound(scans: seq<Report>)
    ensures ShortCircuitOr(scans).found <==> exists k :: 0 <= k < |scans| && scans[k].found
  {
    if scans != [] {
      var front := scans[..|scans| - 1];
      ShortCircuitFound(front);
      if exists k :: 0 <= k < |scans| && scans[k].found {
        var k :| 0 <= k < |scans| && scans[k].found;
        if k < |front| {
          assert front[k].found;
        }
      }
      if exists k :: 0 <= k < |front| && front[k].found {
        var k :| 0 <= k < |front| && front[k].found;
        assert scans[k].found;
      }
    }
  }

  /** When no check finds anything, every check runs and logs. */
  lemma {:induction false} NoneFoundLogsAll(scans: seq<Report>)
    requires forall j :: 0 <= j < |scans| ==> !scans[j].found
    ensures ShortCircuitOr(scans) == Report(false, Emitted(scans))
  {
    if scans != [] {
      NoneFoundLogsAll(scans[..|scans| - 1]);
    }
  }

  /** The checks up to and including the first one that finds something run
      and log; the ones after it are skipped and log nothing. */
  lemma {:induction false} ShortCircuitStopsAtFirst(scans: seq<Report>, k: nat)
    requires k < |scans| && scans[k].found
    requires forall j :: 0 <= j < k ==> !scans[j].found
    ensures ShortCircuitOr(scans) == Report(true, Emitted(scans[..k + 1]))
  {
    var front := scans[..|scans| - 1];
    if |scans| == k + 1 {
      NoneFoundLogsAll(front);
      assert scans[..k + 1] == scans;
    } else {
      assert front[..k + 1] == scans[..k + 1];
      ShortCircuitStopsAtFirst(front, k);
    }
  }

  /** An optional step is an optional element of the chain. */
  lemma ChainWhen(scans: seq<Report>, enabled: bool, next: Report)
    ensures ShortCircuitOr(scans + (if enabled then [next] else [])) == When(enabled, ShortCircuitOr(scans), next)
  {
    if enabled {
      assert (scans + [next])[..|scans|] == scans;
    } else {
      assert scans + [] == scans;
    }
  }

  /** The step-by-step text checks are the short-circuit chain of the enabled ones. */
  lemma TextChainIsShortCircuit(cfg: Config, newline: Report, length: Report, todo: Report, params: Report)
    ensures TextChain(cfg, newline, length, todo, params) == ShortCircuitOr(EnabledScans(cfg, newline, length, todo, params))
  {
    var a := if cfg.checkNewLineAtEnd then [newline] else [];
    var b := if cfg.maxLineLength != Disabled then [length] else [];
    var c := if cfg.checkTODOs then [todo] else [];
    ChainWhen([], cfg.checkNewLineAtEnd, newline);
    assert [] + a == a;
    ChainWhen(a, cfg.maxLineLength != Disabled, length);
    ChainWhen(a + b, cfg.checkTODOs, todo);
    ChainWhen(a + b + c, cfg.maxMethodParameters != Disabled, params);
  }

  /** The text checks of one file as a sequence. */
  function TextScans(cfg: Config, pattern: MethodPattern, file: SourceFile): seq<Report> {
    EnabledScans(cfg, NewlineScan(file), LineScan(file, MaxLineLength(cfg.maxLineLength)),
                 LineScan(file, ToDo), LineScan(file, MaxParams(cfg.maxMethodParameters, pattern)))
  }

  /** The chain's log starts with everything its first check logged. */
  lemma {:induction false} ChainStartsWithFirst(scans: seq<Report>)
    requires scans != []
    ensures scans[0].emitted <= ShortCircuitOr(scans).emitted
  {
    if |scans| > 1 {
      var front := scans[..|scans| - 1];
      ChainStartsWithFirst(front);
    } else {
      assert scans[..0] == [];
    }
  }

  /** The chain finds something iff an enabled check does. */
  lemma TextChainFound(cfg: Config, newline: Report, length: Report, todo: Report, params: Report)
    ensures TextChain(cfg, newline, length, todo, params).found <==>
      || (cfg.checkNewLineAtEnd && newline.found)
      || (cfg.maxLineLength != Disabled && length.found)
      || (cfg.checkTODOs && todo.found)
      || (cfg.maxMethodParameters != Disabled && params.found)
  {
  }

  /** The chain logs only what the enabled checks log. */
  lemma TextChainMessages(cfg: Config, newline: Report, length: Report, todo: Report, params: Report)
    ensures forall m :: m in TextChain(cfg, newline, length, todo, params).emitted ==>
      || (cfg.checkNewLineAtEnd && m in newline.emitted)
      || (cfg.maxLineLength != Disabled && m in length.emitted)
      || (cfg.checkTODOs && m in todo.emitted)
      || (cfg.maxMethodParameters != Disabled && m in params.emitted)
  {
  }

  /** Some enabled text check finds a violation in the file. */
  predicate EnabledTextViolation(cfg: Config, pattern: MethodPattern, file: SourceFile) {
    || (cfg.checkNewLineAtEnd && !HasNewlineAtEOF(file.bytes))
    || (cfg.maxLineLength != Disabled && AnyViolation(file.lines, MaxLineLength(cfg.maxLineLength)))
    || (cfg.checkTODOs && AnyViolation(file.lines, ToDo))
    || (cfg.maxMethodParameters != Disabled && AnyViolation(file.lines, MaxParams(cfg.maxMethodParameters, pattern)))
  }

  /** The text checks together find a violation iff one enabled check does. */
  lemma TextFoundIff(cfg: Config, pattern: MethodPattern, file: SourceFile)
    ensures TextReport(cfg, pattern, file).found <==> EnabledTextViolation(cfg, pattern, file)
  {
    TextChainFound(cfg, NewlineScan(file), LineScan(file, MaxLineLength(cfg.maxLineLength)),
                   LineScan(file, ToDo), LineScan(file, MaxParams(cfg.maxMethodParameters, pattern)));
  }

  /** Without the unused-import check the file's flag is the OR of the enabled
      newline, line-length, TODO and parameter checks. */
  lemma FileFlagWithoutUnusedImports(cfg: Config, pattern: MethodPattern, file: SourceFile)
    requires !cfg.checkUnusedImports
    ensures FileReport(cfg, pattern, file).found <==> EnabledTextViolation(cfg, pattern, file)
  {
    TextFoundIff(cfg, pattern, file);
  }

  /** With the newline check on, its warning is the first thing logged for
      every file, whether or not the file ends with a line terminator. */
  lemma NewlineWarningLoggedRegardless(cfg: Config, pattern: MethodPattern, file: SourceFile)
    requires cfg.checkNewLineAtEnd
    ensures FileReport(cfg, pattern, file).emitted != []
    ensures FileReport(cfg, pattern, file).emitted[0] == MissingNewline(file.path)
  {
    TextChainIsShortCircuit(cfg, NewlineScan(file), LineScan(file, MaxLineLength(cfg.maxLineLength)),
                            LineScan(file, ToDo), LineScan(file, MaxParams(cfg.maxMethodParameters, pattern)));
    var scans := TextScans(cfg, pattern, file);
    assert scans[0] == NewlineScan(file);
    ChainStartsWithFirst(scans);
  }

  /** An empty file counts as missing its final line terminator: with the
      newline check on it is flagged, the checks after it are skipped, and
      only the newline warning is logged for its text. */
  lemma EmptyFileFlagged(cfg: Config, pattern: MethodPattern, file: SourceFile)
    requires cfg.checkNewLineAtEnd && file.bytes == []
    ensures TextReport(cfg, pattern, file) == Report(true, [MissingNewline(file.path)])
    ensures !cfg.checkUnusedImports ==> FileReport(cfg, pattern, file).found
  {
    TextChainIsShortCircuit(cfg, NewlineScan(file), LineScan(file, MaxLineLength(cfg.maxLineLength)),
                            LineScan(file, ToDo), LineScan(file, MaxParams(cfg.maxMethodParameters, pattern)));
    var scans := TextScans(cfg, pattern, file);
    assert scans[0] == NewlineScan(file);
    ShortCircuitStopsAtFirst(scans, 0);
    assert scans[..1][..0] == [];
  }

  /** Once an enabled text check finds a violation, the checks after it are
      not run and log nothing: the log holds the warnings of the checks up to
      that one only. */
  lemma ShortCircuitSkipsLaterChecks(cfg: Config, pattern: MethodPattern, file: SourceFile, k: nat)
    requires k < |TextScans(cfg, pattern, file)| && TextScans(cfg, pattern, file)[k].found
    requires forall j :: 0 <= j < k ==> !TextScans(cfg, pattern, file)[j].found
    ensures TextReport(cfg, pattern, file) == Report(true, Emitted(TextScans(cfg, pattern, file)[..k + 1]))
  {
    TextChainIsShortCircuit(cfg, NewlineScan(file), LineScan(file, MaxLineLength(cfg.maxLineLength)),
                            LineScan(file, ToDo), LineScan(file, MaxParams(cfg.maxMethodParameters, pattern)));
    ShortCircuitStopsAtFirst(TextScans(cfg, pattern, file), k);
  }

  /** One entry per reported import, in the report's order. */
  lemma {:induction false} ImportEntriesExact(imports: seq<Import>)
    ensures |ImportEntries(imports)| == |imports|
    ensures forall i :: 0 <= i < |imports| ==> ImportEntries(imports)[i] == UnusedImportEntry(imports[i])
  {
    if imports != [] {
      ImportEntriesExact(imports[..|imports| - 1]);
    }
  }

  /** Some import's simple name is never used in the unit. */
  predicate HasUnusedImport(unit: CompilationUnit) {
    exists imp :: imp in unit.imports && imp.name.identifier !in UsedNames(unit)
  }

  /** `hasUnusedImports` is true iff some import's simple name is never used;
      then it logs a heading and one entry per such import, in import order,
      and otherwise nothing. */
  lemma UnusedImportsScanExact(path: Path, unit: CompilationUnit)
    ensures UnusedImportsScan(path, unit).found <==> HasUnusedImport(unit)
    ensures var unused := Unused(unit.imports, UsedNames(unit));
      && |UnusedImportsScan(path, unit).emitted| == (if unused == [] then 0 else 1 + |unused|)
      && (unused != [] ==> UnusedImportsScan(path, unit).emitted[0] == UnusedImportsIn(path))
      && (forall i :: 0 <= i < |unused| ==> UnusedImportsScan(path, unit).emitted[i + 1] == UnusedImportEntry(unused[i]))
  {
    var unused := Unused(unit.imports, UsedNames(unit));
    var r := UnusedImportsScan(path, unit);
    ImportEntriesExact(unused);
    if HasUnusedImport(unit) {
      var imp :| imp in unit.imports && imp.name.identifier !in UsedNames(unit);
      assert imp in unused;
    }
    if unused != [] {
      assert unused[0] in unused;
      assert r.emitted == [UnusedImportsIn(path)] + ImportEntries(unused);
      forall i | 0 <= i < |unused|
        ensures r.emitted[i + 1] == UnusedImportEntry(unused[i])
      {
        assert r.emitted[i + 1] == ImportEntries(unused)[i];
      }
    }
  }

  /** The import check logs only its heading and its entries. */
  lemma UnusedImportsScanMessages(path: Path, unit: CompilationUnit)
    ensures forall m :: m in UnusedImportsScan(path, unit).emitted ==> m.UnusedImportsIn? || m.UnusedImportEntry?
  {
    ImportEntriesAreEntries(Unused(unit.imports, UsedNames(unit)));
  }

  /** With the unused-import check on, the file's flag is that check's result
      alone: a violation the text checks found is dropped, though their
      warnings stay in the log. */
  lemma UnusedImportsOverwrite(cfg: Config, pattern: MethodPattern, file: SourceFile)
    requires cfg.checkUnusedImports
    ensures FileReport(cfg, pattern, file).found <==> HasUnusedImport(file.unit)
    ensures FileReport(cfg, pattern, file).emitted
      == TextReport(cfg, pattern, file).emitted + UnusedImportsScan(file.path, file.unit).emitted
  {
    UnusedImportsScanExact(file.path, file.unit);
  }

  /** Every message a per-file check logs is of one of the kinds below. */
  predicate FileMessage(m: Message) {
    m.MissingNewline? || m.LineWarning? || m.UnusedImportsIn? || m.UnusedImportEntry?
  }

  lemma ImportEntriesAreEntries(imports: seq<Import>)
    ensures forall m :: m in ImportEntries(imports) ==> m.UnusedImportEntry?
  {
    ImportEntriesExact(imports);
  }

  /** What a file's log can hold: the newline warning when that check is on,
      the warnings of the enabled line checks, and the unused-import lines of
      the enabled import check. A disabled check contributes nothing. */
  lemma FileReportMessages(cfg: Config, pattern: MethodPattern, file: SourceFile)
    ensures forall m :: m in FileReport(cfg, pattern, file).emitted ==>
      || (cfg.checkNewLineAtEnd && m == MissingNewline(file.path))
      || (cfg.maxLineLength != Disabled && m in LineWarnings(file.path, file.lines, MaxLineLength(cfg.maxLineLength)))
      || (cfg.checkTODOs && m in LineWarnings(file.path, file.lines, ToDo))
      || (cfg.maxMethodParameters != Disabled && m in LineWarnings(file.path, file.lines, MaxParams(cfg.maxMethodParameters, pattern)))
      || (cfg.checkUnusedImports && m in UnusedImportsScan(file.path, file.unit).emitted)
  {
    var newline, imports := NewlineScan(file), UnusedImportsScan(file.path, file.unit);
    var length := LineScan(file, MaxLineLength(cfg.maxLineLength));
    var todo := LineScan(file, ToDo);
    var params := LineScan(file, MaxParams(cfg.maxMethodParameters, pattern));
    var text := TextChain(cfg, newline, length, todo, params);
    TextChainMessages(cfg, newline, length, todo, params);
    assert FileReport(cfg, pattern, file) == Overwrite(cfg.checkUnusedImports, text, imports);
  }

  /** A check whose threshold is -1 is never run: no warning of its kind is
      logged, and its result does not enter the flag (see
      `FileFlagWithoutUnusedImports`). Every message logged for a file is a
      warning. */
  lemma DisabledThresholdsLogNothing(cfg: Config, pattern: MethodPattern, file: SourceFile)
    ensures forall m :: m in FileReport(cfg, pattern, file).emitted ==> FileMessage(m) && m.Level() == Warn
    ensures cfg.maxLineLength == Disabled ==>
      forall m :: m in FileReport(cfg, pattern, file).emitted ==> !(m.LineWarning? && m.detail.LineTooLong?)
    ensures cfg.maxMethodParameters == Disabled ==>
      forall m :: m in FileReport(cfg, pattern, file).emitted ==> !(m.LineWarning? && m.detail.TooManyParams?)
  {
    var lengthCheck := MaxLineLength(cfg.maxLineLength);
    var paramsCheck := MaxParams(cfg.maxMethodParameters, pattern);
    var emitted := FileReport(cfg, pattern, file).emitted;
    var lengthWarnings := LineWarnings(file.path, file.lines, lengthCheck);
    var todoWarnings := LineWarnings(file.path, file.lines, ToDo);
    var paramsWarnings := LineWarnings(file.path, file.lines, paramsCheck);
    var importLines := UnusedImportsScan(file.path, file.unit).emitted;
    FileReportMessages(cfg, pattern, file);
    forall m | m in emitted
      ensures FileMessage(m) && m.Level() == Warn
      ensures cfg.maxLineLength == Disabled ==> !(m.LineWarning? && m.detail.LineTooLong?)
      ensures cfg.maxMethodParameters == Disabled ==> !(m.LineWarning? && m.detail.TooManyParams?)
    {
      if cfg.checkNewLineAtEnd && m == MissingNewline(file.path) {
      } else if cfg.maxLineLength != Disabled && m in lengthWarnings {
        LineWarningsKinds(file.path, file.lines, lengthCheck);
      } else if cfg.checkTODOs && m in todoWarnings {
        LineWarningsKinds(file.path, file.lines, ToDo);
      } else if cfg.maxMethodParameters != Disabled && m in paramsWarnings {
        LineWarningsKinds(file.path, file.lines, paramsCheck);
      } else {
        assert m in importLines;
        UnusedImportsScanMessages(file.path, file.unit);
      }
    }
  }

  /** A check switched off is never run: with `checkNewLineAtEnd`,
      `checkTODOs` or `checkUnusedImports` false, no message of that check's
      kind is logged for the file. */
  lemma DisabledSwitchesLogNothing(cfg: Config, pattern: MethodPattern, file: SourceFile)
    ensures !cfg.checkNewLineAtEnd ==>
      forall m :: m in FileReport(cfg, pattern, file).emitted ==> !m.MissingNewline?
    ensures !cfg.checkTODOs ==>
      forall m :: m in FileReport(cfg, pattern, file).emitted ==> !(m.LineWarning? && m.detail.TodoFound?)
    ensures !cfg.checkUnusedImports ==>
      forall m :: m in FileReport(cfg, pattern, file).emitted ==> !m.UnusedImportsIn? && !m.UnusedImportEntry?
  {
    var lengthCheck := MaxLineLength(cfg.maxLineLength);
    var paramsCheck := MaxParams(cfg.maxMethodParameters, pattern);
    var emitted := FileReport(cfg, pattern, file).emitted;
    var lengthWarnings := LineWarnings(file.path, file.lines, lengthCheck);
    var todoWarnings := LineWarnings(file.path, file.lines, ToDo);
    var paramsWarnings := LineWarnings(file.path, file.lines, paramsCheck);
    var importLines := UnusedImportsScan(file.path, file.unit).emitted;
    FileReportMessages(cfg, pattern, file);
    forall m | m in emitted
      ensures !cfg.checkNewLineAtEnd ==> !m.MissingNewline?
      ensures !cfg.checkTODOs ==> !(m.LineWarning? && m.detail.TodoFound?)
      ensures !cfg.checkUnusedImports ==> !m.UnusedImportsIn? && !m.UnusedImportEntry?
    {
      if cfg.checkNewLineAtEnd && m == MissingNewline(file.path) {
      } else if cfg.maxLineLength != Disabled && m in lengthWarnings {
        LineWarningsKinds(file.path, file.lines, lengthCheck);
      } else if cfg.checkTODOs && m in todoWarnings {
        LineWarningsKinds(file.path, file.lines, ToDo);
      } else if cfg.maxMethodParameters != Disabled && m in paramsWarnings {
        LineWarningsKinds(file.path, file.lines, paramsCheck);
      } else {
        assert cfg.checkUnusedImports && m in importLines;
        UnusedImportsScanMessages(file.path, file.unit);
      }
    }
  }

  /** The stream filter keeps exactly the `.java` paths ... */
  lemma {:induction false} JavaFilesExact(walked: seq<SourceFile>)
    ensures forall f :: f in JavaFiles(walked) <==> f in walked && EndsWith(f.path, ".java")
  {
    if walked != [] {
      JavaFilesExact(walked[1..]);
      assert walked == [walked[0]] + walked[1..];
    }
  }

  /** A walk with no `.java` path leaves nothing to check. */
  lemma {:induction false} JavaFilesNone(walked: seq<SourceFile>)
    requires forall f :: f in walked ==> !EndsWith(f.path, ".java")
    ensures JavaFiles(walked) == []
  {
    if walked != [] {
      assert walked[0] in walked;
      JavaFilesNone(walked[1..]);
    }
  }

  /** ... in the order the walk found them. */
  lemma {:induction false} JavaFilesAppend(a: seq<SourceFile>, b: seq<SourceFile>)
    ensures JavaFiles(a + b) == JavaFiles(a) + JavaFiles(b)
  {
    if a == [] {
      assert a + b == b;
    } else {
      assert (a + b)[0] == a[0] && (a + b)[1..] == a[1..] + b;
      JavaFilesAppend(a[1..], b);
    }
  }

  /** One flag per file, in order. */
  lemma {:induction false} FileFlagsExact(check: SourceFile -> Report, files: seq<SourceFile>)
    ensures |FileFlags(check, files)| == |files|
    ensures forall i :: 0 <= i < |files| ==> FileFlags(check, files)[i] == check(files[i]).found
  {
    if files != [] {
      FileFlagsExact(check, files[..|files| - 1]);
    }
  }

  /** `reduce(Boolean::logicalOr).orElse(false)` is true iff some flag is. */
  lemma {:induction false} ReduceOrIff(flags: seq<bool>)
    ensures ReduceOr(flags).GetOr(false) <==> true in flags
  {
    if |flags| > 1 {
      var front := flags[..|flags| - 1];
      ReduceOrIff(front);
      assert flags == front + [flags[|flags| - 1]];
    }
  }

  /** The run fails iff some `.java` file the walk found is flagged. */
  lemma RunFailsIff(check: SourceFile -> Report, walked: seq<SourceFile>)
    ensures RunOutcome(check, true, walked) == Failed <==>
      exists f :: f in walked && EndsWith(f.path, ".java") && check(f).found
    ensures RunOutcome(check, true, walked) != SkippedNoSourceDir
  {
    var files := JavaFiles(walked);
    var flags := FileFlags(check, files);
    JavaFilesExact(walked);
    FileFlagsExact(check, files);
    ReduceOrIff(flags);
    if true in flags {
      var i :| 0 <= i < |flags| && flags[i];
      assert files[i] in files;
    }
    if exists f :: f in walked && EndsWith(f.path, ".java") && check(f).found {
      var f :| f in walked && EndsWith(f.path, ".java") && check(f).found;
      var i :| 0 <= i < |files| && files[i] == f;
      assert flags[i];
    }
  }

  /** A walk with no `.java` file passes: two headings, an empty file list,
      and the closing line. */
  lemma EmptyRunPasses(check: SourceFile -> Report, sourceDir: Path, walked: seq<SourceFile>)
    requires forall f :: f in walked ==> !EndsWith(f.path, ".java")
    ensures RunOutcome(check, true, walked) == Passed
    ensures RunLog(check, sourceDir, true, walked) == [Scanning(sourceDir), FilesFound([]), NoViolations]
  {
    JavaFilesNone(walked);
    assert Paths([]) == [];
  }

  /** A missing source directory ends the run early, logging one warning and
      failing nothing. */
  lemma MissingSourceDirSkips(check: SourceFile -> Report, sourceDir: Path, walked: seq<SourceFile>)
    ensures RunOutcome(check, false, walked) == SkippedNoSourceDir
    ensures RunLog(check, sourceDir, false, walked) == [SourceDirMissing(sourceDir)]
    ensures RunLog(check, sourceDir, false, walked)[0].Level() == Warn
  {
  }

  /** A file whose path does not end in `.java` changes neither the outcome
      nor the log, wherever the walk finds it. */
  lemma NonJavaFileIgnored(check: SourceFile -> Report, sourceDir: Path,
                           before: seq<SourceFile>, other: SourceFile, after: seq<SourceFile>)
    requires !EndsWith(other.path, ".java")
    ensures RunOutcome(check, true, before + [other] + after) == RunOutcome(check, true, before + after)
    ensures RunLog(check, sourceDir, true, before + [other] + after) == RunLog(check, sourceDir, true, before + after)
  {
    JavaFilesAppend(before + [other], after);
    JavaFilesAppend(before, [other]);
    JavaFilesAppend(before, after);
    assert [other][1..] == [];
    assert JavaFiles([other]) == [];
    assert JavaFiles(before + [other]) == JavaFiles(before);
    assert JavaFiles(before + [other] + after) == JavaFiles(before + after);
  }

  /** The warnings for a one-line file. */
  lemma LineWarningsOneLine(file: Path, line: string, check: LineCheck)
    ensures LineWarnings(file, [line], check)
      == if Violates(check, line) then [WarningFor(check, file, 1, line)] else []
  {
    ScanStep([line], 0, LineRule(check, file));
    assert [line][..1] == [line] && [line][..0] == [];
  }

  /** No `TODO` in a line of `x`s. */
  lemma NoTodoInXs(n: nat)
    ensures !Contains(seq(n, _ => 'x'), "TODO")
  {
    var line := seq(n, _ => 'x');
    ContainsIff(line, "TODO");
    forall k | 0 <= k <= |line|
      ensures !("TODO" <= line[k..])
    {
      if k < |line| {
        assert line[k..][0] == 'x';
      }
    }
  }

  /** A 130-character line. */
  const LongLine: string := seq(130, _ => 'x')

  /** Two files ending with a line feed, the second holding one 130-character line. */
  const ShortFile := SourceFile("A.java", [LF], [""], CompilationUnit([], []))
  const LongFile := SourceFile("B.java", seq(130, _ => 120 as Byte) + [LF], [LongLine], CompilationUnit([], []))

  /** A line limit of 120, the unused-import check off, the rest as by default. */
  const LimitConfig := DefaultConfig.(checkUnusedImports := false, maxLineLength := 120)

  /** The short file: only the newline warning, no violation. */
  lemma ShortFileReport(pattern: MethodPattern)
    ensures FileReport(LimitConfig, pattern, ShortFile) == Report(false, [MissingNewline("A.java")])
  {
    var length := MaxLineLength(120);
    LineWarningsOneLine("A.java", "", length);
    LineWarningsOneLine("A.java", "", ToDo);
    assert !Violates(length, "") && !Violates(ToDo, "");
    assert !AnyViolation(ShortFile.lines, length) && !AnyViolation(ShortFile.lines, ToDo);
    assert HasNewlineAtEOF(ShortFile.bytes);
  }

  /** The long file: the newline warning and one line warning for line 1. */
  lemma LongFileReport(pattern: MethodPattern)
    ensures FileReport(LimitConfig, pattern, LongFile)
      == Report(true, [MissingNewline("B.java"), LineWarning("B.java", 1, LineTooLong)])
  {
    var length := MaxLineLength(120);
    LineWarningsOneLine("B.java", LongLine, length);
    NoTodoInXs(130);
    assert Violates(length, LongFile.lines[0]);
    assert AnyViolation(LongFile.lines, length);
    assert HasNewlineAtEOF(LongFile.bytes);
  }

  /** With a line limit of 120, a walk finding a short file and a file with a
      130-character line logs exactly one line warning, for line 1 of the
      second file, and the run fails. The newline warnings are logged for both
      files although both end with a line feed. */
  lemma LongLineRun(pattern: MethodPattern)
    ensures FilesLog(FileCheck(LimitConfig, pattern), [ShortFile, LongFile])
      == [MissingNewline("A.java"), MissingNewline("B.java"), LineWarning("B.java", 1, LineTooLong)]
    ensures RunOutcome(FileCheck(LimitConfig, pattern), true, [ShortFile, LongFile]) == Failed
  {
    var check := FileCheck(LimitConfig, pattern);
    ShortFileReport(pattern);
    LongFileReport(pattern);
    TwoFileRun(check, ShortFile, LongFile);
  }

  /** A walk of two `.java` files: their logs one after the other, and a
      failure iff one of them is flagged. */
  lemma TwoFileRun(check: SourceFile -> Report, a: SourceFile, b: SourceFile)
    requires EndsWith(a.path, ".java") && EndsWith(b.path, ".java")
    ensures FilesLog(check, [a, b]) == check(a).emitted + check(b).emitted
    ensures RunOutcome(check, true, [a, b]) == Failed <==> check(a).found || check(b).found
  {
    var files := [a, b];
    assert files[..1] == [a] && [a][..0] == [];
    assert FilesLog(check, [a]) == check(a).emitted;
    RunFailsIff(check, files);
    assert a in files && b in files;
  }
}
