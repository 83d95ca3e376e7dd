/** The checks that look only at a file's bytes or at its lines one by one:
    newline at end of file, line length, TODO markers and parameter counts. */
module LineChecks {
  import opened Wrappers
  import opened JavaLang
  import opened Log

  const LF: Byte := 10
  const CR: Byte := 13

  /** `hasNewlineAtEOF`: an empty file has no newline at its end. */
  function HasNewlineAtEOF(bytes: seq<Byte>): (r: bool)
    ensures bytes == [] ==> !r
  {
    if |bytes| == 0 then false
    else bytes[|bytes| - 1] == LF || bytes[|bytes| - 1] == CR
  }

  /** The file ends with a line feed or a carriage return, and only then. */
  lemma NewlineAtEOFIff(bytes: seq<Byte>)
    ensures HasNewlineAtEOF(bytes) <==>
      exists body: seq<Byte>, last: Byte :: bytes == body + [last] && (last == LF || last == CR)
  {
    if HasNewlineAtEOF(bytes) {
      assert bytes == bytes[..|bytes| - 1] + [bytes[|bytes| - 1]];
    }
  }

  /** What the parameter-count pattern captures on a line that matches it:
      the method name and the text between the parentheses. */
  datatype Signature = Signature(methodName: string, parameters: string)

  /** The single-line method-signature pattern, applied to one trimmed line:
      its first match, if any. The pattern is anchored at a line start, so a
      line matches at most once unless it holds U+0085, U+2028 or U+2029,
      which end a line for the pattern but not for the line reader; later
      matches after such a character are not modelled. */
  type MethodPattern = string -> Option<Signature>

  /** One of the three line-by-line checks, with its threshold. */
  datatype LineCheck =
    | MaxLineLength(maxLineLength: Int32)
    | ToDo
    | MaxParams(maxMethodParameters: Int32, pattern: MethodPattern)

  /** The number of parameters counted in a parameter block. */
  function ParamCount(block: string): nat {
    |Split(block, ',')|
  }

  /** The line breaks the check (the test inside each check's loop). */
  predicate Violates(check: LineCheck, line: string) {
    match check
    case MaxLineLength(max) => |line| > Sub32(max, 1) as int
    case ToDo => Contains(line, "TODO")
    case MaxParams(max, pattern) =>
      match pattern(Trim(line))
      case None => false
      case Some(sig) =>
        var block := Trim(sig.parameters);
        block != [] && ParamCount(block) > max as int
  }

  /** The kind of warning each check logs. */
  predicate OfKind(check: LineCheck, detail: LineDetail) {
    match check
    case MaxLineLength(_) => detail.LineTooLong?
    case ToDo => detail.TodoFound?
    case MaxParams(_, _) => detail.TooManyParams?
  }

  /** The warning logged for line number `n` (1-based) of `file`. */
  function WarningFor(check: LineCheck, file: Path, n: nat, line: string): (w: Message)
    requires Violates(check, line)
    ensures w.LineWarning? && w.file == file && w.line == n && OfKind(check, w.detail)
  {
    match check
    case MaxLineLength(_) => LineWarning(file, n, LineTooLong)
    case ToDo => LineWarning(file, n, TodoFound(Trim(line)))
    case MaxParams(max, pattern) =>
      var sig := pattern(Trim(line)).value;
      LineWarning(file, n, TooManyParams(sig.methodName, ParamCount(Trim(sig.parameters)), max))
  }

  /** The check applied to line number `n`: the warning it logs, if any. */
  function CheckLine(check: LineCheck, file: Path, n: nat, line: string): (r: Option<Message>)
    ensures r.Some? <==> Violates(check, line)
    ensures r.Some? ==> r.value.LineWarning? && r.value.file == file && r.value.line == n
  {
    if Violates(check, line) then Some(WarningFor(check, file, n, line)) else None
  }

  /** Some line breaks the check. */
  predicate AnyViolation(lines: seq<string>, check: LineCheck) {
    exists i :: 0 <= i < |lines| && Violates(check, lines[i])
  }

  /** The warnings a check's loop logs over `lines`, in line order. */
  function LineWarnings(file: Path, lines: seq<string>, check: LineCheck): seq<Message> {
    Scan(lines, LineRule(check, file))
  }

  /** The check as a function of line number and line. */
  function LineRule(check: LineCheck, file: Path): (nat, string) -> Option<Message> {
    (n: nat, line: string) => CheckLine(check, file, n, line)
  }

  /** The warnings a loop over `lines` logs when `at(n, line)` is the
      warning, if any, for line number `n`. */
  function Scan(lines: seq<string>, at: (nat, string) -> Option<Message>): seq<Message> {
    if lines == [] then []
    else
      var n := |lines|;
      Scan(lines[..n - 1], at) + LastScanned(lines, at)
  }

  /** The last line's contribution to `Scan`. */
  function LastScanned(lines: seq<string>, at: (nat, string) -> Option<Message>): seq<Message>
    requires lines != []
  {
    match at(|lines|, lines[|lines| - 1])
    case Some(w) => [w]
    case None => []
  }

  /** Every warning `at` gives is about the line number it was given. */
  ghost predicate NumbersLines(at: (nat, string) -> Option<Message>) {
    forall n, line :: at(n, line).Some? ==> at(n, line).value.LineWarning? && at(n, line).value.line == n
  }

  /** Line warnings whose line numbers strictly increase: no line is reported twice. */
  predicate InLineOrder(ws: seq<Message>) {
    forall k, k' :: 0 <= k < k' < |ws| ==> ws[k].LineWarning? && ws[k'].LineWarning? && ws[k].line < ws[k'].line
  }

  /** Every warning is about a breaking line, carries that line's 1-based
      number and is the one the check gives for it; the numbers strictly
      increase, so no line is reported twice. */
  lemma LineWarningsSound(file: Path, lines: seq<string>, check: LineCheck)
    ensures forall w :: w in LineWarnings(file, lines, check) ==>
      && w.LineWarning?
      && 1 <= w.line <= |lines|
      && CheckLine(check, file, w.line, lines[w.line - 1]) == Some(w)
    ensures InLineOrder(LineWarnings(file, lines, check))
  {
    var at := LineRule(check, file);
    assert NumbersLines(at);
    ScanSound(lines, at);
    ScanInLineOrder(lines, at);
  }

  /** Every breaking line gets its warning. */
  lemma LineWarningsComplete(file: Path, lines: seq<string>, check: LineCheck)
    ensures forall i :: 0 <= i < |lines| && Violates(check, lines[i]) ==>
      CheckLine(check, file, i + 1, lines[i]).value in LineWarnings(file, lines, check)
  {
    var at := LineRule(check, file);
    ScanComplete(lines, at);
    forall i | 0 <= i < |lines| && Violates(check, lines[i])
      ensures CheckLine(check, file, i + 1, lines[i]).value in LineWarnings(file, lines, check)
    {
      assert at(i + 1, lines[i]).Some?;
    }
  }

  /** The check's loop returns true iff some line breaks the check, that is
      iff it logged a warning. */
  lemma LineWarningsFoundIff(file: Path, lines: seq<string>, check: LineCheck)
    ensures LineWarnings(file, lines, check) != [] <==> AnyViolation(lines, check)
  {
    LineWarningsComplete(file, lines, check);
    var ws := LineWarnings(file, lines, check);
    if ws != [] {
      var at := LineRule(check, file);
      assert NumbersLines(at);
      ScanSound(lines, at);
      assert ws[0] in ws;
      var n := ws[0].line;
      assert at(n, lines[n - 1]).Some?;
    }
    if AnyViolation(lines, check) {
      var i :| 0 <= i < |lines| && Violates(check, lines[i]);
      assert CheckLine(check, file, i + 1, lines[i]).value in ws;
    }
  }

  /** Every warning a check logs is a line warning about `file`, of that
      check's kind. */
  lemma LineWarningsKinds(file: Path, lines: seq<string>, check: LineCheck)
    ensures forall w :: w in LineWarnings(file, lines, check) ==>
      w.LineWarning? && w.file == file && OfKind(check, w.detail)
  {
    var at := LineRule(check, file);
    assert NumbersLines(at);
    ScanSound(lines, at);
    forall w | w in LineWarnings(file, lines, check)
      ensures w.LineWarning? && w.file == file && OfKind(check, w.detail)
    {
      assert at(w.line, lines[w.line - 1]) == Some(w);
    }
  }

  lemma {:induction false} ScanSound(lines: seq<string>, at: (nat, string) -> Option<Message>)
    requires NumbersLines(at)
    ensures forall w :: w in Scan(lines, at) ==>
      w.LineWarning? && 1 <= w.line <= |lines| && at(w.line, lines[w.line - 1]) == Some(w)
  {
    if lines != [] {
      var n := |lines|;
      var front := lines[..n - 1];
      ScanSound(front, at);
      assert Scan(lines, at) == Scan(front, at) + LastScanned(lines, at);
      forall w | w in Scan(front, at)
        ensures at(w.line, lines[w.line - 1]) == Some(w)
      {
        assert front[w.line - 1] == lines[w.line - 1];
      }
    }
  }

  lemma {:induction false} ScanInLineOrder(lines: seq<string>, at: (nat, string) -> Option<Message>)
    requires NumbersLines(at)
    ensures InLineOrder(Scan(lines, at))
  {
    if lines != [] {
      var n := |lines|;
      var front := lines[..n - 1];
      ScanInLineOrder(front, at);
      ScanSound(front, at);
      var wf := Scan(front, at);
      var ws := Scan(lines, at);
      var last := LastScanned(lines, at);
      assert ws == wf + last;
      forall k, k' | 0 <= k < k' < |ws|
        ensures ws[k].LineWarning? && ws[k'].LineWarning? && ws[k].line < ws[k'].line
      {
        assert ws[k] == wf[k] && wf[k] in wf;
        if k' < |wf| {
          assert ws[k'] == wf[k'];
        } else {
          assert ws[k'] == last[0];
        }
      }
    }
  }

  lemma {:induction false} ScanComplete(lines: seq<string>, at: (nat, string) -> Option<Message>)
    ensures forall i :: 0 <= i < |lines| && at(i + 1, lines[i]).Some? ==>
      at(i + 1, lines[i]).value in Scan(lines, at)
  {
    if lines != [] {
      var n := |lines|;
      var front := lines[..n - 1];
      ScanComplete(front, at);
      var ws := Scan(lines, at);
      assert ws == Scan(front, at) + LastScanned(lines, at);
      forall i | 0 <= i < |lines| && at(i + 1, lines[i]).Some?
        ensures at(i + 1, lines[i]).value in ws
      {
        if i < n - 1 {
          assert front[i] == lines[i];
        }
      }
    }
  }

  /** One more line scanned: its warning, if any, goes at the end. */
  lemma ScanStep(lines: seq<string>, i: nat, at: (nat, string) -> Option<Message>)
    requires i < |lines|
    ensures Scan(lines[..i + 1], at) == Scan(lines[..i], at) + LastScanned(lines[..i + 1], at)
    ensures LastScanned(lines[..i + 1], at) == match at(i + 1, lines[i]) case Some(w) => [w] case None => []
  {
    assert lines[..i + 1][..i] == lines[..i];
  }

  /** One more line scanned by a check: a log holding the warnings of the
      first `i` lines, extended by the warning (if any) for line `i + 1`,
      holds the warnings of the first `i + 1` lines. */
  lemma LineWarningsStep(start: seq<Message>, file: Path, lines: seq<string>, i: nat, check: LineCheck,
                         log0: seq<Message>, log1: seq<Message>)
    requires i < |lines|
    requires log0 == start + LineWarnings(file, lines[..i], check)
    requires log1 == log0 + (if Violates(check, lines[i]) then [WarningFor(check, file, i + 1, lines[i])] else [])
    ensures log1 == start + LineWarnings(file, lines[..i + 1], check)
    ensures LineWarnings(file, lines[..i + 1], check) != [] <==>
      (LineWarnings(file, lines[..i], check) != [] || Violates(check, lines[i]))
  {
    ScanStep(lines, i, LineRule(check, file));
  }

  /** The line-length test `length > max - 1` is `length >= max`, except that
      for the smallest int the subtraction wraps and no line is ever too long. */
  lemma LineLengthViolationIff(line: string, max: Int32)
    ensures max as int != IntMin ==> (Violates(MaxLineLength(max), line) <==> |line| >= max as int)
    ensures max as int == IntMin && |line| <= IntMax ==> !Violates(MaxLineLength(max), line)
  {
  }

  /** On a line the pattern matches: an empty (after trimming) parameter block
      never breaks the check; a non-empty one not ending in a comma has one
      parameter more than it has commas. */
  lemma ParamViolationIff(max: Int32, pattern: MethodPattern, line: string, sig: Signature)
    requires pattern(Trim(line)) == Some(sig)
    ensures Trim(sig.parameters) == [] ==> !Violates(MaxParams(max, pattern), line)
    ensures var block := Trim(sig.parameters);
      block != [] && block[|block| - 1] != ',' ==>
        (Violates(MaxParams(max, pattern), line) <==> CountChar(block, ',') + 1 > max as int)
  {
    var block := Trim(sig.parameters);
    TrimSpec(sig.parameters);
    if block != [] && block[|block| - 1] != ',' {
      SplitCount(block, ',');
    }
  }

  /** A line the pattern does not match never breaks the parameter check. */
  lemma NoMatchNoParamViolation(max: Int32, pattern: MethodPattern, line: string)
    requires pattern(Trim(line)).None?
    ensures !Violates(MaxParams(max, pattern), line)
  {
  }
}
