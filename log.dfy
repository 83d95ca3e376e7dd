/** The plugin's log, as data: what each message is about, not how it is
    worded. */
module Log {
  import opened JavaLang
  import UnusedImports

  datatype Level = Info | Warn

  /** What a warning about one numbered line of a file reports. */
  datatype LineDetail =
    | LineTooLong
    | TodoFound(text: string)
    | TooManyParams(methodName: string, count: nat, max: Int32)

  datatype Message =
    | SourceDirMissing(dir: Path)
    | Scanning(dir: Path)
    | FilesFound(files: seq<Path>)
    | NoViolations
    | MissingNewline(file: Path)
    | LineWarning(file: Path, line: nat, detail: LineDetail)
    | UnusedImportsIn(file: Path)
    | UnusedImportEntry(imp: UnusedImports.Import)
  {
    function Level(): Level {
      match this
      case Scanning(_) | FilesFound(_) | NoViolations => Info
      case _ => Warn
    }
  }
}
