/** The decision logic of `utils.py`: the forgiving JSON parse and the
    choice of spreadsheet or CSV reader/writer from a file name. The reading
    and writing themselves, and the logger set-up, are not modelled. */
module Utils {
  import opened Wrappers
  import opened Text
  import opened Json

  /** `json_str` parsed directly, else its first-`{`-to-last-`}` slice parsed,
      else `None` (`parse_json_safely`). */
  function ParseJsonSafely(codec: Codec, jsonStr: string): (r: Option<Value>)
    ensures codec.loads(jsonStr).Some? ==> r == codec.loads(jsonStr)
    ensures codec.loads(jsonStr).None? && ('{' !in jsonStr || '}' !in jsonStr) ==> r == None
    ensures codec.loads(jsonStr).None? ==>
              forall i, j :: FirstOccurrence(jsonStr, '{', i) && LastOccurrence(jsonStr, '}', j) ==>
                r == (if i < j then codec.loads(jsonStr[i..j + 1]) else None)
  {
    match codec.loads(jsonStr)
    case Some(v) => Some(v)
    case None =>
      match BraceSlice(jsonStr)
      case Some(content) => codec.loads(content)
      case None => None
  }

  /** Every character of `s[lo..hi]` is a dot. */
  predicate AllDots(s: string, lo: int, hi: int)
    requires 0 <= lo <= hi <= |s|
  {
    forall k :: lo <= k < hi ==> s[k] == '.'
  }

  /** The extension `os.path.splitext(path)[1]` reports for a POSIX path: from
      the last dot of the last path component to the end, unless that
      component is only dots before it (`.csv` has no extension). */
  function Extension(path: string): (ext: string)
    ensures |ext| <= |path| && ext == path[|path| - |ext|..]
    ensures ext != "" ==> ext[0] == '.'
    ensures forall m :: 0 < m < |ext| ==> ext[m] != '.' && ext[m] != '/'
    ensures (forall m :: 0 <= m < |path| ==> path[m] != '.') ==> ext == ""
    ensures forall d :: LastOccurrence(path, '.', d) ==>
              ext == if StemBefore(path, d) then path[d..] else ""
  {
    var sep := RFind(path, '/');
    var dot := RFind(path, '.');
    if dot > sep && !AllDots(path, sep + 1, dot) then
      var ext := path[dot..];
      assert forall m :: 0 <= m < |ext| ==> ext[m] == path[dot + m];
      var k :| sep + 1 <= k < dot && path[k] != '.';
      assert StemBefore(path, dot);
      ext
    else
      assert dot >= 0 ==> !StemBefore(path, dot);
      ""
  }

  /** The last path component has a character other than a dot before
      index `d`. */
  ghost predicate StemBefore(path: string, d: int) {
    exists k :: 0 <= k < d && k < |path| && path[k] != '.' && forall m :: k <= m < |path| ==> path[m] != '/'
  }

  /** A name whose last component has a stem ending in an ordinary character
      has the text after its last dot as extension. */
  lemma ExtensionOfNamedFile(stem: string, suffix: string)
    requires '.' !in suffix && '/' !in suffix
    requires |stem| > 0 && stem[|stem| - 1] != '/' && stem[|stem| - 1] != '.'
    ensures Extension(stem + "." + suffix) == "." + suffix
  {
    var path := stem + "." + suffix;
    var dot := |stem|;
    assert path[dot + 1..] == suffix;
    RFindIsLastOccurrence(path, '.', dot);
    assert path[dot - 1..] == [stem[|stem| - 1]] + "." + suffix;
    RFindBefore(path, '/', dot - 1);
    var sep := RFind(path, '/');
    assert path[dot - 1] == stem[|stem| - 1];
    assert path[dot..] == "." + suffix;
  }

  /** A hidden file such as `.csv` has no extension. */
  lemma HiddenFileHasNoExtension(suffix: string)
    requires '.' !in suffix && '/' !in suffix
    ensures Extension("." + suffix) == ""
  {
    var path := "." + suffix;
    assert path[1..] == suffix;
    RFindIsLastOccurrence(path, '.', 0);
    assert '/' !in path;
  }

  /** The two readers and writers the utilities dispatch to. */
  datatype Format = Excel | Csv

  /** The two exceptions `read_data_file` raises before reading. */
  datatype ReadError = FileNotFound(path: string) | UnsupportedFileType(extension: string)

  /** The reader `read_data_file` picks; `fileExists` is what `os.path.exists`
      reports for the path. */
  function ReadDataFile(path: string, fileExists: bool): (r: Result<Format, ReadError>)
    ensures !fileExists ==> r == Failure(FileNotFound(path))
    ensures fileExists ==>
              var ext := Lower(Extension(path));
              && (r == Success(Excel) <==> ext == ".xlsx" || ext == ".xls")
              && (r == Success(Csv) <==> ext == ".csv")
              && (r.Failure? ==> r.error == UnsupportedFileType(ext))
  {
    if !fileExists then Failure(FileNotFound(path))
    else
      var ext := Lower(Extension(path));
      if ext == ".xlsx" || ext == ".xls" then Success(Excel)
      else if ext == ".csv" then Success(Csv)
      else Failure(UnsupportedFileType(ext))
  }

  /** The format name `save_data_file` settles on: an explicit, non-empty
      `file_format`, lower-cased, wins; otherwise the extension decides, and
      anything that is not a spreadsheet extension falls back to `csv`. */
  function SaveFormat(path: string, fileFormat: Option<string>): (r: string)
    ensures fileFormat.Some? && fileFormat.value != "" ==> r == Lower(fileFormat.value)
    ensures !(fileFormat.Some? && fileFormat.value != "") ==>
              var ext := Lower(Extension(path));
              r == (if ext == ".xlsx" || ext == ".xls" then "excel" else "csv")
  {
    if fileFormat.Some? && fileFormat.value != "" then Lower(fileFormat.value)
    else
      var ext := Lower(Extension(path));
      if ext == ".xlsx" || ext == ".xls" then "excel"
      else if ext == ".csv" then "csv"
      else "csv"
  }

  /** The writer `save_data_file` runs: only the format name `excel` writes a
      spreadsheet, every other name writes CSV. */
  function SaveDataFile(path: string, fileFormat: Option<string>): (w: Format)
    ensures w == Excel <==> SaveFormat(path, fileFormat) == "excel"
  {
    if SaveFormat(path, fileFormat) == "excel" then Excel else Csv
  }

  /** A file the reader accepts is written back, without an explicit format,
      in the format it is read in. */
  lemma SaveMatchesRead(path: string)
    requires ReadDataFile(path, true).Success?
    ensures SaveDataFile(path, None) == ReadDataFile(path, true).value
  {
  }

  /** A name the reader refuses is still written, as CSV. */
  lemma SaveFallsBackToCsv(path: string)
    requires ReadDataFile(path, true).Failure?
    ensures SaveDataFile(path, None) == Csv
  {
  }

  /** An explicit format ignores the file name, and matches case-insensitively. */
  lemma ExplicitFormatWins(path: string, other: string, fileFormat: string)
    requires fileFormat != ""
    ensures SaveDataFile(path, Some(fileFormat)) == SaveDataFile(other, Some(fileFormat))
    ensures SaveDataFile(path, Some(fileFormat)) == Excel <==> Lower(fileFormat) == "excel"
  {
  }

  /** `EXCEL` selects the spreadsheet writer; an extension given as the
      format, such as `xlsx`, selects CSV. */
  lemma ExplicitFormatExamples(path: string)
    ensures SaveDataFile(path, Some("EXCEL")) == Excel
    ensures SaveDataFile(path, Some("xlsx")) == Csv
  {
    assert Lower("EXCEL") == "excel";
    assert Lower("xlsx")[0] == 'x';
  }

  /** The lower-cased extension of a named file is its lower-cased suffix. */
  lemma LowerExtensionOfNamedFile(stem: string, suffix: string)
    requires |stem| > 0 && stem[|stem| - 1] != '/' && stem[|stem| - 1] != '.'
    requires '.' !in suffix && '/' !in suffix
    ensures Lower(Extension(stem + "." + suffix)) == "." + Lower(suffix)
  {
    ExtensionOfNamedFile(stem, suffix);
    LowerConcat(".", suffix);
    assert Lower(".") == ".";
  }

  lemma DottedSpreadsheetSuffix(x: string)
    requires x == "xlsx" || x == "xls"
    ensures "." + x == ".xlsx" || "." + x == ".xls"
  {
  }

  /** A file named like `Report.XLSX`, any case of a spreadsheet suffix, is
      read as a spreadsheet and written back as one. */
  lemma SpreadsheetNameIsExcel(stem: string, suffix: string)
    requires |stem| > 0 && stem[|stem| - 1] != '/' && stem[|stem| - 1] != '.'
    requires Lower(suffix) == "xlsx" || Lower(suffix) == "xls"
    ensures ReadDataFile(stem + "." + suffix, true) == Success(Excel)
    ensures SaveDataFile(stem + "." + suffix, None) == Excel
  {
    assert '.' !in suffix && '/' !in suffix by {
      forall k | 0 <= k < |suffix|
        ensures suffix[k] != '.' && suffix[k] != '/'
      {
        assert Lower(suffix)[k] == LowerChar(suffix[k]);
      }
    }
    LowerExtensionOfNamedFile(stem, suffix);
    DottedSpreadsheetSuffix(Lower(suffix));
    SaveMatchesRead(stem + "." + suffix);
  }

  /** A hidden file such as `.csv` has no extension: the reader refuses it
      with an empty extension, and the writer falls back to CSV. */
  lemma HiddenFileIsRefused(suffix: string)
    requires '.' !in suffix && '/' !in suffix
    ensures ReadDataFile("." + suffix, true) == Failure(UnsupportedFileType(""))
    ensures SaveDataFile("." + suffix, None) == Csv
  {
    HiddenFileHasNoExtension(suffix);
  }
}
