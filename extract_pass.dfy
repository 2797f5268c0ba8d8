/**
 * The offline extraction pass shared by html2md.py and spider.py: walk the
 * saved pages in order, decide per file whether to (re)process it from the
 * `files` table of htmls2txt.db, append the extracted text plus a separator to
 * scrap_texts.md, and log one row per processed file.
 *
 * The two scripts differ only in how text is pulled out of the document and
 * in the reason logged when there is none; an `Extractor` carries both.
 * Parsing is abstract: a `Document` holds the text of the two selectors the
 * scripts query, and reading/parsing a file either yields a document or
 * raises an exception with a message.
 */
module ExtractPass {

  type Path = string

  datatype FileStatus = Done | Skipped

  /** A row of the `files` table: status, length of the text and reason. */
  datatype FileRecord = FileRecord(status: FileStatus, length: int, reason: string)

  type FileTable = map<Path, FileRecord>

  /** The text pyquery finds for `.mmplayer` and for `.conthead.discuss`. */
  datatype Document = Document(mmplayer: string, contheadDiscuss: string)

  /** Opening, reading and parsing a file: a document, or `str(e)` of the exception. */
  datatype ReadResult = Parsed(doc: Document) | Raised(message: string)

  /** How one script turns a document into text, and what it logs when the text is empty. */
  datatype Extractor = Extractor(text: Document -> string, noContent: string)

  /** Written after each extracted text. */
  const SEPARATOR := "\n\n\n\n---\n\n\n\n\n\n"

  /** log_file: INSERT OR REPLACE of one row. */
  function LogFile(table: FileTable, path: Path, status: FileStatus, length: int, reason: string): (t: FileTable)
    ensures t.Keys == table.Keys + {path}
    ensures t[path] == FileRecord(status, length, reason)
    ensures forall p :: p in table && p != path ==> t[p] == table[p]
  {
    table[path := FileRecord(status, length, reason)]
  }

  /** should_process_file: no row yet, or a `skipped` row during a --retry pass. */
  predicate ShouldProcessFile(table: FileTable, path: Path, retry: bool)
    ensures path !in table ==> ShouldProcessFile(table, path, retry)
    ensures path in table && table[path].status == Done ==> !ShouldProcessFile(table, path, retry)
    ensures path in table && !retry ==> !ShouldProcessFile(table, path, retry)
    ensures path in table && retry && table[path].status == Skipped ==> ShouldProcessFile(table, path, retry)
  {
    path !in table || (retry && table[path].status == Skipped)
  }

  /** The row the try block (or its except clause) logs for a file. */
  function Record(read: ReadResult, ex: Extractor): (r: FileRecord)
    ensures r.status == Done <==> Appendix(read, ex) != ""
    ensures r.status == Done ==>
      && read.Parsed? && r.reason == "" && r.length == |ex.text(read.doc)| > 0
      && Appendix(read, ex) == ex.text(read.doc) + SEPARATOR
    ensures r.status == Skipped ==> r.length == 0
    ensures read.Raised? ==> r == FileRecord(Skipped, 0, read.message)
    ensures read.Parsed? && r.status == Skipped ==> r.reason == ex.noContent
  {
    match read
    case Raised(message) => FileRecord(Skipped, 0, message)
    case Parsed(doc) =>
      var text := ex.text(doc);
      if text != "" then FileRecord(Done, |text|, "") else FileRecord(Skipped, 0, ex.noContent)
  }

  /** What the try block appends to the markdown output for a file. */
  function Appendix(read: ReadResult, ex: Extractor): string
  {
    match read
    case Raised(_) => ""
    case Parsed(doc) => var text := ex.text(doc); if text != "" then text + SEPARATOR else ""
  }

  /** The state the pass threads through the walk: the table and the markdown output. */
  datatype Pass = Pass(table: FileTable, output: string)

  /** One iteration of the inner loop of process_folder. */
  function ProcessFile(s: Pass, path: Path, read: ReadResult, ex: Extractor, retry: bool): (r: Pass)
    ensures r.table.Keys == s.table.Keys + {path}
    ensures forall q :: q in s.table && q != path ==> r.table[q] == s.table[q]
    ensures s.output <= r.output
    ensures !ShouldProcessFile(s.table, path, retry) ==> r == s
  {
    if !ShouldProcessFile(s.table, path, retry) then s
    else
      var r := Record(read, ex);
      Pass(LogFile(s.table, path, r.status, r.length, r.reason), s.output + Appendix(read, ex))
  }

  /** process_folder over the walked paths, in order. */
  function Run(s: Pass, paths: seq<Path>, load: Path -> ReadResult, ex: Extractor, retry: bool): (r: Pass)
    ensures s.table.Keys <= r.table.Keys
    ensures s.output <= r.output
    decreases |paths|
  {
    if paths == [] then s
    else Run(ProcessFile(s, paths[0], load(paths[0]), ex, retry), paths[1..], load, ex, retry)
  }

  method ProcessFolder(table: FileTable, output: string, paths: seq<Path>, load: Path -> ReadResult, ex: Extractor, retry: bool)
    returns (table': FileTable, output': string)
    ensures Pass(table', output') == Run(Pass(table, output), paths, load, ex, retry)
  {
    table', output' := table, output;
    var i := 0;
    while i < |paths|
      invariant 0 <= i <= |paths|
      invariant Run(Pass(table, output), paths, load, ex, retry) == Run(Pass(table', output'), paths[i..], load, ex, retry)
    {
      assert paths[i..][0] == paths[i] && paths[i..][1..] == paths[i + 1..];
      var path := paths[i];
      ghost var before := Pass(table', output');
      if ShouldProcessFile(table', path, retry) {
        match load(path) {
          case Raised(message) =>
            table' := LogFile(table', path, Skipped, 0, message);
          case Parsed(doc) =>
            var text := ex.text(doc);
            if text != "" {
              output' := output' + (text + SEPARATOR);
              table' := LogFile(table', path, Done, |text|, "");
            } else {
              table' := LogFile(table', path, Skipped, 0, ex.noContent);
            }
        }
      }
      assert Pass(table', output') == ProcessFile(before, path, load(path), ex, retry);
      i := i + 1;
    }
    assert paths[i..] == [];
  }

  // ---------------------------------------------------------------------------
  // Properties

  /**
   * Each processed file ends with exactly one row: `done` with the length of a
   * non-empty text, `skipped` with the no-content reason, or `skipped` with
   * the exception text; only `done` files append, and they append the text
   * and the separator.
   */
  lemma ProcessedFileRecord(s: Pass, path: Path, read: ReadResult, ex: Extractor, retry: bool)
    requires ShouldProcessFile(s.table, path, retry)
    ensures var s' := ProcessFile(s, path, read, ex, retry);
      && s'.table.Keys == s.table.Keys + {path}
      && (forall p :: p in s.table && p != path ==> s'.table[p] == s.table[p])
      && (read.Raised? ==> s'.table[path] == FileRecord(Skipped, 0, read.message) && s'.output == s.output)
      && (read.Parsed? && ex.text(read.doc) != "" ==>
            s'.table[path] == FileRecord(Done, |ex.text(read.doc)|, "")
            && s'.output == s.output + ex.text(read.doc) + SEPARATOR)
      && (read.Parsed? && ex.text(read.doc) == "" ==>
            s'.table[path] == FileRecord(Skipped, 0, ex.noContent) && s'.output == s.output)
  {
  }

  /** A file whose row says not to process it keeps that row and appends nothing. */
  lemma UnprocessedFileUntouched(s: Pass, path: Path, read: ReadResult, ex: Extractor, retry: bool)
    requires !ShouldProcessFile(s.table, path, retry)
    ensures ProcessFile(s, path, read, ex, retry) == s
  {
  }

  /** Afterwards every walked path has a row, and no row disappears. */
  lemma {:induction false} RunCoversPaths(s: Pass, paths: seq<Path>, load: Path -> ReadResult, ex: Extractor, retry: bool)
    ensures var e := Run(s, paths, load, ex, retry);
      && s.table.Keys <= e.table.Keys
      && (forall i :: 0 <= i < |paths| ==> paths[i] in e.table)
    decreases |paths|
  {
    if paths != [] {
      var s1 := ProcessFile(s, paths[0], load(paths[0]), ex, retry);
      RunCoversPaths(s1, paths[1..], load, ex, retry);
      var e := Run(s, paths, load, ex, retry);
      forall i | 0 <= i < |paths| ensures paths[i] in e.table {
        if i > 0 { assert paths[i] == paths[1..][i - 1]; }
      }
    }
  }

  /** A run without --retry over paths that all have rows changes nothing. */
  lemma {:induction false} RunOverKnownPathsIsNoOp(s: Pass, paths: seq<Path>, load: Path -> ReadResult, ex: Extractor)
    requires forall i :: 0 <= i < |paths| ==> paths[i] in s.table
    ensures Run(s, paths, load, ex, false) == s
    decreases |paths|
  {
    if paths != [] {
      assert paths[0] in s.table;
      forall i | 0 <= i < |paths[1..]| ensures paths[1..][i] in s.table {
        assert paths[1..][i] == paths[i + 1];
      }
      RunOverKnownPathsIsNoOp(s, paths[1..], load, ex);
    }
  }

  /**
   * A second run without --retry over the same walk changes no row and appends
   * no output, whatever the files now contain.
   */
  lemma RerunWithoutRetryIsNoOp(s: Pass, paths: seq<Path>, load: Path -> ReadResult, load2: Path -> ReadResult, ex: Extractor, retry: bool)
    ensures var e := Run(s, paths, load, ex, retry);
      Run(e, paths, load2, ex, false) == e
  {
    RunCoversPaths(s, paths, load, ex, retry);
    RunOverKnownPathsIsNoOp(Run(s, paths, load, ex, retry), paths, load2, ex);
  }

  /** A `done` row survives every run, with or without --retry. */
  lemma {:induction false} DoneRowsArePermanent(s: Pass, paths: seq<Path>, load: Path -> ReadResult, ex: Extractor, retry: bool, p: Path)
    requires p in s.table && s.table[p].status == Done
    ensures var e := Run(s, paths, load, ex, retry); p in e.table && e.table[p] == s.table[p]
    decreases |paths|
  {
    if paths != [] {
      var s1 := ProcessFile(s, paths[0], load(paths[0]), ex, retry);
      assert p in s1.table && s1.table[p] == s.table[p];
      DoneRowsArePermanent(s1, paths[1..], load, ex, retry, p);
    }
  }

  /**
   * The reference description of the output: the concatenation, in walk order,
   * of text + separator for each path that is processed against the initial
   * table and yields non-empty text.
   */
  function Appended(table: FileTable, paths: seq<Path>, load: Path -> ReadResult, ex: Extractor, retry: bool): string
    decreases |paths|
  {
    if paths == [] then ""
    else (if ShouldProcessFile(table, paths[0], retry) then Appendix(load(paths[0]), ex) else "")
         + Appended(table, paths[1..], load, ex, retry)
  }

  predicate Distinct(paths: seq<Path>)
  {
    forall i, j :: 0 <= i < j < |paths| ==> paths[i] != paths[j]
  }

  /** Rows of paths not walked are beyond the run's reach. */
  lemma {:induction false} RunKeepsOtherRows(s: Pass, paths: seq<Path>, load: Path -> ReadResult, ex: Extractor, retry: bool, p: Path)
    requires p !in paths
    ensures var e := Run(s, paths, load, ex, retry);
      (p in e.table <==> p in s.table) && (p in s.table ==> e.table[p] == s.table[p])
    decreases |paths|
  {
    if paths != [] {
      var s1 := ProcessFile(s, paths[0], load(paths[0]), ex, retry);
      assert p != paths[0];
      RunKeepsOtherRows(s1, paths[1..], load, ex, retry, p);
    }
  }

  /** Dropping the first path of a walk without repeats leaves a walk without repeats that misses it. */
  lemma DistinctTail(paths: seq<Path>)
    requires paths != [] && Distinct(paths)
    ensures Distinct(paths[1..]) && paths[0] !in paths[1..]
  {
    var rest := paths[1..];
    forall i, j | 0 <= i < j < |rest| ensures rest[i] != rest[j] { assert rest[i] == paths[i + 1] && rest[j] == paths[j + 1]; }
    forall i | 0 <= i < |rest| ensures rest[i] != paths[0] { assert rest[i] == paths[i + 1]; }
  }

  /** Processing the first file of a walk without repeats does not change what the rest appends. */
  lemma FirstFileKeepsRestAppended(s: Pass, paths: seq<Path>, load: Path -> ReadResult, ex: Extractor, retry: bool)
    requires paths != [] && Distinct(paths)
    ensures var s1 := ProcessFile(s, paths[0], load(paths[0]), ex, retry);
      Appended(s1.table, paths[1..], load, ex, retry) == Appended(s.table, paths[1..], load, ex, retry)
  {
    var p := paths[0];
    var s1 := ProcessFile(s, p, load(p), ex, retry);
    var rest := paths[1..];
    DistinctTail(paths);
    forall i | 0 <= i < |rest|
      ensures (rest[i] in s.table <==> rest[i] in s1.table) && (rest[i] in s.table ==> s.table[rest[i]] == s1.table[rest[i]])
    {
      assert rest[i] != p;
    }
    AppendedIgnoresOtherRows(s.table, s1.table, rest, load, ex, retry);
  }

  /** One file appends its text and separator when it is processed with non-empty text, else nothing. */
  lemma ProcessFileAppends(s: Pass, path: Path, read: ReadResult, ex: Extractor, retry: bool)
    ensures ProcessFile(s, path, read, ex, retry).output
         == s.output + (if ShouldProcessFile(s.table, path, retry) then Appendix(read, ex) else "")
  {
  }

  /** Over a walk without repeats the pass appends exactly `Appended`. */
  lemma {:induction false} RunAppendsReference(s: Pass, paths: seq<Path>, load: Path -> ReadResult, ex: Extractor, retry: bool)
    requires Distinct(paths)
    ensures Run(s, paths, load, ex, retry).output == s.output + Appended(s.table, paths, load, ex, retry)
    decreases |paths|
  {
    if paths != [] {
      var p := paths[0];
      var s1 := ProcessFile(s, p, load(p), ex, retry);
      var rest := paths[1..];
      var a := if ShouldProcessFile(s.table, p, retry) then Appendix(load(p), ex) else "";
      var tail := Appended(s.table, rest, load, ex, retry);
      calc {
        Run(s, paths, load, ex, retry).output;
        Run(s1, rest, load, ex, retry).output;
        { assert Distinct(rest) by { DistinctTail(paths); }
          RunAppendsReference(s1, rest, load, ex, retry); }
        s1.output + Appended(s1.table, rest, load, ex, retry);
        { FirstFileKeepsRestAppended(s, paths, load, ex, retry); }
        s1.output + tail;
        { ProcessFileAppends(s, p, load(p), ex, retry); }
        (s.output + a) + tail;
        s.output + (a + tail);
        s.output + Appended(s.table, paths, load, ex, retry);
      }
    }
  }

  /**
   * Over a walk without repeats each walked path ends with the row its own
   * decision gives it: the new row when it was to be processed, its old row
   * otherwise.
   */
  lemma {:induction false} RunRowsMatchDecisions(s: Pass, paths: seq<Path>, load: Path -> ReadResult, ex: Extractor, retry: bool)
    requires Distinct(paths)
    ensures var e := Run(s, paths, load, ex, retry);
      forall i :: 0 <= i < |paths| ==>
        paths[i] in e.table && e.table[paths[i]] == (if ShouldProcessFile(s.table, paths[i], retry) then Record(load(paths[i]), ex)
                              else s.table[paths[i]])
    decreases |paths|
  {
    if paths != [] {
      var p := paths[0];
      var s1 := ProcessFile(s, p, load(p), ex, retry);
      var rest := paths[1..];
      DistinctTail(paths);
      RunRowsMatchDecisions(s1, rest, load, ex, retry);
      RunKeepsOtherRows(s1, rest, load, ex, retry, p);
      RunCoversPaths(s1, rest, load, ex, retry);
      var e := Run(s, paths, load, ex, retry);
      forall i | 0 <= i < |paths|
        ensures paths[i] in e.table && e.table[paths[i]] == (if ShouldProcessFile(s.table, paths[i], retry) then Record(load(paths[i]), ex)
                                      else s.table[paths[i]])
      {
        if i > 0 {
          var q := paths[i];
          assert q == rest[i - 1];
          assert q != p;
          assert (q in s1.table <==> q in s.table) && (q in s.table ==> s1.table[q] == s.table[q]);
        }
      }
    }
  }

  /**
   * Over a walk without repeated paths (as os.walk yields them), the pass
   * appends exactly `Appended` and leaves each walked path with the row its
   * own decision gives it.
   */
  lemma RunMatchesPerFileDecisions(s: Pass, paths: seq<Path>, load: Path -> ReadResult, ex: Extractor, retry: bool)
    requires Distinct(paths)
    ensures var e := Run(s, paths, load, ex, retry);
      && e.output == s.output + Appended(s.table, paths, load, ex, retry)
      && (forall i :: 0 <= i < |paths| ==>
            paths[i] in e.table && e.table[paths[i]] == (if ShouldProcessFile(s.table, paths[i], retry) then Record(load(paths[i]), ex)
                                  else s.table[paths[i]]))
  {
    RunAppendsReference(s, paths, load, ex, retry);
    RunRowsMatchDecisions(s, paths, load, ex, retry);
  }

  /** `Appended` only looks at the rows of the paths it walks. */
  lemma {:induction false} AppendedIgnoresOtherRows(t1: FileTable, t2: FileTable, paths: seq<Path>, load: Path -> ReadResult, ex: Extractor, retry: bool)
    requires forall i :: 0 <= i < |paths| ==> (paths[i] in t1 <==> paths[i] in t2)
    requires forall i :: 0 <= i < |paths| && paths[i] in t1 ==> t1[paths[i]] == t2[paths[i]]
    ensures Appended(t1, paths, load, ex, retry) == Appended(t2, paths, load, ex, retry)
    decreases |paths|
  {
    if paths != [] {
      assert paths[0] in t1 <==> paths[0] in t2;
      forall i | 0 <= i < |paths[1..]| ensures paths[1..][i] == paths[i + 1] { }
      AppendedIgnoresOtherRows(t1, t2, paths[1..], load, ex, retry);
    }
  }
}
