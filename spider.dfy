/**
 * spider.py: the earlier copy of the extraction pass, which takes only the
 * `.mmplayer` text.  Its log_file and should_process_file are the same as
 * html2md.py's, against the same htmls2txt.db table.
 */
module Spider {
  import opened ExtractPass
  import Html2Md

  const NO_CONTENT := "No content in .mmplayer"

  /** extract_text: the `.mmplayer` text, with no fallback. */
  function ExtractText(doc: Document): (text: string)
    ensures text == "" <==> doc.mmplayer == ""
    ensures doc.mmplayer != "" ==> text == Html2Md.ExtractText(doc)
  {
    doc.mmplayer
  }

  const SPIDER := ExtractPass.Extractor(ExtractText, NO_CONTENT)

  /** The discussion block never matters: text is empty exactly when `.mmplayer` is. */
  lemma NoFallback(doc: Document, discussion: string)
    ensures ExtractText(doc.(contheadDiscuss := discussion)) == ExtractText(doc)
    ensures ExtractText(doc) == "" <==> doc.mmplayer == ""
  {
  }

  /** A page with only a discussion block is kept by html2md.py and skipped by spider.py. */
  lemma SkipsWhatHtml2MdKeeps(s: Pass, path: Path, doc: Document, retry: bool)
    requires ShouldProcessFile(s.table, path, retry)
    requires doc.mmplayer == "" && doc.contheadDiscuss != ""
    ensures ProcessFile(s, path, Parsed(doc), SPIDER, retry).table[path] == FileRecord(Skipped, 0, NO_CONTENT)
    ensures ProcessFile(s, path, Parsed(doc), Html2Md.HTML2MD, retry).table[path] == FileRecord(Done, |doc.contheadDiscuss|, "")
  {
  }

  /**
   * The row and output of one processed file: `done` with the length of the
   * `.mmplayer` text, "No content in .mmplayer" when it is empty, or the
   * exception text; every other row is untouched.
   */
  lemma FileRecordOfDocument(s: Pass, path: Path, read: ReadResult, retry: bool)
    requires ShouldProcessFile(s.table, path, retry)
    ensures var s' := ProcessFile(s, path, read, SPIDER, retry);
      && s'.table.Keys == s.table.Keys + {path}
      && (forall p :: p in s.table && p != path ==> s'.table[p] == s.table[p])
      && (read.Raised? ==> s'.table[path] == FileRecord(Skipped, 0, read.message) && s'.output == s.output)
      && (read.Parsed? && read.doc.mmplayer != "" ==>
            s'.table[path] == FileRecord(Done, |read.doc.mmplayer|, "")
            && s'.output == s.output + read.doc.mmplayer + SEPARATOR)
      && (read.Parsed? && read.doc.mmplayer == "" ==>
            s'.table[path] == FileRecord(Skipped, 0, "No content in .mmplayer") && s'.output == s.output)
  {
    ProcessedFileRecord(s, path, read, SPIDER, retry);
  }

  /** A file should_process_file turns down keeps its row and appends nothing. */
  lemma DeclinedFileUntouched(s: Pass, path: Path, read: ReadResult, retry: bool)
    requires path in s.table && (!retry || s.table[path].status == Done)
    ensures ProcessFile(s, path, read, SPIDER, retry) == s
  {
  }

  /**
   * Over a walk without repeated paths the markdown grows by text + separator
   * exactly for the files that are processed and have `.mmplayer` text, in
   * walk order.
   */
  lemma OutputOnlyForDone(s: Pass, paths: seq<Path>, load: Path -> ReadResult, retry: bool)
    requires Distinct(paths)
    ensures var e := Run(s, paths, load, SPIDER, retry);
      && e.output == s.output + Appended(s.table, paths, load, SPIDER, retry)
      && (forall i :: 0 <= i < |paths| && ShouldProcessFile(s.table, paths[i], retry) ==>
            paths[i] in e.table && e.table[paths[i]] == Record(load(paths[i]), SPIDER))
  {
    RunMatchesPerFileDecisions(s, paths, load, SPIDER, retry);
  }

  /** Running spider.py again without --retry changes no row and appends nothing. */
  lemma RerunWithoutRetryIsNoOp(s: Pass, paths: seq<Path>, load: Path -> ReadResult, load2: Path -> ReadResult, retry: bool)
    ensures var e := Run(s, paths, load, SPIDER, retry);
      Run(e, paths, load2, SPIDER, false) == e
  {
    ExtractPass.RerunWithoutRetryIsNoOp(s, paths, load, load2, SPIDER, retry);
  }
}
