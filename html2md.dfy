/**
 * html2md.py: the extraction pass that takes `.mmplayer` text and falls back
 * to `.conthead.discuss` when that is empty.
 */
module Html2Md {
  import opened ExtractPass

  const NO_CONTENT := "No content in .mmplayer or .conthead.discuss"

  /** extract_text: the `.mmplayer` text, or the `.conthead.discuss` text when it is empty. */
  function ExtractText(doc: Document): (text: string)
    ensures doc.mmplayer != "" ==> text == doc.mmplayer
    ensures doc.mmplayer == "" ==> text == doc.contheadDiscuss
    ensures text == "" <==> doc.mmplayer == "" && doc.contheadDiscuss == ""
  {
    var text := doc.mmplayer;
    if text == "" then doc.contheadDiscuss else text
  }

  const HTML2MD := ExtractPass.Extractor(ExtractText, NO_CONTENT)

  /**
   * The row and output of one processed file: `done` with the length of the
   * selected text, the no-content reason only when both selectors are empty,
   * or the exception text.
   */
  lemma FileRecordOfDocument(s: Pass, path: Path, read: ReadResult, retry: bool)
    requires ShouldProcessFile(s.table, path, retry)
    ensures var s' := ProcessFile(s, path, read, HTML2MD, retry);
      && (read.Raised? ==> s'.table[path] == FileRecord(Skipped, 0, read.message) && s'.output == s.output)
      && (read.Parsed? && read.doc.mmplayer != "" ==>
            s'.table[path] == FileRecord(Done, |read.doc.mmplayer|, "")
            && s'.output == s.output + read.doc.mmplayer + SEPARATOR)
      && (read.Parsed? && read.doc.mmplayer == "" && read.doc.contheadDiscuss != "" ==>
            s'.table[path] == FileRecord(Done, |read.doc.contheadDiscuss|, "")
            && s'.output == s.output + read.doc.contheadDiscuss + SEPARATOR)
      && (read.Parsed? && read.doc.mmplayer == "" && read.doc.contheadDiscuss == "" ==>
            s'.table[path] == FileRecord(Skipped, 0, "No content in .mmplayer or .conthead.discuss")
            && s'.output == s.output)
  {
    ProcessedFileRecord(s, path, read, HTML2MD, retry);
  }
}
