/** Normalisation of a case document to PDF (`DriveService.download_as_pdf`):
    the metadata lookup, the MIME-type dispatch to five strategies, the docx
    paragraph join and the Latin-1 sanitisation applied before rendering.
    Drive answers, docx parsing, UTF-8 decoding and PDF rendering are
    pre-decided outcomes. */
module Normalizer {
  import opened Wrappers
  import opened Text

  const MIME_GOOGLE_DOC: string := "application/vnd.google-apps.document"
  const MIME_PDF: string := "application/pdf"
  const MIME_DOCX: string := "application/vnd.openxmlformats-officedocument.wordprocessingml.document"
  const MIME_TEXT: string := "text/plain"

  type Bytes = seq<bv8>

  // ---------------------------------------------------------------------------
  // Dispatch
  // ---------------------------------------------------------------------------

  datatype Strategy =
    | ExportAsPdf       // native Google Doc: server-side export
    | DownloadPdf       // already a PDF: raw download
    | DocxToPdf         // Word: download, extract paragraphs, render
    | TextToPdf         // plain text: download, decode, render
    | DownloadAsIs      // anything else, or no type: raw download

  /** The strategy for a file's MIME type (`None` when the metadata has no
      type). */
  function StrategyFor(mime: Option<string>): (s: Strategy)
    ensures s == ExportAsPdf <==> mime == Some(MIME_GOOGLE_DOC)
    ensures s == DownloadPdf <==> mime == Some(MIME_PDF)
    ensures s == DocxToPdf <==> mime == Some(MIME_DOCX)
    ensures s == TextToPdf <==> mime == Some(MIME_TEXT)
    ensures s == DownloadAsIs <==> mime !in {Some(MIME_GOOGLE_DOC), Some(MIME_PDF), Some(MIME_DOCX), Some(MIME_TEXT)}
  {
    if mime == Some(MIME_GOOGLE_DOC) then ExportAsPdf
    else if mime == Some(MIME_PDF) then DownloadPdf
    else if mime == Some(MIME_DOCX) then DocxToPdf
    else if mime == Some(MIME_TEXT) then TextToPdf
    else DownloadAsIs
  }

  // ---------------------------------------------------------------------------
  // Paragraph join
  // ---------------------------------------------------------------------------

  function CountChar(s: string, c: char): nat {
    if s == [] then 0 else (if s[0] == c then 1 else 0) + CountChar(s[1..], c)
  }

  function TotalCount(parts: seq<string>, c: char): nat {
    if parts == [] then 0 else CountChar(parts[0], c) + TotalCount(parts[1..], c)
  }

  lemma {:induction false} CountCharConcat(a: string, b: string, c: char)
    ensures CountChar(a + b, c) == CountChar(a, c) + CountChar(b, c)
    decreases |a|
  {
    if a == [] {
      assert a + b == b;
    } else {
      assert (a + b)[0] == a[0];
      assert (a + b)[1..] == a[1..] + b;
      CountCharConcat(a[1..], b, c);
    }
  }

  /** `_extract_text_from_docx` after parsing: the paragraph texts in
      document order, joined by newlines. */
  function JoinParagraphs(paragraphs: seq<string>): (text: string)
    ensures paragraphs == [] ==> text == []
    ensures |paragraphs| >= 1 ==> |text| == TotalLength(paragraphs) + |paragraphs| - 1
  {
    Join(paragraphs, '\n')
  }

  /** `n` paragraphs contribute `n - 1` newlines of their own. */
  lemma {:induction false} JoinParagraphsNewlines(paragraphs: seq<string>)
    requires |paragraphs| >= 1
    ensures CountChar(JoinParagraphs(paragraphs), '\n') == TotalCount(paragraphs, '\n') + |paragraphs| - 1
  {
    if |paragraphs| >= 2 {
      var rest := paragraphs[1..];
      JoinParagraphsNewlines(rest);
      CountCharConcat(paragraphs[0] + ['\n'], Join(rest, '\n'), '\n');
      CountCharConcat(paragraphs[0], ['\n'], '\n');
      assert CountChar(['\n'], '\n') == 1;
    }
  }

  /** Paragraphs without line breaks are recovered by splitting the text at
      its newlines. */
  lemma JoinParagraphsRecoverable(paragraphs: seq<string>)
    requires |paragraphs| >= 1 && NoneContains(paragraphs, '\n')
    ensures Split(JoinParagraphs(paragraphs), '\n') == paragraphs
  {
    SplitJoin(paragraphs, '\n');
  }

  // ---------------------------------------------------------------------------
  // Latin-1 sanitisation
  // ---------------------------------------------------------------------------

  predicate IsLatin1(c: char) {
    c as int <= 255
  }

  predicate AllLatin1(s: string) {
    forall k :: 0 <= k < |s| ==> IsLatin1(s[k])
  }

  /** `encode('latin-1', 'replace')` read back as Latin-1: characters above
      U+00FF become `?`, the others are kept. */
  function SanitizeChar(c: char): char {
    if IsLatin1(c) then c else '?'
  }

  function Sanitize(s: string): (r: string)
    ensures |r| == |s|
    ensures forall k :: 0 <= k < |s| ==> r[k] == SanitizeChar(s[k])
  {
    seq(|s|, k requires 0 <= k < |s| => SanitizeChar(s[k]))
  }

  /** The sanitised text is all Latin-1; characters are kept exactly when
      they are Latin-1. */
  lemma SanitizeLatin1(s: string)
    ensures AllLatin1(Sanitize(s))
    ensures forall k :: 0 <= k < |s| ==> (Sanitize(s)[k] == s[k] <==> IsLatin1(s[k]))
  {
  }

  /** Sanitising twice is sanitising once. */
  lemma SanitizeIdempotent(s: string)
    ensures Sanitize(Sanitize(s)) == Sanitize(s)
  {
    SanitizeLatin1(s);
  }

  /** A text is left unchanged exactly when it is already all Latin-1. */
  lemma SanitizeFixedPoint(s: string)
    ensures Sanitize(s) == s <==> AllLatin1(s)
  {
    if Sanitize(s) == s {
      SanitizeLatin1(s);
    }
  }

  // ---------------------------------------------------------------------------
  // download_as_pdf
  // ---------------------------------------------------------------------------

  /** The fields of the metadata record (`meta.get` returns `None` for an
      absent field). */
  datatype Metadata = Metadata(mimeType: Option<string>, name: Option<string>)

  /** Drive's answers, keyed by the file id passed (`None` is a Python
      `None` id). `None` as an answer is an error raised by the call. */
  datatype Drive = Drive(
    metadata: Option<string> -> Option<Metadata>,
    exportPdf: Option<string> -> Option<Bytes>,
    media: Option<string> -> Option<Bytes>)

  /** The foreign converters: docx paragraph extraction (`None` when the bytes
      do not parse), UTF-8 decoding with replacement (total), and rendering a
      Latin-1 text as a PDF (`None` when rendering fails). */
  datatype Converters = Converters(
    docxParagraphs: Bytes -> Option<seq<string>>,
    decodeUtf8: Bytes -> string,
    render: string -> Option<Bytes>)

  datatype DriveRequest =
    | GetMetadata(fileId: Option<string>)
    | ExportMedia(fileId: Option<string>, mimeType: string)
    | GetMedia(fileId: Option<string>)

  datatype NormalizeError =
    | MetadataFailed
    | DownloadFailed
    | DocxUnreadable
    | RenderFailed

  /** The Drive requests made, the bytes written to the output path (none on
      failure), and the output path or the error raised. */
  datatype Download = Download(requests: seq<DriveRequest>, written: Option<Bytes>,
                               outcome: Result<string, NormalizeError>)

  /** The PDF for a text: sanitised, then rendered. */
  function RenderText(conv: Converters, text: string): Result<Bytes, NormalizeError> {
    match conv.render(Sanitize(text))
    case Some(pdf) => Success(pdf)
    case None => Failure(RenderFailed)
  }

  /** The content step of each strategy: the request it makes and the bytes
      it produces. */
  function Convert(drive: Drive, conv: Converters, fileId: Option<string>, s: Strategy): (r: (DriveRequest, Result<Bytes, NormalizeError>))
    ensures s == ExportAsPdf ==> r.0 == ExportMedia(fileId, MIME_PDF)
    ensures s != ExportAsPdf ==> r.0 == GetMedia(fileId)
  {
    match s
    case ExportAsPdf =>
      (ExportMedia(fileId, MIME_PDF), if drive.exportPdf(fileId).Some? then Success(drive.exportPdf(fileId).value) else Failure(DownloadFailed))
    case DownloadPdf =>
      (GetMedia(fileId), if drive.media(fileId).Some? then Success(drive.media(fileId).value) else Failure(DownloadFailed))
    case DownloadAsIs =>
      (GetMedia(fileId), if drive.media(fileId).Some? then Success(drive.media(fileId).value) else Failure(DownloadFailed))
    case DocxToPdf =>
      (GetMedia(fileId),
       match drive.media(fileId)
       case None => Failure(DownloadFailed)
       case Some(docx) =>
         match conv.docxParagraphs(docx)
         case None => Failure(DocxUnreadable)
         case Some(paragraphs) => RenderText(conv, JoinParagraphs(paragraphs)))
    case TextToPdf =>
      (GetMedia(fileId),
       match drive.media(fileId)
       case None => Failure(DownloadFailed)
       case Some(raw) => RenderText(conv, conv.decodeUtf8(raw)))
  }

  /** `download_as_pdf(file_id, output_path)`. */
  function DownloadAsPdf(drive: Drive, conv: Converters, fileId: Option<string>, outputPath: string): (r: Download)
    // Metadata first; a failed lookup makes no content request.
    ensures |r.requests| >= 1 && r.requests[0] == GetMetadata(fileId)
    ensures drive.metadata(fileId).None? ==> r == Download([GetMetadata(fileId)], None, Failure(MetadataFailed))
    // Otherwise exactly one content request, chosen by the MIME type.
    ensures drive.metadata(fileId).Some? ==>
              var s := StrategyFor(drive.metadata(fileId).value.mimeType);
              && |r.requests| == 2
              && r.requests[1] == (if s == ExportAsPdf then ExportMedia(fileId, MIME_PDF) else GetMedia(fileId))
    // The output path is returned exactly when a file was written.
    ensures r.outcome.Success? <==> r.written.Some?
    ensures r.outcome.Success? ==> r.outcome.value == outputPath
  {
    match drive.metadata(fileId)
    case None => Download([GetMetadata(fileId)], None, Failure(MetadataFailed))
    case Some(meta) =>
      var (request, content) := Convert(drive, conv, fileId, StrategyFor(meta.mimeType));
      match content
      case Success(pdf) => Download([GetMetadata(fileId), request], Some(pdf), Success(outputPath))
      case Failure(e) => Download([GetMetadata(fileId), request], None, Failure(e))
  }

  /** What is written for each type: the exported PDF for a Google Doc, the
      raw bytes for a PDF or an unknown type, the rendered sanitised text for
      docx (paragraphs joined by newlines) and plain text (decoded with
      replacement). */
  lemma DownloadContents(drive: Drive, conv: Converters, fileId: Option<string>, outputPath: string)
    requires drive.metadata(fileId).Some?
    ensures var r := DownloadAsPdf(drive, conv, fileId, outputPath);
      var s := StrategyFor(drive.metadata(fileId).value.mimeType);
      && (s == ExportAsPdf ==> r.written == drive.exportPdf(fileId))
      && (s == DownloadPdf || s == DownloadAsIs ==> r.written == drive.media(fileId))
      && (s == DocxToPdf ==>
            r.written == (if drive.media(fileId).Some? && conv.docxParagraphs(drive.media(fileId).value).Some?
                          then conv.render(Sanitize(JoinParagraphs(conv.docxParagraphs(drive.media(fileId).value).value)))
                          else None))
      && (s == TextToPdf ==>
            r.written == (if drive.media(fileId).Some? then conv.render(Sanitize(conv.decodeUtf8(drive.media(fileId).value))) else None))
  {
  }

  /** An unrecognised type does not fail because of its type: it succeeds
      whenever the raw download does. */
  lemma UnknownTypeFallsBack(drive: Drive, conv: Converters, fileId: Option<string>, outputPath: string)
    requires drive.metadata(fileId).Some? && StrategyFor(drive.metadata(fileId).value.mimeType) == DownloadAsIs
    requires drive.media(fileId).Some?
    ensures DownloadAsPdf(drive, conv, fileId, outputPath).outcome == Success(outputPath)
  {
  }
}
