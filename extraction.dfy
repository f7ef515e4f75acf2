/**
 * rag_app_apis/utils.py, extract_text: pick a reader by the lower-cased file
 * extension and return the stripped text, or None for an unsupported
 * extension or when anything raises.
 */
module Extraction {
  import opened Common
  import opened PyStr
  import Models

  /**
   * What the libraries hand back for one file. Parsing itself (PyPDF2,
   * python-docx, the encoding detection of try_utf8_read) is outside the model:
   *  - pdf: opening the reader, then one entry per page, each page's
   *    `extract_text()` or the exception it raised;
   *  - docx: the paragraph texts in document order;
   *  - text: the decoded content of the file (UTF-8, or the detected
   *    encoding with replacement characters), before `strip()`.
   */
  datatype FileSource = FileSource(
    pdf: Result<seq<Result<string>>>,
    docx: Result<seq<string>>,
    text: Result<string>)

  /** The reader `extract_text` dispatches to. */
  datatype Reader = PdfReader | DocxReader | TextReader | NoReader

  function ReaderFor(path: string): (r: Reader)
    ensures r == NoReader <==> Lower(Ext(path)) !in [".pdf", ".docx", ".txt"]
  {
    var ext := Lower(Ext(path));
    if ext == ".pdf" then PdfReader
    else if ext == ".docx" then DocxReader
    else if ext == ".txt" then TextReader
    else NoReader
  }

  // ---------------------------------------------------------------------------
  // PDF: `text += page.extract_text() + "\n"` for every page, then strip()
  // ---------------------------------------------------------------------------

  /** The accumulated PDF text before `strip()`, or the first page's exception. */
  function PagesText(pages: seq<Result<string>>): Result<string>
  {
    if pages == [] then Ok("")
    else match PagesText(pages[..|pages| - 1])
      case Raised(e) => Raised(e)
      case Ok(t) =>
        match pages[|pages| - 1]
        case Raised(e) => Raised(e)
        case Ok(p) => Ok(t + p + "\n")
  }

  predicate AllRead(pages: seq<Result<string>>) {
    forall i :: 0 <= i < |pages| ==> pages[i].Ok?
  }

  function PageTexts(pages: seq<Result<string>>): (r: seq<string>)
    requires AllRead(pages)
    ensures |r| == |pages| && forall i :: 0 <= i < |pages| ==> r[i] == pages[i].value
  {
    seq(|pages|, i requires 0 <= i < |pages| => pages[i].value)
  }

  /** Once a page raises, the whole PDF raises, whatever pages follow. */
  lemma {:induction false} PagesTextRaisedPrefix(pages: seq<Result<string>>, k: nat)
    requires k <= |pages| && PagesText(pages[..k]).Raised?
    ensures PagesText(pages).Raised?
    decreases |pages| - k
  {
    if k < |pages| {
      assert pages[..k + 1][..k] == pages[..k];
      PagesTextRaisedPrefix(pages, k + 1);
    } else {
      assert pages[..k] == pages;
    }
  }

  /**
   * The PDF text is the pages joined by "\n", with one more "\n" at the end;
   * it raises exactly when some page raises.
   */
  lemma {:induction false} PagesTextIsJoin(pages: seq<Result<string>>)
    ensures PagesText(pages).Ok? <==> AllRead(pages)
    ensures AllRead(pages) && pages != [] ==>
      PagesText(pages) == Ok(Join("\n", PageTexts(pages)) + "\n")
    decreases |pages|
  {
    if pages != [] {
      var init := pages[..|pages| - 1];
      PagesTextIsJoin(init);
      if AllRead(pages) {
        assert AllRead(init);
        assert PageTexts(pages) == PageTexts(init) + [pages[|pages| - 1].value];
        if init != [] {
          JoinSnoc("\n", PageTexts(init), pages[|pages| - 1].value);
        } else {
          assert PageTexts(pages) == [pages[0].value];
          assert PagesText(init) == Ok("");
          assert "" + pages[0].value + "\n" == pages[0].value + "\n";
        }
      } else if AllRead(init) {
        assert pages[|pages| - 1].Raised?;
      }
    }
  }

  /** The PDF branch: read the pages in order, accumulate, then strip. */
  method ExtractPdf(pages: seq<Result<string>>) returns (r: Option<string>)
    ensures r == match PagesText(pages) case Ok(t) => Some(Strip(t)) case Raised(_) => None
  {
    var text := "";
    var i := 0;
    while i < |pages|
      invariant 0 <= i <= |pages|
      invariant PagesText(pages[..i]) == Ok(text)
    {
      assert pages[..i + 1][..i] == pages[..i];
      match pages[i]
      case Raised(_) =>
        PagesTextRaisedPrefix(pages, i + 1);
        return None;
      case Ok(page) =>
        text := text + page + "\n";
      i := i + 1;
    }
    assert pages[..i] == pages;
    return Some(Strip(text));
  }

  /** A readable PDF gives its pages joined by "\n", stripped: the trailing "\n" goes away. */
  lemma PdfTextIsStrippedJoin(pages: seq<Result<string>>)
    requires AllRead(pages) && pages != []
    ensures PagesText(pages) == Ok(Join("\n", PageTexts(pages)) + "\n")
    ensures Strip(PagesText(pages).value) == Strip(Join("\n", PageTexts(pages)))
  {
    PagesTextIsJoin(pages);
    StripIgnoresTrailingSpace(Join("\n", PageTexts(pages)), '\n');
  }

  // ---------------------------------------------------------------------------
  // Dispatch
  // ---------------------------------------------------------------------------

  /** What `extract_text(path)` returns; every exception becomes None. */
  function ExtractedText(path: string, file: FileSource): (r: Option<string>)
    ensures r.Some? ==> IsStripped(r.value)
    ensures r.Some? ==> ReaderFor(path) != NoReader
    ensures ReaderFor(path) == PdfReader && file.pdf.Raised? ==> r == None
    ensures ReaderFor(path) == DocxReader && file.docx.Raised? ==> r == None
    ensures ReaderFor(path) == TextReader && file.text.Raised? ==> r == None
  {
    match ReaderFor(path)
    case PdfReader =>
      (match file.pdf
       case Raised(_) => None
       case Ok(pages) =>
         match PagesText(pages)
         case Ok(t) => Some(Strip(t))
         case Raised(_) => None)
    case DocxReader =>
      (match file.docx
       case Raised(_) => None
       case Ok(paragraphs) => Some(Strip(Join("\n", paragraphs))))
    case TextReader =>
      (match file.text
       case Raised(_) => None
       case Ok(content) => Some(Strip(content)))
    case NoReader => None
  }

  /**
   * The three readable formats, stated per reader: a PDF gives its pages
   * joined by "\n" and stripped, a DOCX its paragraphs joined by "\n" and
   * stripped, a text file its stripped content.
   */
  lemma ExtractedTextByFormat(path: string, file: FileSource)
    ensures ReaderFor(path) == PdfReader && file.pdf.Ok? ==>
      (ExtractedText(path, file).Some? <==> AllRead(file.pdf.value))
      && (AllRead(file.pdf.value) ==>
          ExtractedText(path, file) == Some(Strip(Join("\n", PageTexts(file.pdf.value)))))
    ensures ReaderFor(path) == DocxReader && file.docx.Ok? ==>
      ExtractedText(path, file) == Some(Strip(Join("\n", file.docx.value)))
    ensures ReaderFor(path) == TextReader && file.text.Ok? ==>
      ExtractedText(path, file) == Some(Strip(file.text.value))
  {
    if ReaderFor(path) == PdfReader && file.pdf.Ok? {
      PagesTextIsJoin(file.pdf.value);
      if file.pdf.value == [] {
        assert PageTexts([]) == [];
      } else if AllRead(file.pdf.value) {
        PdfTextIsStrippedJoin(file.pdf.value);
      }
    }
  }

  /**
   * ".md" passes the upload validator but has no reader here: extraction gives
   * None whatever the file holds.
   */
  lemma MarkdownAcceptedButNotExtracted(stem: string, x: string, file: FileSource)
    requires HasNamedBase(stem)
    requires '.' !in x && '/' !in x && Lower("." + x) == ".md"
    ensures Models.ValidateFileExtension(stem + "." + x).Accepted?
    ensures ExtractedText(stem + "." + x, file) == None
  {
    Models.AcceptsByLastExtension(stem, x);
    ExtOfAppended(stem, x);
  }
}
