/**
 * Staging an upload on disk and turning the staged file into plain text.
 * The PDF and DOCX libraries are replaced by what they yield (the per-page
 * text, the paragraph texts) or by None where they raise; the disk is the set
 * of paths present on it.
 */
module FileHelpers {
  import opened Wrappers
  import opened PyStr

  const UploadDir := "uploads"

  /** The client's file stream, closed by `SaveUploadFile` whatever happens. */
  class UploadFile {
    const filename: string
    var closed: bool

    constructor (filename: string)
      ensures this.filename == filename && !closed
    {
      this.filename := filename;
      closed := false;
    }
  }

  /** The local filesystem, as the set of paths present on it. */
  class Disk {
    var files: set<string>

    constructor (files: set<string>)
      ensures this.files == files
    {
      this.files := files;
    }

    /** `os.remove(path)`: raises (false) when the path is absent or the OS refuses (`allowed` false). */
    method Remove(path: string, allowed: bool) returns (removed: bool)
      modifies this
      ensures removed <==> path in old(files) && allowed
      ensures files == if removed then old(files) - {path} else old(files)
      ensures files == if allowed then old(files) - {path} else old(files)
    {
      removed := path in files && allowed;
      if removed {
        files := files - {path};
      }
    }
  }

  /** How writing the staged copy goes: it succeeds, `open` fails, or the copy fails after `open` created the file. */
  datatype WriteOutcome = Written | OpenFailed | CopyFailed

  datatype IoError = IoError

  /**
   * `save_upload_file`: writes to `join(destination, filename)` and returns that
   * path, re-raises a write error, and always closes the upload stream.
   */
  method SaveUploadFile(upload: UploadFile, destination: string, disk: Disk, outcome: WriteOutcome)
    returns (r: Result<string, IoError>)
    modifies upload, disk
    ensures upload.closed
    ensures r == if outcome == Written then Ok(Join(destination, upload.filename)) else Err(IoError)
    ensures disk.files == if outcome == OpenFailed then old(disk.files) else old(disk.files) + {Join(destination, upload.filename)}
  {
    var path := Join(destination, upload.filename);
    if outcome == OpenFailed {
      r := Err(IoError);
    } else {
      disk.files := disk.files + {path};
      r := if outcome == Written then Ok(path) else Err(IoError);
    }
    upload.closed := true;
  }

  // ---------------------------------------------------------------- PDF

  function PageText(page: Option<string>): string
  {
    if page.Some? then page.value else ""
  }

  /** The pages' texts concatenated in page order; a page without text adds nothing. */
  function PdfText(pages: seq<Option<string>>): string
  {
    if pages == [] then "" else PdfText(pages[..|pages| - 1]) + PageText(pages[|pages| - 1])
  }

  /** `extract_text_from_pdf`: `pages` is None when PyPDF2 raised anywhere, and then the result is "". */
  method ExtractTextFromPdf(pages: Option<seq<Option<string>>>) returns (text: string)
    ensures text == if pages.Some? then PdfText(pages.value) else ""
  {
    text := "";
    if pages.None? {
      return;
    }
    var ps := pages.value;
    for i := 0 to |ps|
      invariant text == PdfText(ps[..i])
    {
      assert ps[..i + 1][..i] == ps[..i];
      text := text + PageText(ps[i]);
    }
    assert ps[..|ps|] == ps;
  }

  /** Text of consecutive page runs concatenates: page order is kept. */
  lemma {:induction false} PdfTextAppend(a: seq<Option<string>>, b: seq<Option<string>>)
    ensures PdfText(a + b) == PdfText(a) + PdfText(b)
    decreases |b|
  {
    if b == [] {
      assert a + b == a;
    } else {
      var n := |b| - 1;
      assert PdfText(a + b) == PdfText(a + b[..n]) + PageText(b[n]) by {
        var ab := a + b;
        assert ab[..|ab| - 1] == a + b[..n];
        assert ab[|ab| - 1] == b[n];
      }
      PdfTextAppend(a, b[..n]);
      var x, y, z := PdfText(a), PdfText(b[..n]), PageText(b[n]);
      assert PdfText(b) == y + z;
      assert (x + y) + z == x + (y + z);
    }
  }

  /** The text is the first page's text followed by the rest. */
  lemma PdfTextFirstPage(pages: seq<Option<string>>)
    requires pages != []
    ensures PdfText(pages) == PageText(pages[0]) + PdfText(pages[1..])
  {
    PdfTextAppend([pages[0]], pages[1..]);
    assert [pages[0]] + pages[1..] == pages;
    assert PdfText([pages[0]]) == PdfText([]) + PageText(pages[0]);
  }

  /** A PDF whose every page yields None extracts to "". */
  lemma {:induction false} PdfTextNoPages(pages: seq<Option<string>>)
    requires forall i :: 0 <= i < |pages| ==> pages[i].None?
    ensures PdfText(pages) == ""
  {
    if pages != [] {
      PdfTextNoPages(pages[..|pages| - 1]);
    }
  }

  // ---------------------------------------------------------------- DOCX

  /** Each paragraph's text followed by a newline, in document order. */
  function DocxText(paragraphs: seq<string>): string
  {
    if paragraphs == [] then "" else DocxText(paragraphs[..|paragraphs| - 1]) + paragraphs[|paragraphs| - 1] + "\n"
  }

  /** `extract_text_from_docx`: `paragraphs` is None when python-docx raised, and then the result is "". */
  method ExtractTextFromDocx(paragraphs: Option<seq<string>>) returns (text: string)
    ensures text == if paragraphs.Some? then DocxText(paragraphs.value) else ""
  {
    text := "";
    if paragraphs.None? {
      return;
    }
    var ps := paragraphs.value;
    for i := 0 to |ps|
      invariant text == DocxText(ps[..i])
    {
      assert ps[..i + 1][..i] == ps[..i];
      text := text + ps[i] + "\n";
    }
    assert ps[..|ps|] == ps;
  }

  function Count(s: string, c: char): nat
  {
    if s == [] then 0 else Count(s[..|s| - 1], c) + (if s[|s| - 1] == c then 1 else 0)
  }

  lemma {:induction false} CountAppend(a: string, b: string, c: char)
    ensures Count(a + b, c) == Count(a, c) + Count(b, c)
    decreases |b|
  {
    if b == [] {
      assert a + b == a;
    } else {
      assert (a + b)[..|a + b| - 1] == a + b[..|b| - 1];
      CountAppend(a, b[..|b| - 1], c);
    }
  }

  function TotalLength(ps: seq<string>): nat
  {
    if ps == [] then 0 else TotalLength(ps[..|ps| - 1]) + |ps[|ps| - 1]|
  }

  function TotalCount(ps: seq<string>, c: char): nat
  {
    if ps == [] then 0 else TotalCount(ps[..|ps| - 1], c) + Count(ps[|ps| - 1], c)
  }

  /**
   * n paragraphs add exactly n newlines to those inside them, and the text is
   * never empty when there is a paragraph, even an empty one.
   */
  lemma {:induction false} DocxTextShape(ps: seq<string>)
    ensures |DocxText(ps)| == TotalLength(ps) + |ps|
    ensures Count(DocxText(ps), '\n') == TotalCount(ps, '\n') + |ps|
    ensures ps != [] ==> DocxText(ps) != "" && DocxText(ps)[|DocxText(ps)| - 1] == '\n'
  {
    if ps != [] {
      var init := ps[..|ps| - 1];
      DocxTextShape(init);
      CountAppend(DocxText(init), ps[|ps| - 1], '\n');
      CountAppend(DocxText(init) + ps[|ps| - 1], "\n", '\n');
      assert Count("\n", '\n') == Count("", '\n') + 1;
    }
  }

  // ---------------------------------------------------------------- TXT

  /** Reading in text mode translates "\r\n" and a lone "\r" to "\n" (universal newlines). */
  function UniversalNewlines(s: string): (r: string)
    ensures '\r' !in r
    ensures |r| <= |s|
  {
    if s == [] then ""
    else if s[0] == '\r' then "\n" + UniversalNewlines(if |s| > 1 && s[1] == '\n' then s[2..] else s[1..])
    else [s[0]] + UniversalNewlines(s[1..])
  }

  /** A file without carriage returns is read back verbatim. */
  lemma {:induction false} NewlinesVerbatim(s: string)
    requires '\r' !in s
    ensures UniversalNewlines(s) == s
  {
    if s != [] {
      assert '\r' !in s[1..];
      NewlinesVerbatim(s[1..]);
    }
  }

  // ---------------------------------------------------------------- dispatch

  /** What each library makes of the staged file; None where it raises. */
  datatype Readings = Readings(
    pdfPages: Option<seq<Option<string>>>,
    docxParagraphs: Option<seq<string>>,
    utf8Text: Option<string>)

  /** `get_text_from_file`, as a function of the path and what the libraries yield. */
  function TextFromFile(path: string, r: Readings): string
  {
    var ext := Lower(Extension(path));
    if ext == ".pdf" then (if r.pdfPages.Some? then PdfText(r.pdfPages.value) else "")
    else if ext == ".docx" then (if r.docxParagraphs.Some? then DocxText(r.docxParagraphs.value) else "")
    else if ext == ".txt" then (if r.utf8Text.Some? then UniversalNewlines(r.utf8Text.value) else "")
    else ""
  }

  method GetTextFromFile(path: string, r: Readings) returns (text: string)
    ensures text == TextFromFile(path, r)
  {
    var ext := Lower(Extension(path));
    if ext == ".pdf" {
      text := ExtractTextFromPdf(r.pdfPages);
    } else if ext == ".docx" {
      text := ExtractTextFromDocx(r.docxParagraphs);
    } else if ext == ".txt" {
      text := if r.utf8Text.Some? then UniversalNewlines(r.utf8Text.value) else "";
    } else {
      text := "";
    }
  }

  /** A name ending in `ext` (one dot, no slash) after a character other than '/' or '.' has extension `ext`. */
  lemma ExtensionOfName(stem: string, ext: string)
    requires stem != [] && stem[|stem| - 1] != '/' && stem[|stem| - 1] != '.'
    requires ext != [] && ext[0] == '.' && '.' !in ext[1..] && '/' !in ext
    ensures Extension(stem + ext) == ext
  {
    var p := stem + ext;
    var dot := RFind(p, '.');
    var sep := RFind(p, '/');
    assert p[|stem|] == '.';
    assert dot == |stem|;
    assert p[|stem| - 1] != '/';
    assert sep < |stem| - 1;
    assert p[|stem| - 1] != '.';
    assert p[dot..] == ext;
  }

  /** Two names whose extensions lower-case alike are read alike. */
  lemma SameLoweredExtension(stem: string, e1: string, e2: string, r: Readings)
    requires stem != [] && stem[|stem| - 1] != '/' && stem[|stem| - 1] != '.'
    requires e1 != [] && e1[0] == '.' && '.' !in e1[1..] && '/' !in e1
    requires e2 != [] && e2[0] == '.' && '.' !in e2[1..] && '/' !in e2
    requires Lower(e1) == Lower(e2)
    ensures TextFromFile(stem + e1, r) == TextFromFile(stem + e2, r)
  {
    ExtensionOfName(stem, e1);
    ExtensionOfName(stem, e2);
  }

  /** The extension is compared lower-cased: "CV.PDF" is read as a PDF. */
  lemma UpperCasePdfIsPdf(stem: string, r: Readings)
    requires stem != [] && stem[|stem| - 1] != '/' && stem[|stem| - 1] != '.'
    ensures TextFromFile(stem + ".PDF", r) == if r.pdfPages.Some? then PdfText(r.pdfPages.value) else ""
  {
    ExtensionOfName(stem, ".PDF");
    assert Lower(".PDF") == ".pdf";
  }

  /** Any other extension, or none at all, yields "" whatever the file holds. */
  lemma UnsupportedExtension(path: string, r: Readings)
    requires Lower(Extension(path)) !in {".pdf", ".docx", ".txt"}
    ensures TextFromFile(path, r) == ""
  {
  }

  /** A file without an extension, like "resume", yields "". */
  lemma NoExtension(stem: string, r: Readings)
    requires '.' !in stem
    ensures TextFromFile(stem, r) == ""
  {
    assert RFind(stem, '.') == -1;
  }
}
