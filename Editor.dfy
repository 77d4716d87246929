/**
 * The editing page for extracted text (frontend/src/pages/ExtractedTextPage.jsx):
 * the font-size lookup, the bold/italic/underline toggles, and the strings the
 * TXT and DOCX exports put in the downloaded file. The PDF export (jsPDF
 * layout), the clipboard, the auto-save timer and the Blob/URL download are
 * not part of this model.
 */
module Editor {
  import opened Wrappers

  /** `getFontSize` (lines 142-149): the CSS size for the toggle's value. */
  function FontSize(size: string): (css: string)
    ensures css == "0.875rem" <==> size == "small"
    ensures css == "1.25rem" <==> size == "large"
    ensures css == "1rem" <==> size != "small" && size != "large"
  {
    match size
    case "small" => "0.875rem"
    case "medium" => "1rem"
    case "large" => "1.25rem"
    case _ => "1rem"
  }

  /** The three toggle buttons of lines 243-265 and the `formatting` state they drive. */
  datatype Format = Bold | Italic | Underline

  datatype Formatting = Formatting(bold: bool, italic: bool, underline: bool)
  {
    /** `formatting[format]` */
    function Get(f: Format): bool
    {
      match f
      case Bold => bold
      case Italic => italic
      case Underline => underline
    }
  }

  const NoFormatting := Formatting(false, false, false)

  /** The state updater of `handleFormatChange` (lines 151-156): `{ ...prev, [format]: !prev[format] }`. */
  function Toggle(prev: Formatting, f: Format): (next: Formatting)
    ensures next.Get(f) == !prev.Get(f)
    ensures forall g :: g != f ==> next.Get(g) == prev.Get(g)
  {
    match f
    case Bold => prev.(bold := !prev.bold)
    case Italic => prev.(italic := !prev.italic)
    case Underline => prev.(underline := !prev.underline)
  }

  /** Pressing the same button twice restores the formatting. */
  lemma ToggleTwice(prev: Formatting, f: Format)
    ensures Toggle(Toggle(prev, f), f) == prev
  {
  }

  /** Presses of different buttons can come in either order. */
  lemma ToggleCommutes(prev: Formatting, f: Format, g: Format)
    ensures Toggle(Toggle(prev, f), g) == Toggle(Toggle(prev, g), f)
  {
  }

  /** `marker + s + marker` */
  function Wrap(s: string, marker: string): (r: string)
    ensures |r| == |s| + 2 * |marker|
    ensures r[..|marker|] == marker && r[|marker| + |s|..] == marker
    ensures r[|marker|..|marker| + |s|] == s
  {
    marker + s + marker
  }

  /** The inverse of `Wrap`: `s` with `marker` removed from both ends, if it is there. */
  function Unwrap(s: string, marker: string): (r: Option<string>)
    ensures r.Some? ==> Wrap(r.value, marker) == s
  {
    if |s| >= 2 * |marker| && s[..|marker|] == marker && s[|s| - |marker|..] == marker
    then
      var inner := s[|marker|..|s| - |marker|];
      assert s == marker + inner + marker;
      Some(inner)
    else None
  }

  lemma UnwrapWrap(s: string, marker: string)
    ensures Unwrap(Wrap(s, marker), marker) == Some(s)
  {
    var w := Wrap(s, marker);
    assert w[|w| - |marker|..] == marker;
  }

  /**
   * Reading a TXT export back: peel the underline markers, then the italic
   * ones, then the bold ones, as far as the flags say they were added.
   */
  function Unmark(s: string, fmt: Formatting): Option<string>
  {
    var u := if fmt.underline then Unwrap(s, "_") else Some(s);
    if u.None? then None
    else
      var i := if fmt.italic then Unwrap(u.value, "*") else u;
      if i.None? then None
      else if fmt.bold then Unwrap(i.value, "**") else i
  }

  /**
   * The TXT branch of `handleExport` (lines 126-129): bold markers go on
   * first, then italic, then underline, so underline is outermost.
   */
  method TxtContent(text: string, fmt: Formatting) returns (formatted: string)
    ensures |formatted| == |text| + (if fmt.bold then 4 else 0) + (if fmt.italic then 2 else 0)
                                  + (if fmt.underline then 2 else 0)
    ensures fmt == NoFormatting ==> formatted == text
    ensures fmt.underline ==> formatted[0] == '_' && formatted[|formatted| - 1] == '_'
    ensures !fmt.underline && fmt.italic ==> formatted[0] == '*' && formatted[|formatted| - 1] == '*'
    ensures Unmark(formatted, fmt) == Some(text)
  {
    formatted := text;
    ghost var afterBold := formatted;
    if fmt.bold {
      formatted := "**" + formatted + "**";
      assert formatted == Wrap(text, "**");
      UnwrapWrap(text, "**");
      afterBold := formatted;
    }
    ghost var afterItalic := formatted;
    if fmt.italic {
      formatted := "*" + formatted + "*";
      assert formatted == Wrap(afterBold, "*");
      UnwrapWrap(afterBold, "*");
      afterItalic := formatted;
    }
    if fmt.underline {
      formatted := "_" + formatted + "_";
      assert formatted == Wrap(afterItalic, "_");
      UnwrapWrap(afterItalic, "_");
    }
  }

  /** The declarations of the `body` rule in the DOCX export's style sheet. */
  datatype BodyStyle = BodyStyle(fontSize: string, fontWeight: string, fontStyle: string, textDecoration: string)

  /** Lines 105-108: each declaration follows its own flag and nothing else. */
  function StyleFor(size: string, fmt: Formatting): (st: BodyStyle)
    ensures st.fontSize == FontSize(size)
    ensures st.fontWeight == (if fmt.bold then "bold" else "normal")
    ensures st.fontStyle == (if fmt.italic then "italic" else "normal")
    ensures st.textDecoration == (if fmt.underline then "underline" else "none")
  {
    BodyStyle(
      FontSize(size),
      if fmt.bold then "bold" else "normal",
      if fmt.italic then "italic" else "normal",
      if fmt.underline then "underline" else "none")
  }

  /** The template literal of lines 100-116 up to the text. */
  function DocxHead(st: BodyStyle): string
  {
    "\n        <html>\n          <head>\n            <style>\n              body {\n"
    + "                font-size: " + st.fontSize + ";\n"
    + "                font-weight: " + st.fontWeight + ";\n"
    + "                font-style: " + st.fontStyle + ";\n"
    + "                text-decoration: " + st.textDecoration + ";\n"
    + "              }\n            </style>\n          </head>\n          <body>\n            "
  }

  /** The template literal of lines 100-116 after the text. */
  const DocxTail: string := "\n          </body>\n        </html>\n      "

  /** The HTML document saved as `.docx`: the text sits verbatim between a head that depends only on the style and a fixed tail. */
  function DocxContent(text: string, size: string, fmt: Formatting): (html: string)
    ensures var head := DocxHead(StyleFor(size, fmt));
      && |html| == |head| + |text| + |DocxTail|
      && html[..|head|] == head
      && html[|head|..|head| + |text|] == text
      && html[|head| + |text|..] == DocxTail
  {
    DocxHead(StyleFor(size, fmt)) + text + DocxTail
  }

  /** The export format chosen in the select of lines 345-352. */
  datatype ExportFormat = Txt | Docx | Pdf
  {
    /** The option's value: `'txt'`, `'docx'` or `'pdf'`. */
    function Value(): string
    {
      match this
      case Txt => "txt"
      case Docx => "docx"
      case Pdf => "pdf"
    }
  }

  /** The download names of lines 97, 121 and 134. */
  function FileName(format: ExportFormat): (name: string)
    ensures name == "extracted-notes." + format.Value()
  {
    match format
    case Pdf => "extracted-notes.pdf"
    case Docx => "extracted-notes.docx"
    case Txt => "extracted-notes." + format.Value()
  }

  /** Different formats are saved under different names. */
  lemma FileNameInjective(f: ExportFormat, g: ExportFormat)
    ensures FileName(f) == FileName(g) ==> f == g
  {
    var prefix := "extracted-notes.";
    if FileName(f) == FileName(g) {
      assert FileName(f)[|prefix|..] == f.Value();
      assert FileName(g)[|prefix|..] == g.Value();
      assert f.Value()[0] == g.Value()[0];
    }
  }

  /** What `handleExport` hands to the browser. The PDF's bytes come from jsPDF and are not modelled. */
  datatype Download =
    | PdfFile(name: string)
    | File(name: string, mimeType: string, content: string)

  /** ASCII `toUpperCase`, enough for the three format values. */
  function Upper(s: string): (r: string)
    ensures |r| == |s|
    ensures forall i :: 0 <= i < |s| ==> r[i] == if 'a' <= s[i] <= 'z' then s[i] - 'a' + 'A' else s[i]
  {
    if s == [] then []
    else [if 'a' <= s[0] <= 'z' then s[0] - 'a' + 'A' else s[0]] + Upper(s[1..])
  }

  /** The editor page's own state (lines 33-44). */
  class EditorPage {
    var text: string
    var exportFormat: ExportFormat
    var fontSize: string
    var formatting: Formatting
    var snackbarMessage: string
    var showSnackbar: bool

    constructor (extractedText: string)
      ensures text == extractedText && exportFormat == Docx && fontSize == "medium"
      ensures formatting == NoFormatting && snackbarMessage == "" && !showSnackbar
    {
      text := extractedText;
      exportFormat := Docx;
      fontSize := "medium";
      formatting := NoFormatting;
      snackbarMessage := "";
      showSnackbar := false;
    }

    /** `handleFormatChange(format)`: flips one flag, nothing else changes. */
    method HandleFormatChange(f: Format)
      modifies this`formatting
      ensures formatting == Toggle(old(formatting), f)
    {
      formatting := Toggle(formatting, f);
    }

    /** `handleExport` (lines 74-140): the file for the chosen format, then the snackbar. */
    method HandleExport() returns (download: Download)
      modifies this`snackbarMessage, this`showSnackbar
      ensures download.name == FileName(exportFormat)
      ensures exportFormat == Pdf <==> download.PdfFile?
      ensures exportFormat == Docx ==>
        download == File(FileName(Docx), "application/msword", DocxContent(text, fontSize, formatting))
      ensures exportFormat == Txt ==>
        download.File? && download.mimeType == "text/plain" && Unmark(download.content, formatting) == Some(text)
      ensures snackbarMessage == "Text exported as " + Upper(exportFormat.Value()) + "!" && showSnackbar
    {
      match exportFormat {
        case Pdf =>
          download := PdfFile("extracted-notes.pdf");
        case Docx =>
          var formattedContent := DocxContent(text, fontSize, formatting);
          download := File("extracted-notes.docx", "application/msword", formattedContent);
        case Txt =>
          var formattedText := TxtContent(text, formatting);
          download := File("extracted-notes." + exportFormat.Value(), "text/plain", formattedText);
      }
      snackbarMessage := "Text exported as " + Upper(exportFormat.Value()) + "!";
      showSnackbar := true;
    }
  }
}
