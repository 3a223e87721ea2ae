/** Text extraction from attachments (backend/file_extractor.py): choosing a
    reader by the file's extension, the per-file character budget of each
    reader, and the total budget of the attachment context. What a library
    finds in a file (the characters of a text file, the pages of a PDF, the
    paragraphs of a DOCX, the cells of an XLSX) is an input of the model. */
module FileExtractor {
  import opened Wrappers
  import opened Text

  // File names and extensions

  /** The last component of a '/'-separated path, skipping empty and "."
      components, as `PurePath(...).name` computes it; "" when there is none. */
  function LastComponent(parts: seq<string>): (name: string)
    ensures name == "" || name in parts
    ensures name != "."
  {
    if parts == [] then ""
    else
      var p := parts[|parts| - 1];
      if p == "" || p == "." then LastComponent(parts[..|parts| - 1]) else p
  }

  function PathName(filename: string): (name: string)
    ensures '/' !in name
  {
    LastComponent(Split(filename, '/'))
  }

  /** `s.rfind(c)`, None standing for -1. */
  function LastIndexOf(s: string, c: char): (r: Option<nat>)
    ensures r.None? <==> c !in s
    ensures r.Some? ==> r.value < |s| && s[r.value] == c && c !in s[r.value + 1..]
  {
    if s == [] then None
    else if s[|s| - 1] == c then Some(|s| - 1)
    else
      var r := LastIndexOf(s[..|s| - 1], c);
      assert r.Some? ==> s[r.value + 1..] == s[..|s| - 1][r.value + 1..] + [s[|s| - 1]];
      r
  }

  /** `PurePath.suffix` of a final component: from its last dot, when that
      dot is neither the first nor the last character. */
  function Suffix(name: string): string {
    match LastIndexOf(name, '.')
    case None => ""
    case Some(i) => if 0 < i < |name| - 1 then name[i..] else ""
  }

  /** `get_file_extension`: the lower-cased suffix of the file name. */
  function GetFileExtension(filename: string): string {
    Lower(Suffix(PathName(filename)))
  }

  /** An extension is empty or a dot followed by at least one character that
      is neither a dot nor a path separator. */
  lemma ExtensionShape(filename: string)
    ensures var ext := GetFileExtension(filename);
      ext == "" || (|ext| >= 2 && ext[0] == '.' && '.' !in ext[1..] && '/' !in ext)
  {
    var suffix := Suffix(PathName(filename));
    var ext := Lower(suffix);
    assert suffix != "" ==> '.' !in suffix[1..];
    assert forall k :: 0 <= k < |ext| ==> (ext[k] == '.' <==> suffix[k] == '.') && (ext[k] == '/' <==> suffix[k] == '/');
  }

  lemma {:induction false} LastIndexOfAppended(stem: string, e: string)
    requires '.' !in e
    ensures LastIndexOf(stem + "." + e, '.') == Some(|stem|)
  {
    if e != [] {
      var s := stem + "." + e;
      assert s[..|s| - 1] == stem + "." + e[..|e| - 1];
      LastIndexOfAppended(stem, e[..|e| - 1]);
    }
  }

  /** A name made of a non-empty stem and a dot followed by a non-empty tail
      without dots has that dot and tail, lower-cased, as its extension,
      whatever dots the stem holds. */
  lemma ExtensionOfName(stem: string, e: string)
    requires stem != "" && '/' !in stem
    requires e != "" && '.' !in e && '/' !in e
    ensures GetFileExtension(stem + "." + e) == Lower("." + e)
  {
    var name := stem + "." + e;
    assert name[|stem|] == '.';
    PlainPathName(name);
    SuffixOfName(stem, e);
  }

  /** A name without separators, other than "" and ".", is its own final component. */
  lemma PlainPathName(name: string)
    requires name != "" && name != "." && '/' !in name
    ensures PathName(name) == name
  {
    SplitWithoutSeparator(name, '/');
  }

  lemma SuffixOfName(stem: string, e: string)
    requires stem != "" && e != "" && '.' !in e
    ensures Suffix(stem + "." + e) == "." + e
  {
    var name := stem + "." + e;
    LastIndexOfAppended(stem, e);
    assert name[|stem|..] == "." + e;
  }

  /** A file name starting with its only dot (".env") or ending with a dot has
      no extension. */
  lemma NoExtensionAtTheEdges(e: string)
    requires e != "" && '.' !in e && '/' !in e
    ensures GetFileExtension("." + e) == ""
    ensures GetFileExtension(e + ".") == ""
  {
    SplitWithoutSeparator("." + e, '/');
    LastIndexOfAppended("", e);
    assert "" + "." + e == "." + e;
    SplitWithoutSeparator(e + ".", '/');
    LastIndexOfAppended(e, "");
    assert e + "." + "" == e + ".";
  }

  /** TEXT_EXTENSIONS. */
  const TextExtensions: set<string> := {
    ".txt", ".md", ".json", ".xml", ".csv", ".yaml", ".yml",
    ".py", ".js", ".ts", ".jsx", ".tsx", ".html", ".css", ".scss",
    ".java", ".c", ".cpp", ".h", ".hpp", ".cs", ".go", ".rs", ".rb",
    ".php", ".sql", ".sh", ".bash", ".zsh", ".ps1",
    ".ini", ".cfg", ".conf", ".env", ".toml"
  }

  // What the readers find

  /** What a reading library returns for a file: its content, an ImportError
      because the library is missing, or another exception, by its message. */
  datatype Load<T> = Loaded(value: T) | NotInstalled | Failed(message: string)

  /** One worksheet: its name and its rows of cells, each cell `str(cell)` or
      None for an empty cell. */
  datatype Sheet = Sheet(name: string, rows: seq<seq<Option<string>>>)

  /** What each reader finds at an attachment's path: the characters of the
      file read as UTF-8 (or the exception `open` raised), the page texts of
      the PDF (None where `extract_text()` returns None), the paragraphs of
      the DOCX, the sheets of the XLSX. */
  datatype Document = Document(
    text: Result<string, string>,
    pdf: Load<seq<Option<string>>>,
    docx: Load<seq<string>>,
    xlsx: Load<seq<Sheet>>)

  /** An attachment as `extract_text_from_file` receives it: its file name and
      the file at its path. */
  datatype Attachment = Attachment(filename: string, document: Document)

  const ContentTruncated := "\n[... содержимое обрезано ...]"

  /** A message in square brackets, as every reader failure and every notice is. */
  predicate Bracketed(s: string) {
    |s| >= 2 && s[0] == '[' && s[|s| - 1] == ']'
  }

  function Bracket(body: string): (message: string)
    ensures Bracketed(message) && message[1..|message| - 1] == body
  {
    "[" + body + "]"
  }

  const PdfMissing := Bracket("PDF: библиотека pdfplumber не установлена")
  const DocxMissing := Bracket("DOCX: библиотека python-docx не установлена")
  const XlsxMissing := Bracket("XLSX: библиотека openpyxl не установлена")

  // Plain text files

  /** `extract_text_from_text_file`: at most `maxChars + 100` characters are
      read; more than `maxChars` of them are cut to `maxChars` and marked. */
  function TextFileText(file: Result<string, string>, maxChars: nat): string {
    match file
    case Failure(message) => Bracket("Ошибка чтения файла: " + message)
    case Success(s) =>
      var content := Take(s, maxChars + 100);
      if |content| > maxChars then Strip(content[..maxChars] + ContentTruncated) else Strip(content)
  }

  /** A file within the budget is returned stripped; a longer one keeps its
      first `maxChars` characters and the marker, whatever its length. */
  lemma TextFileBudget(file: Result<string, string>, maxChars: nat)
    ensures file.Failure? ==> TextFileText(file, maxChars) == Bracket("Ошибка чтения файла: " + file.error)
    ensures file.Success? && |file.value| <= maxChars ==> TextFileText(file, maxChars) == Strip(file.value)
    ensures file.Success? && |file.value| > maxChars ==>
      TextFileText(file, maxChars) == Strip(file.value[..maxChars] + ContentTruncated)
    ensures |TextFileText(file, maxChars)| <= maxChars + |ContentTruncated| || file.Failure?
  {
    if file.Success? && |file.value| > maxChars {
      var content := Take(file.value, maxChars + 100);
      assert content[..maxChars] == file.value[..maxChars];
    }
  }

  // The page and paragraph budget of the PDF and DOCX readers

  /** The `text_parts` the page (or paragraph) loop builds from item `i` on,
      `total` characters being already kept: whole items while the total
      stays within `maxChars`; the first item that would exceed it is cut to
      the characters left and followed by the marker, and the loop stops. */
  function PartsFrom(items: seq<string>, i: nat, total: nat, maxChars: nat): seq<string>
    requires i <= |items| && total <= maxChars
    decreases |items| - i
  {
    if i == |items| then []
    else if total + |items[i]| > maxChars then CutItem(items[i], maxChars - total)
    else [items[i]] + PartsFrom(items, i + 1, total + |items[i]|, maxChars)
  }

  /** The parts that replace the first item over the budget, `remaining`
      characters being left: the item cut to them, then the marker. */
  function CutItem(item: string, remaining: nat): seq<string> {
    [Take(item, remaining), ContentTruncated]
  }

  /** How many items from `i` on the loop keeps whole. */
  function WholeCount(items: seq<string>, i: nat, total: nat, maxChars: nat): (n: nat)
    requires i <= |items|
    decreases |items| - i
    ensures i + n <= |items|
  {
    if i == |items| || total + |items[i]| > maxChars then 0
    else 1 + WholeCount(items, i + 1, total + |items[i]|, maxChars)
  }

  /** The running total once the items from `i` on that fit are kept whole. */
  function KeptTotal(items: seq<string>, i: nat, total: nat, maxChars: nat): (used: nat)
    requires i <= |items|
    decreases |items| - i
    ensures total <= used
    ensures total <= maxChars ==> used <= maxChars
  {
    if i == |items| || total + |items[i]| > maxChars then total
    else KeptTotal(items, i + 1, total + |items[i]|, maxChars)
  }

  /** The running total adds the lengths of the items kept whole; the item
      after them, if any, would take it past the budget. */
  lemma {:induction false} WholeCountFits(items: seq<string>, i: nat, total: nat, maxChars: nat)
    requires i <= |items|
    decreases |items| - i
    ensures var n := WholeCount(items, i, total, maxChars);
      && KeptTotal(items, i, total, maxChars) == total + TotalLength(items[i..i + n])
      && (i + n < |items| ==> KeptTotal(items, i, total, maxChars) + |items[i + n]| > maxChars)
  {
    if i == |items| || total + |items[i]| > maxChars {
      assert items[i..i] == [];
    } else {
      WholeCountFits(items, i + 1, total + |items[i]|, maxChars);
      WholeStep(items, i, total, maxChars);
    }
  }

  /** An item that fits is kept whole, in front of the items kept after it. */
  lemma WholeStep(items: seq<string>, i: nat, total: nat, maxChars: nat)
    requires i < |items| && total + |items[i]| <= maxChars
    ensures var m := WholeCount(items, i + 1, total + |items[i]|, maxChars);
      && WholeCount(items, i, total, maxChars) == 1 + m
      && items[i..i + 1 + m] == [items[i]] + items[i + 1..i + 1 + m]
      && TotalLength(items[i..i + 1 + m]) == |items[i]| + TotalLength(items[i + 1..i + 1 + m])
  {
    var m := WholeCount(items, i + 1, total + |items[i]|, maxChars);
    var kept := items[i + 1..i + 1 + m];
    assert items[i..i + 1 + m] == [items[i]] + kept;
    assert ([items[i]] + kept)[1..] == kept;
  }

  /** The parts from item `i` on are the items kept whole and, when an item
      did not fit, that item cut to the characters left and the marker. */
  predicate PartsShaped(items: seq<string>, i: nat, total: nat, maxChars: nat)
    requires i <= |items| && total <= maxChars
  {
    var n := WholeCount(items, i, total, maxChars);
    PartsFrom(items, i, total, maxChars) == items[i..i + n] + CutTail(items, i + n, maxChars - KeptTotal(items, i, total, maxChars))
  }

  /** After the items kept whole: nothing when every item fit, otherwise
      item `j` cut to the characters left and the marker. */
  function CutTail(items: seq<string>, j: nat, remaining: nat): seq<string>
    requires j <= |items|
  {
    if j == |items| then [] else CutItem(items[j], remaining)
  }

  lemma {:induction false} PartsFromShape(items: seq<string>, i: nat, total: nat, maxChars: nat)
    requires i <= |items| && total <= maxChars
    decreases |items| - i
    ensures PartsShaped(items, i, total, maxChars)
  {
    if i == |items| || total + |items[i]| > maxChars {
      PartsFromEnd(items, i, total, maxChars);
    } else {
      PartsFromShape(items, i + 1, total + |items[i]|, maxChars);
      PartsFromStep(items, i, total, maxChars);
    }
  }

  /** With no items left, or an item that does not fit, only the tail remains. */
  lemma PartsFromEnd(items: seq<string>, i: nat, total: nat, maxChars: nat)
    requires i <= |items| && total <= maxChars
    requires i == |items| || total + |items[i]| > maxChars
    ensures PartsShaped(items, i, total, maxChars)
  {
    assert WholeCount(items, i, total, maxChars) == 0 && KeptTotal(items, i, total, maxChars) == total;
    var tail := CutTail(items, i, maxChars - total);
    assert PartsFrom(items, i, total, maxChars) == tail;
    assert items[i..i] + tail == tail;
  }

  /** A whole item in front of shaped parts gives shaped parts. */
  lemma PartsFromStep(items: seq<string>, i: nat, total: nat, maxChars: nat)
    requires i < |items| && total + |items[i]| <= maxChars
    requires PartsShaped(items, i + 1, total + |items[i]|, maxChars)
    ensures PartsShaped(items, i, total, maxChars)
  {
    var t := total + |items[i]|;
    var m := WholeCount(items, i + 1, t, maxChars);
    var kept := items[i + 1..i + 1 + m];
    var tail := CutTail(items, i + 1 + m, maxChars - KeptTotal(items, i + 1, t, maxChars));
    var rest := PartsFrom(items, i + 1, t, maxChars);
    assert rest == kept + tail;
    assert WholeCount(items, i, total, maxChars) == 1 + m;
    assert KeptTotal(items, i, total, maxChars) == KeptTotal(items, i + 1, t, maxChars);
    assert PartsFrom(items, i, total, maxChars) == [items[i]] + rest;
    PrependKept(items, i, m, tail, rest);
  }

  /** Item `i` in front of the `m` items after it and a tail. */
  lemma PrependKept<T>(items: seq<T>, i: nat, m: nat, tail: seq<T>, rest: seq<T>)
    requires i + 1 + m <= |items| && rest == items[i + 1..i + 1 + m] + tail
    ensures [items[i]] + rest == items[i..i + 1 + m] + tail
  {
    assert items[i..i + 1 + m] == [items[i]] + items[i + 1..i + 1 + m];
  }

  /** Whatever the items, the parts hold at most `maxChars` characters besides
      the marker; items that fit are all kept. */
  lemma PartsWithinBudget(items: seq<string>, maxChars: nat)
    ensures TotalLength(PartsFrom(items, 0, 0, maxChars)) <= maxChars + |ContentTruncated|
    ensures TotalLength(items) <= maxChars ==> PartsFrom(items, 0, 0, maxChars) == items
  {
    PartsFromShape(items, 0, 0, maxChars);
    WholeCountFits(items, 0, 0, maxChars);
    var n := WholeCount(items, 0, 0, maxChars);
    var kept := items[..n];
    assert items[0..n] == kept;
    if n < |items| {
      var last := Take(items[n], maxChars - TotalLength(kept));
      TotalLengthConcat(kept, [last, ContentTruncated]);
      assert TotalLength([last, ContentTruncated]) == |last| + |ContentTruncated| by {
        assert [ContentTruncated][1..] == [];
        assert TotalLength([ContentTruncated]) == |ContentTruncated|;
        assert [last, ContentTruncated][1..] == [ContentTruncated];
      }
      assert items == kept + items[n..];
      TotalLengthConcat(kept, items[n..]);
      assert items[n..][1..] == items[n + 1..];
      assert TotalLength(items) > maxChars;
    } else {
      assert kept + [] == kept;
      assert kept == items;
    }
  }

  /** The page loop of the PDF reader and the paragraph loop of the DOCX
      reader. */
  method BudgetParts(items: seq<string>, maxChars: nat) returns (parts: seq<string>)
    ensures parts == PartsFrom(items, 0, 0, maxChars)
  {
    parts := [];
    var total: nat := 0;
    for i := 0 to |items|
      invariant total <= maxChars
      invariant PartsFrom(items, 0, 0, maxChars) == parts + PartsFrom(items, i, total, maxChars)
    {
      if total + |items[i]| > maxChars {
        var remaining := maxChars - total;
        parts := parts + [Take(items[i], remaining), ContentTruncated];
        return;
      }
      parts := parts + [items[i]];
      total := total + |items[i]|;
    }
  }

  /** The text of every page, "" for a page without extractable text. */
  function PageTexts(pages: seq<Option<string>>): (texts: seq<string>)
    ensures |texts| == |pages|
    ensures forall k :: 0 <= k < |pages| ==> texts[k] == pages[k].GetOr("")
  {
    seq(|pages|, k requires 0 <= k < |pages| => pages[k].GetOr(""))
  }

  /** `extract_text_from_pdf`. */
  function PdfText(pdf: Load<seq<Option<string>>>, maxChars: nat): string {
    match pdf
    case NotInstalled => PdfMissing
    case Failed(message) => Bracket("Ошибка чтения PDF: " + message)
    case Loaded(pages) => Strip(Join(PartsFrom(PageTexts(pages), 0, 0, maxChars), "\n"))
  }

  /** `extract_text_from_docx`. */
  function DocxText(docx: Load<seq<string>>, maxChars: nat): string {
    match docx
    case NotInstalled => DocxMissing
    case Failed(message) => Bracket("Ошибка чтения DOCX: " + message)
    case Loaded(paragraphs) => Strip(Join(PartsFrom(paragraphs, 0, 0, maxChars), "\n"))
  }

  method ExtractTextFromPdf(pdf: Load<seq<Option<string>>>, maxChars: nat) returns (text: string)
    ensures text == PdfText(pdf, maxChars)
  {
    match pdf
    case NotInstalled => text := PdfMissing;
    case Failed(message) => text := Bracket("Ошибка чтения PDF: " + message);
    case Loaded(pages) =>
      var parts := BudgetParts(PageTexts(pages), maxChars);
      text := Strip(Join(parts, "\n"));
  }

  method ExtractTextFromDocx(docx: Load<seq<string>>, maxChars: nat) returns (text: string)
    ensures text == DocxText(docx, maxChars)
  {
    match docx
    case NotInstalled => text := DocxMissing;
    case Failed(message) => text := Bracket("Ошибка чтения DOCX: " + message);
    case Loaded(paragraphs) =>
      var parts := BudgetParts(paragraphs, maxChars);
      text := Strip(Join(parts, "\n"));
  }

  // The row budget of the XLSX reader

  const SheetTruncated := "[... содержимое обрезано ...]"

  function SheetHeader(name: string): string {
    "=== Лист: " + name + " ==="
  }

  /** A row as text: its cells joined by " | ", an empty cell as "". */
  function RowText(row: seq<Option<string>>): string {
    Join(seq(|row|, k requires 0 <= k < |row| => row[k].GetOr("")), " | ")
  }

  /** The `text_parts` the sheet loop builds from sheet `s` on, `total` being
      the running count: a header per sheet, then its rows. */
  function SheetsFrom(sheets: seq<Sheet>, s: nat, total: nat, maxChars: nat): seq<string>
    requires s <= |sheets|
    decreases |sheets| - s, 1, 0
  {
    if s == |sheets| then []
    else [SheetHeader(sheets[s].name)] + RowsFrom(sheets, s, 0, total, maxChars)
  }

  /** The `text_parts` the row loop builds from row `r` of sheet `s` on: a row
      that would take the total past `maxChars` is replaced by the marker and
      ends the reading; a kept row adds its length plus one to the total. */
  function RowsFrom(sheets: seq<Sheet>, s: nat, r: nat, total: nat, maxChars: nat): seq<string>
    requires s < |sheets| && r <= |sheets[s].rows|
    decreases |sheets| - s, 0, |sheets[s].rows| - r
  {
    if r == |sheets[s].rows| then SheetsFrom(sheets, s + 1, total, maxChars)
    else
      var row := RowText(sheets[s].rows[r]);
      if total + |row| > maxChars then [SheetTruncated]
      else [row] + RowsFrom(sheets, s, r + 1, total + |row| + 1, maxChars)
  }

  /** A line of the workbook: a sheet header, which costs nothing, or a row,
      which counts its length plus one against the budget. */
  datatype Line = Header(text: string) | Row(text: string)

  function Weight(line: Line): nat {
    if line.Row? then |line.text| + 1 else 0
  }

  /** The budget the rows of `lines` take. */
  function Cost(lines: seq<Line>): nat {
    if lines == [] then 0 else Weight(lines[0]) + Cost(lines[1..])
  }

  function Texts(lines: seq<Line>): seq<string> {
    if lines == [] then [] else [lines[0].text] + Texts(lines[1..])
  }

  /** Every line of the workbook from sheet `s` on, without a budget: a
      header per sheet, then its rows. */
  function SheetLines(sheets: seq<Sheet>, s: nat): seq<Line>
    requires s <= |sheets|
    decreases |sheets| - s, 1, 0
  {
    if s == |sheets| then []
    else [Header(SheetHeader(sheets[s].name))] + RowLines(sheets, s, 0)
  }

  function RowLines(sheets: seq<Sheet>, s: nat, r: nat): seq<Line>
    requires s < |sheets| && r <= |sheets[s].rows|
    decreases |sheets| - s, 0, |sheets[s].rows| - r
  {
    if r == |sheets[s].rows| then SheetLines(sheets, s + 1)
    else [Row(RowText(sheets[s].rows[r]))] + RowLines(sheets, s, r + 1)
  }

  /** The row budget over the lines of the workbook, read front to back. */
  function Budgeted(lines: seq<Line>, total: nat, maxChars: nat): seq<string> {
    if lines == [] then []
    else if lines[0].Row? && total + |lines[0].text| > maxChars then [SheetTruncated]
    else [lines[0].text] + Budgeted(lines[1..], total + Weight(lines[0]), maxChars)
  }

  /** The nested sheet and row loops are the row budget over the workbook's
      lines in order. */
  lemma {:induction false} SheetsFromFlat(sheets: seq<Sheet>, s: nat, total: nat, maxChars: nat)
    requires s <= |sheets|
    decreases |sheets| - s, 1, 0
    ensures SheetsFrom(sheets, s, total, maxChars) == Budgeted(SheetLines(sheets, s), total, maxChars)
  {
    if s < |sheets| {
      RowsFromFlat(sheets, s, 0, total, maxChars);
      var lines := SheetLines(sheets, s);
      assert lines[1..] == RowLines(sheets, s, 0);
    }
  }

  lemma {:induction false} RowsFromFlat(sheets: seq<Sheet>, s: nat, r: nat, total: nat, maxChars: nat)
    requires s < |sheets| && r <= |sheets[s].rows|
    decreases |sheets| - s, 0, |sheets[s].rows| - r
    ensures RowsFrom(sheets, s, r, total, maxChars) == Budgeted(RowLines(sheets, s, r), total, maxChars)
  {
    if r == |sheets[s].rows| {
      SheetsFromFlat(sheets, s + 1, total, maxChars);
    } else {
      var row := RowText(sheets[s].rows[r]);
      var lines := RowLines(sheets, s, r);
      assert lines[0] == Row(row) && lines[1..] == RowLines(sheets, s, r + 1);
      if total + |row| <= maxChars {
        RowsFromFlat(sheets, s, r + 1, total + |row| + 1, maxChars);
      }
    }
  }

  /** Row `j` does not fit: its length on top of `total` and the rows before
      it goes past `maxChars`. */
  ghost predicate Overflows(lines: seq<Line>, j: nat, total: nat, maxChars: nat)
    requires j < |lines|
  {
    lines[j].Row? && total + Cost(lines[..j]) + |lines[j].text| > maxChars
  }

  /** How many lines the budget lets through. */
  ghost function Cut(lines: seq<Line>, total: nat, maxChars: nat): nat {
    if lines == [] then 0
    else if lines[0].Row? && total + |lines[0].text| > maxChars then 0
    else 1 + Cut(lines[1..], total + Weight(lines[0]), maxChars)
  }

  lemma ShiftOverflows(lines: seq<Line>, j: nat, total: nat, maxChars: nat)
    requires 0 < j < |lines|
    ensures Overflows(lines, j, total, maxChars) <==> Overflows(lines[1..], j - 1, total + Weight(lines[0]), maxChars)
  {
    assert lines[..j][1..] == lines[1..][..j - 1];
  }

  /** A non-empty prefix is its first line in front of a prefix of the rest. */
  lemma PrefixCons(lines: seq<Line>, k: nat)
    requires 0 < k <= |lines|
    ensures Texts(lines[..k]) == [lines[0].text] + Texts(lines[1..][..k - 1])
    ensures Cost(lines[..k]) == Weight(lines[0]) + Cost(lines[1..][..k - 1])
  {
    assert lines[..k][0] == lines[0] && lines[..k][1..] == lines[1..][..k - 1];
  }

  /** The budget lets through the first `Cut` lines and replaces the next
      one, if any, by the marker; the rows let through take at most
      `maxChars` + 1. */
  lemma {:induction false} CutFacts(lines: seq<Line>, total: nat, maxChars: nat)
    requires total <= maxChars + 1
    ensures Cut(lines, total, maxChars) <= |lines|
    ensures var k := Cut(lines, total, maxChars);
      && Budgeted(lines, total, maxChars) == Texts(lines[..k]) + (if k < |lines| then [SheetTruncated] else [])
      && total + Cost(lines[..k]) <= maxChars + 1
  {
    if lines != [] {
      var x := lines[0];
      if x.Row? && total + |x.text| > maxChars {
        assert lines[..0] == [];
      } else {
        CutFacts(lines[1..], total + Weight(x), maxChars);
        PrefixCons(lines, 1 + Cut(lines[1..], total + Weight(x), maxChars));
      }
    }
  }

  /** The line the budget stops at is the first row that does not fit. */
  lemma {:induction false} CutIsFirstOverflow(lines: seq<Line>, total: nat, maxChars: nat)
    ensures Cut(lines, total, maxChars) <= |lines|
    ensures var k := Cut(lines, total, maxChars);
      && (forall j :: 0 <= j < k ==> !Overflows(lines, j, total, maxChars))
      && (k < |lines| ==> Overflows(lines, k, total, maxChars))
  {
    if lines != [] {
      var x := lines[0];
      if x.Row? && total + |x.text| > maxChars {
        assert lines[..0] == [];
      } else {
        var next := total + Weight(x);
        CutIsFirstOverflow(lines[1..], next, maxChars);
        var k := 1 + Cut(lines[1..], next, maxChars);
        forall j | 0 <= j < k
          ensures !Overflows(lines, j, total, maxChars)
        {
          if j == 0 {
            assert lines[..0] == [];
          } else {
            ShiftOverflows(lines, j, total, maxChars);
          }
        }
        if k < |lines| {
          ShiftOverflows(lines, k, total, maxChars);
        }
      }
    }
  }

  /** The XLSX row budget: when every row fits, every line of the workbook
      comes out and the rows take at most `maxChars` + 1 (each row counts its
      length plus one); otherwise the lines before the first row that does
      not fit come out, within the same budget, followed by the marker. */
  lemma XlsxBudget(sheets: seq<Sheet>, maxChars: nat)
    ensures var lines := SheetLines(sheets, 0);
      var parts := SheetsFrom(sheets, 0, 0, maxChars);
      && ((forall j :: 0 <= j < |lines| ==> !Overflows(lines, j, 0, maxChars)) ==>
            parts == Texts(lines) && Cost(lines) <= maxChars + 1)
      && (forall k :: 0 <= k < |lines| && Overflows(lines, k, 0, maxChars)
                      && (forall j :: 0 <= j < k ==> !Overflows(lines, j, 0, maxChars)) ==>
            parts == Texts(lines[..k]) + [SheetTruncated] && Cost(lines[..k]) <= maxChars + 1)
  {
    var lines := SheetLines(sheets, 0);
    var parts := SheetsFrom(sheets, 0, 0, maxChars);
    SheetsFromFlat(sheets, 0, 0, maxChars);
    CutFacts(lines, 0, maxChars);
    CutIsFirstOverflow(lines, 0, maxChars);
    var c := Cut(lines, 0, maxChars);
    assert parts == Texts(lines[..c]) + (if c < |lines| then [SheetTruncated] else []);
    if c == |lines| {
      assert lines[..|lines|] == lines;
    }
    forall k | 0 <= k < |lines| && Overflows(lines, k, 0, maxChars)
                 && (forall j :: 0 <= j < k ==> !Overflows(lines, j, 0, maxChars))
      ensures parts == Texts(lines[..k]) + [SheetTruncated] && Cost(lines[..k]) <= maxChars + 1
    {
      assert c <= k;
      assert c < |lines| && Overflows(lines, c, 0, maxChars);
      assert k <= c;
    }
  }

  /** `extract_text_from_xlsx`. */
  function XlsxText(xlsx: Load<seq<Sheet>>, maxChars: nat): string {
    match xlsx
    case NotInstalled => XlsxMissing
    case Failed(message) => Bracket("Ошибка чтения XLSX: " + message)
    case Loaded(sheets) => Strip(Join(SheetsFrom(sheets, 0, 0, maxChars), "\n"))
  }

  method ExtractTextFromXlsx(xlsx: Load<seq<Sheet>>, maxChars: nat) returns (text: string)
    ensures text == XlsxText(xlsx, maxChars)
  {
    match xlsx
    case NotInstalled => text := XlsxMissing;
    case Failed(message) => text := Bracket("Ошибка чтения XLSX: " + message);
    case Loaded(sheets) =>
      ghost var full := SheetsFrom(sheets, 0, 0, maxChars);
      var parts: seq<string> := [];
      var total: nat := 0;
      for s := 0 to |sheets|
        invariant full == parts + SheetsFrom(sheets, s, total, maxChars)
      {
        parts := parts + [SheetHeader(sheets[s].name)];
        for r := 0 to |sheets[s].rows|
          invariant full == parts + RowsFrom(sheets, s, r, total, maxChars)
        {
          var row := RowText(sheets[s].rows[r]);
          if total + |row| > maxChars {
            parts := parts + [SheetTruncated];
            assert full == parts;
            text := Strip(Join(parts, "\n"));
            return;
          }
          parts := parts + [row];
          total := total + |row| + 1;
        }
      }
      assert full == parts;
      text := Strip(Join(parts, "\n"));
  }

  // Choosing a reader

  datatype Reader = TextReader | PdfReader | DocxReader | XlsxReader | Notice(message: string)

  /** The dispatch of `extract_text_from_file` on the extension `ext` of
      `filename`: the four readers for their extensions, a bracketed notice
      naming the file for every other extension. */
  function ReaderFor(filename: string, ext: string): (reader: Reader)
    ensures reader.Notice? ==> Bracketed(reader.message) && StartsWith(reader.message, "[" + filename + ": ")
  {
    if ext in TextExtensions then TextReader
    else if ext == ".pdf" then PdfReader
    else if ext == ".docx" then DocxReader
    else if ext == ".doc" then Notice(FileNotice(filename, "формат .doc не поддерживается, используйте .docx"))
    else if ext == ".xlsx" then XlsxReader
    else if ext == ".xls" then Notice(FileNotice(filename, "формат .xls не поддерживается, используйте .xlsx"))
    else if ext == ".pptx" || ext == ".ppt" then Notice(FileNotice(filename, "извлечение текста из PowerPoint пока не реализовано"))
    else Notice(FileNotice(filename, "неподдерживаемый формат для извлечения текста"))
  }

  /** The extensions with readers or notices of their own are not text extensions. */
  lemma OtherFormatsAreNotText()
    ensures ".pdf" !in TextExtensions && ".docx" !in TextExtensions && ".xlsx" !in TextExtensions
    ensures ".doc" !in TextExtensions && ".xls" !in TextExtensions
    ensures ".ppt" !in TextExtensions && ".pptx" !in TextExtensions
  {
  }

  /** Each reader serves exactly its extensions. */
  lemma ReaderForExtension(filename: string, ext: string)
    ensures ReaderFor(filename, ext) == TextReader <==> ext in TextExtensions
    ensures ReaderFor(filename, ext) == PdfReader <==> ext == ".pdf"
    ensures ReaderFor(filename, ext) == DocxReader <==> ext == ".docx"
    ensures ReaderFor(filename, ext) == XlsxReader <==> ext == ".xlsx"
  {
    OtherFormatsAreNotText();
  }

  /** ".doc", ".xls", ".ppt" and ".pptx" get notices of their own. */
  lemma ReaderForNotices(filename: string, ext: string)
    ensures ext == ".doc" ==>
      ReaderFor(filename, ext) == Notice(FileNotice(filename, "формат .doc не поддерживается, используйте .docx"))
    ensures ext == ".xls" ==>
      ReaderFor(filename, ext) == Notice(FileNotice(filename, "формат .xls не поддерживается, используйте .xlsx"))
    ensures ext == ".ppt" || ext == ".pptx" ==>
      ReaderFor(filename, ext) == Notice(FileNotice(filename, "извлечение текста из PowerPoint пока не реализовано"))
  {
    OtherFormatsAreNotText();
  }

  /** The notice for a file: its name and the reason, in square brackets. */
  function FileNotice(filename: string, reason: string): (message: string)
    ensures Bracketed(message) && StartsWith(message, "[" + filename + ": ")
  {
    var message := Bracket(filename + ": " + reason);
    assert message == "[" + filename + ": " + reason + "]";
    assert message[..|"[" + filename + ": "|] == "[" + filename + ": ";
    message
  }

  /** `extract_text_from_file`, each reader with the per-file budget. */
  function FileText(a: Attachment, maxChars: nat): string {
    match ReaderFor(a.filename, GetFileExtension(a.filename))
    case TextReader => TextFileText(a.document.text, maxChars)
    case PdfReader => PdfText(a.document.pdf, maxChars)
    case DocxReader => DocxText(a.document.docx, maxChars)
    case XlsxReader => XlsxText(a.document.xlsx, maxChars)
    case Notice(message) => message
  }

  /** No reader raises: a failed read or a missing library yields a bracketed
      message, and so does a file whose format has no reader. */
  lemma FailuresAreBracketed(a: Attachment, maxChars: nat)
    requires
      match ReaderFor(a.filename, GetFileExtension(a.filename))
      case TextReader => a.document.text.Failure?
      case PdfReader => !a.document.pdf.Loaded?
      case DocxReader => !a.document.docx.Loaded?
      case XlsxReader => !a.document.xlsx.Loaded?
      case Notice(_) => true
    ensures Bracketed(FileText(a, maxChars))
  {
  }

  method ExtractTextFromFile(a: Attachment, maxChars: nat) returns (text: string)
    ensures text == FileText(a, maxChars)
  {
    var reader := ReaderFor(a.filename, GetFileExtension(a.filename));
    match reader
    case TextReader => text := TextFileText(a.document.text, maxChars);
    case PdfReader => text := ExtractTextFromPdf(a.document.pdf, maxChars);
    case DocxReader => text := ExtractTextFromDocx(a.document.docx, maxChars);
    case XlsxReader => text := ExtractTextFromXlsx(a.document.xlsx, maxChars);
    case Notice(message) => text := message;
  }

  // The attachment context

  const AttachmentsHeader := "=== Вложения ==="
  const FilesOmitted := "\n[... остальные файлы опущены ...]"

  function FileBlock(filename: string, content: string): string {
    "\n[FILE: " + filename + "]\n" + content + "\n[/FILE]"
  }

  function OmittedBlock(filename: string): string {
    "\n[FILE: " + filename + "]\n[... файл опущен из-за лимита символов ...]\n[/FILE]"
  }

  /** The line that replaces the first block over the budget, `remaining`
      characters being left: the block cut to them and marked when more than
      100 are left, a placeholder naming the file otherwise. */
  function OverflowLine(name: string, block: string, remaining: nat): string {
    if remaining > 100 then Take(block, remaining) + FilesOmitted else OmittedBlock(name)
  }

  /** The lines the attachment loop adds from file `i` on, `total` characters
      being already used: whole blocks while the total stays within
      `maxTotal`, then the overflow line of the first block that would exceed
      it, and the loop stops. */
  function BlocksFrom(names: seq<string>, blocks: seq<string>, i: nat, total: nat, maxTotal: nat): seq<string>
    requires |names| == |blocks| && i <= |names| && total <= maxTotal
    decreases |names| - i
  {
    if i == |names| then []
    else if total + |blocks[i]| > maxTotal then [OverflowLine(names[i], blocks[i], maxTotal - total)]
    else [blocks[i]] + BlocksFrom(names, blocks, i + 1, total + |blocks[i]|, maxTotal)
  }

  /** The lines from block `i` on are the blocks kept whole and, when a
      block did not fit, its overflow line. */
  ghost predicate BlocksShaped(names: seq<string>, blocks: seq<string>, i: nat, total: nat, maxTotal: nat)
    requires |names| == |blocks| && i <= |names| && total <= maxTotal
  {
    var n := WholeCount(blocks, i, total, maxTotal);
    BlocksFrom(names, blocks, i, total, maxTotal) ==
      blocks[i..i + n] + OverflowTail(names, blocks, i + n, maxTotal - KeptTotal(blocks, i, total, maxTotal))
  }

  /** After the blocks kept whole: nothing when every block fit, otherwise
      the overflow line of block `j`. */
  function OverflowTail(names: seq<string>, blocks: seq<string>, j: nat, remaining: nat): seq<string>
    requires |names| == |blocks| && j <= |names|
  {
    if j == |names| then [] else [OverflowLine(names[j], blocks[j], remaining)]
  }

  lemma {:induction false} BlocksFromShape(names: seq<string>, blocks: seq<string>, i: nat, total: nat, maxTotal: nat)
    requires |names| == |blocks| && i <= |names| && total <= maxTotal
    decreases |names| - i
    ensures BlocksShaped(names, blocks, i, total, maxTotal)
  {
    if i == |names| || total + |blocks[i]| > maxTotal {
      BlocksFromEnd(names, blocks, i, total, maxTotal);
    } else {
      BlocksFromShape(names, blocks, i + 1, total + |blocks[i]|, maxTotal);
      BlocksFromStep(names, blocks, i, total, maxTotal);
    }
  }

  /** With no blocks left, or a block that does not fit, only the tail remains. */
  lemma BlocksFromEnd(names: seq<string>, blocks: seq<string>, i: nat, total: nat, maxTotal: nat)
    requires |names| == |blocks| && i <= |names| && total <= maxTotal
    requires i == |names| || total + |blocks[i]| > maxTotal
    ensures BlocksShaped(names, blocks, i, total, maxTotal)
  {
    assert WholeCount(blocks, i, total, maxTotal) == 0 && KeptTotal(blocks, i, total, maxTotal) == total;
    if i == |names| {
      assert blocks[i..i] == [];
    } else {
      var line := OverflowLine(names[i], blocks[i], maxTotal - total);
      assert BlocksFrom(names, blocks, i, total, maxTotal) == [line] == OverflowTail(names, blocks, i, maxTotal - total);
      assert blocks[i..i] + [line] == [line];
    }
  }

  /** A whole block in front of shaped lines gives shaped lines. */
  lemma BlocksFromStep(names: seq<string>, blocks: seq<string>, i: nat, total: nat, maxTotal: nat)
    requires |names| == |blocks| && i < |names| && total + |blocks[i]| <= maxTotal
    requires BlocksShaped(names, blocks, i + 1, total + |blocks[i]|, maxTotal)
    ensures BlocksShaped(names, blocks, i, total, maxTotal)
  {
    var t := total + |blocks[i]|;
    var m := WholeCount(blocks, i + 1, t, maxTotal);
    var kept := blocks[i + 1..i + 1 + m];
    var tail := OverflowTail(names, blocks, i + 1 + m, maxTotal - KeptTotal(blocks, i + 1, t, maxTotal));
    var rest := BlocksFrom(names, blocks, i + 1, t, maxTotal);
    assert rest == kept + tail;
    var n := WholeCount(blocks, i, total, maxTotal);
    assert n == 1 + m;
    assert KeptTotal(blocks, i, total, maxTotal) == KeptTotal(blocks, i + 1, t, maxTotal);
    assert OverflowTail(names, blocks, i + n, maxTotal - KeptTotal(blocks, i, total, maxTotal)) == tail;
    assert BlocksFrom(names, blocks, i, total, maxTotal) == [blocks[i]] + rest;
    PrependKept(blocks, i, m, tail, rest);
  }

  /** The blocks kept whole come first, in input order, and fit in the
      budget, and the block after them, if any, does not; exactly one more
      line follows it, its overflow line with the characters left. */
  lemma BlocksBudget(names: seq<string>, blocks: seq<string>, maxTotal: nat)
    requires |names| == |blocks|
    ensures var n := WholeCount(blocks, 0, 0, maxTotal);
      && TotalLength(blocks[..n]) <= maxTotal
      && (n < |blocks| ==> TotalLength(blocks[..n]) + |blocks[n]| > maxTotal)
      && BlocksFrom(names, blocks, 0, 0, maxTotal) ==
           blocks[..n] + (if n == |names| then [] else [OverflowLine(names[n], blocks[n], maxTotal - TotalLength(blocks[..n]))])
  {
    BlocksFromShape(names, blocks, 0, 0, maxTotal);
    WholeCountFits(blocks, 0, 0, maxTotal);
    var n := WholeCount(blocks, 0, 0, maxTotal);
    var used := KeptTotal(blocks, 0, 0, maxTotal);
    assert blocks[0..n] == blocks[..n];
    assert used == TotalLength(blocks[..n]);
    var tail := OverflowTail(names, blocks, n, maxTotal - used);
    assert BlocksFrom(names, blocks, 0, 0, maxTotal) == blocks[..n] + tail;
    if n < |names| {
      assert tail == [OverflowLine(names[n], blocks[n], maxTotal - used)];
    }
  }

  /** `extract_text_from_files` once the block of each file is built: "" for
      no files, otherwise the header and the budgeted blocks, one per line. */
  function AttachmentsContext(names: seq<string>, blocks: seq<string>, maxTotal: nat): string
    requires |names| == |blocks|
  {
    if names == [] then ""
    else Join([AttachmentsHeader] + BlocksFrom(names, blocks, 0, 0, maxTotal), "\n")
  }

  function Names(files: seq<Attachment>): (names: seq<string>)
    ensures |names| == |files|
    ensures forall k :: 0 <= k < |files| ==> names[k] == files[k].filename
  {
    seq(|files|, k requires 0 <= k < |files| => files[k].filename)
  }

  /** The block of each file, holding its extracted text, in input order. */
  function FileBlocks(files: seq<Attachment>, maxChars: nat): (blocks: seq<string>)
    ensures |blocks| == |files|
  {
    if files == [] then []
    else FileBlocks(files[..|files| - 1], maxChars) + [FileBlock(files[|files| - 1].filename, FileText(files[|files| - 1], maxChars))]
  }

  /** Block `k` holds the text extracted from file `k`. */
  lemma {:induction false} FileBlocksAt(files: seq<Attachment>, maxChars: nat, k: nat)
    requires k < |files|
    ensures FileBlocks(files, maxChars)[k] == FileBlock(files[k].filename, FileText(files[k], maxChars))
  {
    if k < |files| - 1 {
      var init := files[..|files| - 1];
      FileBlocksAt(init, maxChars, k);
      assert init[k] == files[k];
    }
  }

  /** The blocks of the first i + 1 files are those of the first i and the block of file i. */
  lemma FileBlocksSnoc(files: seq<Attachment>, i: nat, maxChars: nat)
    requires i < |files|
    ensures FileBlocks(files[..i + 1], maxChars) == FileBlocks(files[..i], maxChars) + [FileBlock(files[i].filename, FileText(files[i], maxChars))]
  {
    assert files[..i + 1][..i] == files[..i];
  }

  /** Extracts every file and formats its block, in input order. */
  method ReadBlocks(files: seq<Attachment>, maxChars: nat) returns (blocks: seq<string>)
    ensures blocks == FileBlocks(files, maxChars)
  {
    blocks := [];
    for i := 0 to |files|
      invariant blocks == FileBlocks(files[..i], maxChars)
    {
      var block := ReadBlock(files, i, maxChars);
      FileBlocksSnoc(files, i, maxChars);
      blocks := blocks + [block];
    }
    assert files[..|files|] == files;
  }

  /** Extracts file `i` and formats its block. */
  method ReadBlock(files: seq<Attachment>, i: nat, maxChars: nat) returns (block: string)
    requires i < |files|
    ensures block == FileBlock(files[i].filename, FileText(files[i], maxChars))
  {
    var content := ExtractTextFromFile(files[i], maxChars);
    block := FileBlock(files[i].filename, content);
  }

  /** The budget loop of `extract_text_from_files` over the blocks. */
  method BudgetBlocks(names: seq<string>, blocks: seq<string>, maxTotal: nat) returns (added: seq<string>)
    requires |names| == |blocks|
    ensures added == BlocksFrom(names, blocks, 0, 0, maxTotal)
  {
    ghost var full := BlocksFrom(names, blocks, 0, 0, maxTotal);
    added := [];
    var total: nat := 0;
    var i := 0;
    while i < |blocks|
      invariant i <= |blocks| && total <= maxTotal
      invariant full == added + BlocksFrom(names, blocks, i, total, maxTotal)
    {
      var block := blocks[i];
      if total + |block| > maxTotal {
        var remaining := maxTotal - total;
        if remaining > 100 {
          block := block[..remaining] + FilesOmitted;
          added := added + [block];
        } else {
          added := added + [OmittedBlock(names[i])];
        }
        return;
      }
      added := added + [block];
      total := total + |block|;
      i := i + 1;
    }
  }

  /** `extract_text_from_files(files_info)`, with the per-file budget
      `maxChars` and the total budget `maxTotal`. */
  method ExtractTextFromFiles(files: seq<Attachment>, maxChars: nat, maxTotal: nat) returns (context: string)
    ensures context == AttachmentsContext(Names(files), FileBlocks(files, maxChars), maxTotal)
  {
    if files == [] {
      return "";
    }
    var names := seq(|files|, k requires 0 <= k < |files| => files[k].filename);
    var blocks := ReadBlocks(files, maxChars);
    var added := BudgetBlocks(names, blocks, maxTotal);
    context := Join([AttachmentsHeader] + added, "\n");
  }
}
