/** `DocumentProcessor` (`modules/rag/document_processor.py`): turns an
    uploaded PDF, TXT or CSV file into document records and hands them to the
    text splitter. The PDF reader, the text reader, the CSV parser and the
    splitter are libraries and come in as functions. */
module DocumentProcessing {
  import opened Wrappers
  import opened Text
  import opened Documents
  import opened Disk

  /** A parsed CSV file: column names and, per row, the rendered cell values. */
  datatype Table = Table(columns: seq<string>, rows: seq<seq<string>>)

  /** A data frame is rectangular: every row has one cell per column. */
  type Frame = t: Table | forall i :: 0 <= i < |t.rows| ==> |t.rows[i]| == |t.columns|
    witness Table([], [])

  /** The libraries the processor calls. */
  datatype Readers = Readers(
    /** PyPDF2: the text of each page in turn; an `Err` stands for the
        exception that ends the iteration (a file that does not open is `[Err]`). */
    pdfPages: Bytes -> seq<Result<string>>,
    /** `open(path, 'r', encoding='utf-8').read()`. */
    readText: Bytes -> Result<string>,
    /** `pandas.read_csv`. */
    readCsv: Bytes -> Result<Frame>,
    /** `RecursiveCharacterTextSplitter.split_documents`. */
    split: seq<Document> -> seq<Document>)

  /** A Streamlit uploaded file: its name and its bytes. */
  datatype Upload = Upload(name: string, data: Bytes)

  const UnsupportedPrefix: string := "サポートされていないファイル形式: "

  /** Where an upload is staged while it is read. */
  function TempPath(name: string): string {
    "./data/temp_" + name
  }

  /** `os.path.basename`: the text after the last `/`, or the whole path
      when it has none. */
  function Basename(path: string): (r: string)
    ensures |r| <= |path| && path[|path| - |r|..] == r && '/' !in r
    ensures |r| < |path| ==> path[|path| - |r| - 1] == '/'
  {
    LastSplit(path, '/');
    Last(Split(path, '/'))
  }

  /** `name.split('.')[-1].lower()`: the text after the last dot, or the whole
      name when it has none, lower-cased. */
  function FileExtension(name: string): (r: string)
    ensures |r| <= |name| && r == Lower(name[|name| - |r|..]) && '.' !in name[|name| - |r|..]
    ensures |r| < |name| ==> name[|name| - |r| - 1] == '.'
  {
    LastSplit(name, '.');
    Lower(Last(Split(name, '.')))
  }

  /** A dotless name is its own extension, lower-cased. */
  lemma ExtensionOfDotlessName(name: string)
    requires '.' !in name
    ensures FileExtension(name) == Lower(name)
  {
    LastSplitNoSeparator(name, '.');
  }

  /** The extension is what follows the last dot, lower-cased. */
  lemma ExtensionAfterLastDot(stem: string, ext: string)
    requires '.' !in ext
    ensures FileExtension(stem + "." + ext) == Lower(ext)
  {
    assert stem + "." + ext == stem + ['.'] + ext;
    LastSplitAfter(stem, ext, '.');
  }

  /** The source name the readers record is the staged file's name. */
  lemma SourceOfStagedFile(name: string)
    requires '/' !in name
    ensures Basename(TempPath(name)) == "temp_" + name
  {
    var tail := "temp_" + name;
    assert TempPath(name) == "." + ['/'] + ("data" + ['/'] + tail);
    SplitAppend(".", "data" + ['/'] + tail, '/');
    SplitAppend("data", tail, '/');
    SplitNoSeparator(tail, '/');
  }

  // ---------------------------------------------------------------- PDF

  predicate AllRead(pages: seq<Result<string>>) {
    forall i :: 0 <= i < |pages| ==> pages[i].Ok?
  }

  /** The record of a PDF page; `page` is 1-based. */
  function PdfPage(source: string, text: string, page: int): Document {
    Record(text, source, page, "pdf")
  }

  /** The records `process_pdf` collects: one per page that has non-blank
      text, up to the first page whose extraction fails. */
  function PdfRecords(source: string, pages: seq<Result<string>>): (r: seq<Document>)
    ensures |r| <= |pages|
    ensures AllRead(pages) && (forall i | 0 <= i < |pages| :: !IsBlank(pages[i].value)) ==> |r| == |pages|
  {
    if |pages| == 0 then []
    else
      var n := |pages|;
      var before := PdfRecords(source, pages[..n - 1]);
      if !AllRead(pages) || IsBlank(pages[n - 1].value) then before
      else before + [PdfPage(source, pages[n - 1].value, n)]
  }

  /** The `page` number recorded in a document (0 when there is none). */
  function PageOf(d: Document): int {
    if "page" in d.metadata && d.metadata["page"].Int? then d.metadata["page"].number else 0
  }

  /** `d` is the record of a readable, non-blank page, under its 1-based
      page number. */
  predicate FromReadablePage(source: string, pages: seq<Result<string>>, d: Document) {
    var p := PageOf(d);
    && 1 <= p <= |pages| && AllRead(pages[..p]) && !IsBlank(pages[p - 1].value)
    && d == PdfPage(source, pages[p - 1].value, p)
  }

  /** Every PDF record is a readable, non-blank page, recorded under its
      1-based page number, and the pages appear in increasing order. */
  lemma {:induction false} PdfRecordsSound(source: string, pages: seq<Result<string>>)
    ensures forall k :: 0 <= k < |PdfRecords(source, pages)| ==>
      FromReadablePage(source, pages, PdfRecords(source, pages)[k])
    ensures forall k1, k2 :: 0 <= k1 < k2 < |PdfRecords(source, pages)| ==>
      PageOf(PdfRecords(source, pages)[k1]) < PageOf(PdfRecords(source, pages)[k2])
  {
    if |pages| > 0 {
      var n := |pages|;
      var init := pages[..n - 1];
      PdfRecordsSound(source, init);
      var before := PdfRecords(source, init);
      forall k | 0 <= k < |before|
        ensures FromReadablePage(source, pages, before[k]) && PageOf(before[k]) < n
      {
        var p := PageOf(before[k]);
        assert FromReadablePage(source, init, before[k]);
        assert pages[..p] == init[..p];
        assert pages[p - 1] == init[p - 1];
      }
      if AllRead(pages) && !IsBlank(pages[n - 1].value) {
        var last := PdfPage(source, pages[n - 1].value, n);
        assert pages[..n] == pages;
        assert FromReadablePage(source, pages, last);
      }
    }
  }

  /** Every readable, non-blank page before the first failure has a record. */
  lemma {:induction false} PdfRecordsComplete(source: string, pages: seq<Result<string>>, p: int)
    requires 1 <= p <= |pages| && AllRead(pages[..p]) && !IsBlank(pages[p - 1].value)
    ensures PdfPage(source, pages[p - 1].value, p) in PdfRecords(source, pages)
  {
    var n := |pages|;
    if p < n {
      var init := pages[..n - 1];
      assert init[..p] == pages[..p];
      PdfRecordsComplete(source, init, p);
    } else {
      assert pages[..p] == pages;
    }
  }

  /** Pages after the first failure are never looked at. */
  lemma {:induction false} PdfRecordsStopAtFailure(source: string, pages: seq<Result<string>>, i: int)
    requires 0 <= i < |pages| && pages[i].Err?
    ensures PdfRecords(source, pages) == PdfRecords(source, pages[..i])
  {
    var n := |pages|;
    if i < n - 1 {
      assert pages[..n - 1][i] == pages[i];
      assert pages[..n - 1][..i] == pages[..i];
      PdfRecordsStopAtFailure(source, pages[..n - 1], i);
    } else {
      assert pages[..n - 1] == pages[..i];
    }
  }

  /** The bytes of a file, as the library that opens it sees them. */
  function PdfPagesAt(files: map<string, Blob>, path: string, readers: Readers): seq<Result<string>> {
    match ReadBytes(files, path)
    case Ok(b) => readers.pdfPages(b)
    case Err(e) => [Err(e)]
  }

  /** `process_pdf`: the loop over the pages; an extraction error ends it and
      is swallowed, and the records collected so far are still split. */
  method ProcessPdf(fs: FileSystem, path: string, readers: Readers) returns (docs: seq<Document>)
    ensures docs == readers.split(PdfRecords(Basename(path), PdfPagesAt(fs.files, path, readers)))
  {
    var pages := PdfPagesAt(fs.files, path, readers);
    var filename := Basename(path);
    var documents: seq<Document> := [];
    var i := 0;
    while i < |pages|
      invariant 0 <= i <= |pages|
      invariant AllRead(pages[..i])
      invariant documents == PdfRecords(filename, pages[..i])
    {
      if pages[i].Err? {
        PdfRecordsStopAtFailure(filename, pages, i);
        break;
      }
      var text := pages[i].value;
      assert pages[..i + 1][..i] == pages[..i];
      if !IsBlank(text) {
        documents := documents + [PdfPage(filename, text, i + 1)];
      }
      i := i + 1;
    }
    if i == |pages| {
      assert pages[..i] == pages;
    }
    docs := readers.split(documents);
  }

  // ---------------------------------------------------------------- TXT

  /** `process_txt`: the whole text is one record on page 1; a read error
      gives no record. */
  function TxtRecords(source: string, text: Result<string>): (r: seq<Document>)
    ensures text.Ok? ==> |r| == 1 && r[0].pageContent == text.value && PageOf(r[0]) == 1
    ensures text.Err? ==> r == []
  {
    match text
    case Ok(content) => [Record(content, source, 1, "txt")]
    case Err(_) => []
  }

  function TextAt(files: map<string, Blob>, path: string, readers: Readers): Result<string> {
    match ReadBytes(files, path)
    case Ok(b) => readers.readText(b)
    case Err(e) => Err(e)
  }

  method ProcessTxt(fs: FileSystem, path: string, readers: Readers) returns (docs: seq<Document>)
    ensures docs == readers.split(TxtRecords(Basename(path), TextAt(fs.files, path, readers)))
  {
    var filename := Basename(path);
    var documents: seq<Document> := [];
    var text := TextAt(fs.files, path, readers);
    if text.Ok? {
      documents := [Record(text.value, filename, 1, "txt")];
    }
    docs := readers.split(documents);
  }

  // ---------------------------------------------------------------- CSV

  /** The line `"col: value"` of one cell. */
  function CellLine(column: string, value: string): string {
    column + ": " + value
  }

  /** The text of a CSV row: one `"col: value"` line per column, in header
      order, joined by newlines. */
  function RowText(columns: seq<string>, row: seq<string>): (r: string)
    requires |row| == |columns|
    ensures |columns| == 0 ==> r == ""
    ensures forall j | 0 <= j < |columns| :: Contains(r, CellLine(columns[j], row[j]))
  {
    var lines := seq(|columns|, j requires 0 <= j < |columns| => CellLine(columns[j], row[j]));
    JoinContains("\n", lines);
    assert forall j | 0 <= j < |columns| :: lines[j] == CellLine(columns[j], row[j]);
    Join("\n", lines)
  }

  /** Splitting a row's text at its newlines gives back one line per column,
      in header order, when no name or value holds a newline. */
  lemma RowTextLines(columns: seq<string>, row: seq<string>)
    requires |row| == |columns| >= 1
    requires forall j :: 0 <= j < |columns| ==> '\n' !in columns[j] && '\n' !in row[j]
    ensures var lines := Split(RowText(columns, row), '\n');
      |lines| == |columns| && forall j :: 0 <= j < |columns| ==> lines[j] == CellLine(columns[j], row[j])
  {
    var lines := seq(|columns|, j requires 0 <= j < |columns| => CellLine(columns[j], row[j]));
    forall j | 0 <= j < |columns| ensures '\n' !in lines[j] {
      assert lines[j] == columns[j] + ": " + row[j];
    }
    SplitJoin(lines, '\n');
  }

  /** The record of CSV row `index` (0-based): `page` is `index + 1` while
      `row_index` is `index`. */
  function CsvRecord(source: string, text: string, index: int): (r: Document)
    ensures r.pageContent == text && PageOf(r) == index + 1
    ensures MetaGet(r.metadata, "row_index", Int(-1)) == Int(index)
    ensures MetaGet(r.metadata, "source", Str("")) == Str(source)
  {
    Document(text, map["source" := Str(source), "page" := Int(index + 1),
                       "file_type" := Str("csv"), "row_index" := Int(index)])
  }

  /** `process_csv`: one record per row, in row order; a parse error gives none. */
  function CsvRecords(source: string, table: Result<Frame>): (r: seq<Document>)
    ensures table.Err? ==> r == []
    ensures table.Ok? ==> |r| == |table.value.rows|
    ensures table.Ok? ==> forall i :: 0 <= i < |r| ==>
      && r[i].pageContent == RowText(table.value.columns, table.value.rows[i])
      && PageOf(r[i]) == i + 1 && "row_index" in r[i].metadata && r[i].metadata["row_index"] == Int(i)
  {
    match table
    case Err(_) => []
    case Ok(t) =>
      seq(|t.rows|, i requires 0 <= i < |t.rows| => CsvRecord(source, RowText(t.columns, t.rows[i]), i))
  }

  function FrameAt(files: map<string, Blob>, path: string, readers: Readers): Result<Frame> {
    match ReadBytes(files, path)
    case Ok(b) => readers.readCsv(b)
    case Err(e) => Err(e)
  }

  method ProcessCsv(fs: FileSystem, path: string, readers: Readers) returns (docs: seq<Document>)
    ensures docs == readers.split(CsvRecords(Basename(path), FrameAt(fs.files, path, readers)))
  {
    var filename := Basename(path);
    var documents: seq<Document> := [];
    var table := FrameAt(fs.files, path, readers);
    if table.Ok? {
      var df := table.value;
      var index := 0;
      while index < |df.rows|
        invariant 0 <= index <= |df.rows|
        invariant |documents| == index
        invariant forall i :: 0 <= i < index ==> documents[i] == CsvRecord(filename, RowText(df.columns, df.rows[i]), i)
      {
        var textContent := RowText(df.columns, df.rows[index]);
        documents := documents + [CsvRecord(filename, textContent, index)];
        index := index + 1;
      }
      assert documents == CsvRecords(filename, table);
    }
    docs := readers.split(documents);
  }

  // ---------------------------------------------------------------- dispatch

  /** What `process_uploaded_file` returns for an upload: the split records of
      the reader its extension selects, or the unsupported-format error. */
  function Ingest(file: Upload, readers: Readers): (r: Result<seq<Document>>)
    ensures r.Err? <==> FileExtension(file.name) !in {"pdf", "txt", "csv"}
    ensures r.Err? ==> r.message == UnsupportedPrefix + FileExtension(file.name)
  {
    var ext := FileExtension(file.name);
    var source := Basename(TempPath(file.name));
    if ext == "pdf" then Ok(readers.split(PdfRecords(source, readers.pdfPages(file.data))))
    else if ext == "txt" then Ok(readers.split(TxtRecords(source, readers.readText(file.data))))
    else if ext == "csv" then Ok(readers.split(CsvRecords(source, readers.readCsv(file.data))))
    else Err(UnsupportedPrefix + ext)
  }

  /** The staged file reads back as the uploaded bytes, and removing it
      leaves the files as they were before, less that path. */
  lemma Staged(files: map<string, Blob>, path: string, data: Bytes)
    ensures ReadBytes(files[path := Bytes(data)], path) == Ok(data)
    ensures files[path := Bytes(data)] - {path} == files - {path}
  {
  }

  /** `process_uploaded_file`: stage the bytes in a temporary file, dispatch on
      the extension, and remove the temporary file on every exit path. */
  method ProcessUploadedFile(fs: FileSystem, file: Upload, readers: Readers) returns (r: Result<seq<Document>>)
    modifies fs
    ensures r == Ingest(file, readers)
    ensures fs.files == old(fs.files) - {TempPath(file.name)}
  {
    var ext := FileExtension(file.name);
    var tempPath := TempPath(file.name);
    Staged(fs.files, tempPath, file.data);
    fs.files := fs.files[tempPath := Bytes(file.data)];
    if ext == "pdf" {
      var documents := ProcessPdf(fs, tempPath, readers);
      r := Ok(documents);
    } else if ext == "txt" {
      var documents := ProcessTxt(fs, tempPath, readers);
      r := Ok(documents);
    } else if ext == "csv" {
      var documents := ProcessCsv(fs, tempPath, readers);
      r := Ok(documents);
    } else {
      r := Err(UnsupportedPrefix + ext);
    }
    // finally: the staged file is removed whatever happened above
    if tempPath in fs.files {
      fs.files := fs.files - {tempPath};
    }
  }
}
