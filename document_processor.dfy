/**
  The document processor of src/core/document_processor.py: which files it accepts, how it turns
  a file into documents and what it reports about a file. The filesystem is not consulted: a
  file is given by its path, whether it exists and its size in bytes.
*/
module DocumentProcessor {
  import opened Common
  import opened Text

  /** A loaded document: its text and its metadata (llama_index `Document`). */
  datatype Document = Document(text: string, metadata: StringMap)

  /** What the filesystem says about a path: `Path.exists()` and `Path.stat().st_size`. */
  datatype FileStat = FileStat(path: string, present: bool, size: nat)

  /** What `get_file_info` reports. */
  datatype FileInfo =
    | FileNotFound(error: string)
    | Info(name: string, size: nat, extension: string, isValid: bool)

  const SupportedExtensions: set<string> := {".pdf", ".txt", ".docx"}
  const MaxFileSize: nat := 100 * 1024 * 1024

  /** `Path.name`: the last component of the path. */
  function PathName(path: string): (name: string)
    ensures '/' !in name && |name| <= |path| && name == path[|path| - |name|..]
  {
    BaseName(path)
  }

  /**
    `Path.suffix`: from the last '.' of the name to its end, provided that dot is neither the
    first nor the last character of the name; otherwise the empty string.
  */
  function Suffix(name: string): (sfx: string)
    ensures sfx == "" || (sfx[0] == '.' && '.' !in sfx[1..] && |sfx| >= 2)
    ensures sfx != "" ==> |sfx| < |name| && name[|name| - |sfx|..] == sfx
  {
    match LastIndexOf(name, '.')
    case None => ""
    case Some(i) => if 0 < i < |name| - 1 then name[i..] else ""
  }

  /** The lowercased suffix of the file's name: the `extension` of `get_file_info`. */
  function Extension(f: FileStat): (ext: string)
    ensures ext == "" || (ext[0] == '.' && |ext| >= 2)
    ensures forall i :: 0 <= i < |ext| ==> !('A' <= ext[i] <= 'Z')
  {
    Lower(Suffix(PathName(f.path)))
  }

  /**
    `validate_file`: the file exists, its lowercased suffix is a supported one, and it is
    at most 100 MiB long. The three tests are made in that order; the order only decides
    which reason is logged.
  */
  function ValidateFile(f: FileStat): (ok: bool)
    ensures !f.present ==> !ok
    ensures Extension(f) !in SupportedExtensions ==> !ok
    ensures f.size > MaxFileSize ==> !ok
    ensures f.present && Extension(f) in SupportedExtensions && f.size <= MaxFileSize ==> ok
  {
    if !f.present then false
    else if Extension(f) !in SupportedExtensions then false
    else if f.size > MaxFileSize then false
    else true
  }

  /**
    `_process_text_file`: one document holding the whole text, tagged with the file's name,
    its path and the type "text"; `read` is the outcome of reading the file as UTF-8, and a
    read that raised yields no document.
  */
  function ProcessTextFile(f: FileStat, read: Result<string>): (docs: seq<Document>)
    ensures read.Err? ==> docs == []
    ensures read.Ok? ==> |docs| == 1 && docs[0].text == read.value
    ensures read.Ok? ==> "file_type" in docs[0].metadata && docs[0].metadata["file_type"] == "text"
    ensures read.Ok? ==> "file_name" in docs[0].metadata && docs[0].metadata["file_name"] == PathName(f.path)
    ensures read.Ok? ==> "file_path" in docs[0].metadata && docs[0].metadata["file_path"] == f.path
  {
    match read
    case Err(_) => []
    case Ok(text) =>
      [Document(text, map["file_name" := PathName(f.path), "file_path" := f.path, "file_type" := "text"])]
  }

  /**
    `process_file`: an invalid file yields nothing; a valid `.pdf` yields what the PDF reader
    returns (`pdfPages`, nothing when it raised); a valid `.txt` is read as one text document;
    any other valid file (a `.docx`) yields nothing.
  */
  function ProcessFile(f: FileStat, pdfPages: Result<seq<Document>>, read: Result<string>): (docs: seq<Document>)
    ensures !ValidateFile(f) ==> docs == []
    ensures docs != [] ==> Extension(f) == ".pdf" || Extension(f) == ".txt"
    ensures ValidateFile(f) && Extension(f) == ".pdf" ==> docs == (if pdfPages.Ok? then pdfPages.value else [])
    ensures ValidateFile(f) && Extension(f) == ".txt" ==> docs == ProcessTextFile(f, read)
  {
    if !ValidateFile(f) then []
    else if Extension(f) == ".pdf" then (match pdfPages case Ok(pages) => pages case Err(_) => [])
    else if Extension(f) == ".txt" then ProcessTextFile(f, read)
    else []
  }

  /** `get_file_info`: an error for a missing file, otherwise its name, size, extension and validity. */
  function GetFileInfo(f: FileStat): (info: FileInfo)
    ensures !f.present <==> info == FileNotFound("File not found")
    ensures f.present ==> info.Info? && info.name == PathName(f.path) && info.size == f.size
    ensures f.present ==> info.Info? && info.extension == Extension(f) && info.isValid == ValidateFile(f)
  {
    if !f.present then FileNotFound("File not found")
    else Info(PathName(f.path), f.size, Extension(f), ValidateFile(f))
  }

  /** A file of exactly 100 MiB with a supported suffix is accepted; one byte more is refused. */
  lemma SizeLimitIsInclusive(f: FileStat)
    requires f.present && Extension(f) in SupportedExtensions
    ensures f.size == MaxFileSize ==> ValidateFile(f)
    ensures f.size == MaxFileSize + 1 ==> !ValidateFile(f)
  {
  }

  /** A valid Word document is accepted by `validate_file` yet produces no document. */
  lemma {:induction false} DocxIsValidButYieldsNothing(f: FileStat, pdfPages: Result<seq<Document>>, read: Result<string>)
    requires f.present && f.size <= MaxFileSize && Extension(f) == ".docx"
    ensures ValidateFile(f)
    ensures ProcessFile(f, pdfPages, read) == []
  {
  }

  /** A readable `.txt` file yields exactly one document that carries its name. */
  lemma ValidTextFileYieldsOneDocument(f: FileStat, pdfPages: Result<seq<Document>>, text: string)
    requires ValidateFile(f) && Extension(f) == ".txt"
    ensures ProcessFile(f, pdfPages, Ok(text)) == [Document(text, map["file_name" := PathName(f.path), "file_path" := f.path, "file_type" := "text"])]
  {
  }

  /**
    `Path.suffix` of a name ending in ".PDF" after at least one other character is ".PDF",
    and it lowercases to a supported extension.
  */
  lemma {:induction false} UpperCasePdfIsSupported()
    ensures Lower(Suffix("Report.PDF")) == ".pdf"
    ensures Suffix(".pdf") == ""
    ensures Suffix("archive.") == ""
  {
    assert LastIndexOf("Report.PDF", '.') == Some(6) by {
      LastIndexUnique("Report.PDF", '.', 6);
    }
    assert LastIndexOf(".pdf", '.') == Some(0) by {
      LastIndexUnique(".pdf", '.', 0);
    }
    assert LastIndexOf("archive.", '.') == Some(7);
    assert "Report.PDF"[6..] == ".PDF";
  }
}
