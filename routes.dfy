/**
  The decision logic of the Flask handlers in src/api/routes.py: which file names are allowed,
  which uploads are kept, which status code each handler answers with, and the module-global
  query engine cache. Requests, the filesystem, the index builder and the query engine are
  replaced by the values they would produce.
*/
module Routes {
  import opened Common
  import opened Text
  import DocumentProcessor

  const AllowedExtensions: set<string> := {"pdf", "txt", "docx"}
  const MaxFileSize: nat := 100 * 1024 * 1024

  const NoFilesProvided := "No files provided"
  const NoValidFilesUploaded := "No valid files uploaded"
  const NoValidFilesInDataDir := "No valid files found in data directory"
  const NoQueryProvided := "No query provided"
  const EngineNotInitialized := "Query engine not initialized. Please build index first."

  /** `s[i]` is the last '.' of `s`. */
  ghost predicate LastDotAt(s: string, i: int)
    requires 0 <= i < |s|
  {
    s[i] == '.' && forall j :: i < j < |s| ==> s[j] != '.'
  }

  /** `allowed_file`: the text after the last '.', lowercased, is an allowed extension. */
  function AllowedFile(filename: string): (ok: bool)
    ensures ok ==> '.' in filename
  {
    match LastIndexOf(filename, '.')
    case None => false
    case Some(i) => Lower(filename[i + 1..]) in AllowedExtensions
  }

  /** A name is allowed exactly when it has a last dot and what follows it lowercases to pdf, txt or docx. */
  lemma AllowedFileIff(filename: string)
    ensures AllowedFile(filename) <==>
      exists i :: 0 <= i < |filename| && LastDotAt(filename, i) && Lower(filename[i + 1..]) in AllowedExtensions
  {
    if i :| 0 <= i < |filename| && LastDotAt(filename, i) && Lower(filename[i + 1..]) in AllowedExtensions {
      LastIndexUnique(filename, '.', i);
    }
    match LastIndexOf(filename, '.')
    case None =>
    case Some(i) => assert LastDotAt(filename, i);
  }

  /** Case is ignored and only the last extension counts; a bare extension or a trailing dot is refused. */
  lemma {:induction false} AllowedFileExamples()
    ensures AllowedFile("A.PDF")
    ensures AllowedFile("x.tar.pdf")
    ensures !AllowedFile("pdf")
    ensures !AllowedFile("a.")
  {
    LastIndexUnique("A.PDF", '.', 1);
    assert "A.PDF"[2..] == "PDF";
    assert Lower("PDF") == "pdf";
    LastIndexUnique("x.tar.pdf", '.', 5);
    assert "x.tar.pdf"[6..] == "pdf";
    assert Lower("pdf") == "pdf";
    LastIndexUnique("a.", '.', 1);
    assert "a."[2..] == "";
  }

  /** The elements of `s` that satisfy `keep`, in order: the lists the handlers build by appending. */
  function Filter<T>(s: seq<T>, keep: T -> bool): (r: seq<T>)
    ensures |r| <= |s|
  {
    if s == [] then []
    else Filter(s[..|s| - 1], keep) + (if keep(s[|s| - 1]) then [s[|s| - 1]] else [])
  }

  /** `a` can be obtained from `b` by deleting elements. */
  ghost predicate IsSubsequence<T>(a: seq<T>, b: seq<T>) {
    if b == [] then a == []
    else
      (a != [] && a[|a| - 1] == b[|b| - 1] && IsSubsequence(a[..|a| - 1], b[..|b| - 1]))
      || IsSubsequence(a, b[..|b| - 1])
  }

  /** A filtered list keeps the order of the input and holds exactly the elements that pass. */
  lemma {:induction false} FilterIsOrderedSelection<T>(s: seq<T>, keep: T -> bool)
    ensures IsSubsequence(Filter(s, keep), s)
    ensures forall x :: x in Filter(s, keep) <==> x in s && keep(x)
  {
    if s != [] {
      var init, last := s[..|s| - 1], s[|s| - 1];
      FilterIsOrderedSelection(init, keep);
      var r := Filter(s, keep);
      assert forall x :: x in s <==> x in init || x == last;
      if keep(last) {
        assert r == Filter(init, keep) + [last];
        assert r != [] && r[|r| - 1] == last;
        assert r[..|r| - 1] == Filter(init, keep);
        assert IsSubsequence(r, s);
      } else {
        assert r == Filter(init, keep);
        assert IsSubsequence(r, s);
      }
    }
  }

  /**
    What `request.get_json()` gives the `query` handler. It raises when the request is not JSON
    or its body does not parse (Flask's 400 or 415 error, which the handler's `except` turns
    into a 500 carrying its text); otherwise it gives the parsed object, `None` standing for a
    JSON `null`.
  */
  datatype JsonRequest = NotJson(error: string) | Json(data: Option<StringMap>)

  /** The parsed body is an object with a `query` key. */
  predicate HasQuery(body: JsonRequest) {
    body.Json? && body.data.Some? && "query" in body.data.value
  }

  /** One file of the `files` field of an upload: its name and its size in bytes. */
  datatype Upload = Upload(filename: string, size: nat)

  /**
    The upload loop keeps a file when it is truthy (a werkzeug FileStorage is truthy exactly when
    it has a file name), its name is allowed and it is at most 100 MiB long.
  */
  predicate Admitted(f: Upload) {
    f.filename != "" && AllowedFile(f.filename) && f.size <= MaxFileSize
  }

  /** An upload of exactly 100 MiB with an allowed name is kept; one byte more is skipped. */
  lemma SizeLimitIsInclusive(name: string)
    requires AllowedFile(name)
    ensures Admitted(Upload(name, MaxFileSize))
    ensures !Admitted(Upload(name, MaxFileSize + 1))
  {
  }

  /** The names recorded for the kept files: `secure_filename` of each, in input order. */
  function SecuredNames(files: seq<Upload>, secure: string -> string): (names: seq<string>)
    ensures |names| == |files|
    ensures forall i :: 0 <= i < |files| ==> names[i] == secure(files[i].filename)
  {
    seq(|files|, i requires 0 <= i < |files| => secure(files[i].filename))
  }

  /**
    The upload loop of `upload_and_index`: `uploaded_files` receives the secured name of every
    kept file, in input order. Saving the file to the data directory is not modelled.
  */
  method SaveAdmittedUploads(files: seq<Upload>, secure: string -> string) returns (uploaded: seq<string>)
    ensures uploaded == SecuredNames(Filter(files, Admitted), secure)
  {
    uploaded := [];
    for i := 0 to |files|
      invariant uploaded == SecuredNames(Filter(files[..i], Admitted), secure)
    {
      assert files[..i + 1][..i] == files[..i];
      var file := files[i];
      if file.filename != "" && AllowedFile(file.filename) {
        var fileSize := file.size;
        if fileSize > MaxFileSize {
          continue;
        }
        var filename := secure(file.filename);
        uploaded := uploaded + [filename];
      }
    }
    assert files[..|files|] == files;
  }

  /** The walk loop of `build_index`: every file name under the data directory that is allowed, in walk order. */
  method CollectDataFiles(names: seq<string>) returns (dataFiles: seq<string>)
    ensures dataFiles == Filter(names, AllowedFile)
  {
    dataFiles := [];
    for i := 0 to |names|
      invariant dataFiles == Filter(names[..i], AllowedFile)
    {
      assert names[..i + 1][..i] == names[..i];
      if AllowedFile(names[i]) {
        dataFiles := dataFiles + [names[i]];
      }
    }
    assert names[..|names|] == names;
  }

  /** A loaded query engine; only its identity matters here. */
  datatype QueryEngine = QueryEngine(handle: nat)

  /** The JSON bodies the handlers return. */
  datatype Body =
    | Failure(error: string)
    | Built(filesProcessed: seq<string>)
    | Uploaded(uploadedFiles: seq<string>)
    | Answer(response: string)

  datatype Response = Response(status: nat, body: Body)

  /** The module state of routes.py: the global `query_engine`, loaded once and reset on rebuild. */
  class Server {
    var queryEngine: Option<QueryEngine>

    constructor ()
      ensures queryEngine == None
    {
      queryEngine := None;
    }

    /**
      `get_query_engine`: the cached engine if there is one; otherwise `loaded` (the outcome of
      `load_query_engine`, None when it raised), which is cached when it succeeded.
    */
    method GetQueryEngine(loaded: Option<QueryEngine>) returns (engine: Option<QueryEngine>)
      modifies this
      ensures old(queryEngine).Some? ==> engine == old(queryEngine) && queryEngine == old(queryEngine)
      ensures old(queryEngine).None? ==> engine == loaded && queryEngine == loaded
    {
      if queryEngine.None? {
        if loaded.None? {
          return None;
        }
        queryEngine := loaded;
      }
      engine := queryEngine;
    }

    /**
      `build_index`: 400 when no file of the data directory is allowed; 500 with the error when
      building the index raises; otherwise the engine is reloaded (a failed reload is ignored)
      and the allowed files are reported.
    */
    method BuildIndex(dataDirFiles: seq<string>, buildError: Option<string>, loaded: Option<QueryEngine>)
      returns (resp: Response)
      modifies this
      ensures Filter(dataDirFiles, AllowedFile) == [] ==>
        resp == Response(400, Failure(NoValidFilesInDataDir)) && queryEngine == old(queryEngine)
      ensures Filter(dataDirFiles, AllowedFile) != [] && buildError.Some? ==>
        resp == Response(500, Failure(buildError.value)) && queryEngine == old(queryEngine)
      ensures Filter(dataDirFiles, AllowedFile) != [] && buildError.None? ==>
        resp == Response(200, Built(Filter(dataDirFiles, AllowedFile))) && queryEngine == loaded
    {
      var dataFiles := CollectDataFiles(dataDirFiles);
      if dataFiles == [] {
        return Response(400, Failure(NoValidFilesInDataDir));
      }
      if buildError.Some? {
        return Response(500, Failure(buildError.value));
      }
      queryEngine := None;
      var _ := GetQueryEngine(loaded);
      resp := Response(200, Built(dataFiles));
    }

    /**
      `upload_and_index`: 400 when the request has no `files` field, 400 when no file is kept,
      500 when rebuilding raises; otherwise the engine is reloaded and the kept names reported.
    */
    method UploadAndIndex(files: Option<seq<Upload>>, secure: string -> string, buildError: Option<string>,
                          loaded: Option<QueryEngine>)
      returns (resp: Response)
      modifies this
      ensures files.None? ==> resp == Response(400, Failure(NoFilesProvided)) && queryEngine == old(queryEngine)
      ensures files.Some? && Filter(files.value, Admitted) == [] ==>
        resp == Response(400, Failure(NoValidFilesUploaded)) && queryEngine == old(queryEngine)
      ensures files.Some? && Filter(files.value, Admitted) != [] && buildError.Some? ==>
        resp == Response(500, Failure(buildError.value)) && queryEngine == old(queryEngine)
      ensures files.Some? && Filter(files.value, Admitted) != [] && buildError.None? ==>
        resp == Response(200, Uploaded(SecuredNames(Filter(files.value, Admitted), secure))) && queryEngine == loaded
    {
      if files.None? {
        return Response(400, Failure(NoFilesProvided));
      }
      var uploadedFiles := SaveAdmittedUploads(files.value, secure);
      if uploadedFiles == [] {
        return Response(400, Failure(NoValidFilesUploaded));
      }
      if buildError.Some? {
        return Response(500, Failure(buildError.value));
      }
      queryEngine := None;
      var _ := GetQueryEngine(loaded);
      resp := Response(200, Uploaded(uploadedFiles));
    }

    /**
      `query`: 500 when `get_json()` raises; 400 when the JSON is `null` or has no `query`; then
      503 when no engine can be had; then the engine's answer, or 500 when answering raises.
    */
    method Query(body: JsonRequest, loaded: Option<QueryEngine>, answer: (QueryEngine, string) -> Result<string>)
      returns (resp: Response)
      modifies this
      ensures body.NotJson? ==> resp == Response(500, Failure(body.error)) && queryEngine == old(queryEngine)
      ensures body.Json? && (body.data.None? || "query" !in body.data.value) ==>
        resp == Response(400, Failure(NoQueryProvided)) && queryEngine == old(queryEngine)
      ensures HasQuery(body) && old(queryEngine).None? && loaded.None? ==>
        resp == Response(503, Failure(EngineNotInitialized)) && queryEngine == None
      ensures HasQuery(body) && (old(queryEngine).Some? || loaded.Some?) ==>
        var engine := if old(queryEngine).Some? then old(queryEngine).value else loaded.value;
        && queryEngine == Some(engine)
        && resp == match answer(engine, body.data.value["query"])
                   case Ok(text) => Response(200, Answer(text))
                   case Err(e) => Response(500, Failure(e))
    {
      if body.NotJson? {
        return Response(500, Failure(body.error));
      }
      if body.data.None? || "query" !in body.data.value {
        return Response(400, Failure(NoQueryProvided));
      }
      var queryText := body.data.value["query"];
      var engine := GetQueryEngine(loaded);
      if engine.None? {
        return Response(503, Failure(EngineNotInitialized));
      }
      match answer(engine.value, queryText)
      case Ok(text) => resp := Response(200, Answer(text));
      case Err(e) => resp := Response(500, Failure(e));
    }
  }

  /** A dot followed by a lowercased tail is a supported suffix exactly when the tail is an allowed extension. */
  lemma DottedExtension(tail: string)
    ensures Lower(['.'] + tail) == ['.'] + Lower(tail)
    ensures Lower(['.'] + tail) in DocumentProcessor.SupportedExtensions <==> Lower(tail) in AllowedExtensions
  {
    var lt := Lower(tail);
    assert Lower(['.'] + tail) == ['.'] + lt;
    assert (['.'] + lt)[1..] == lt;
    assert ".pdf"[1..] == "pdf" && ".txt"[1..] == "txt" && ".docx"[1..] == "docx";
    assert ['.'] + "pdf" == ".pdf" && ['.'] + "txt" == ".txt" && ['.'] + "docx" == ".docx";
  }

  /**
    The two admission rules agree except on names whose only dot starts them: `allowed_file`
    accepts ".pdf", whose `Path.suffix` is empty, so `validate_file` rejects it.
  */
  lemma AdmissionRulesAgree(name: string)
    ensures Lower(DocumentProcessor.Suffix(name)) in DocumentProcessor.SupportedExtensions
      <==> AllowedFile(name) && LastIndexOf(name, '.') != Some(0)
  {
    match LastIndexOf(name, '.')
    case None =>
      assert DocumentProcessor.Suffix(name) == "";
    case Some(i) =>
      if 0 < i < |name| - 1 {
        assert name[i..] == ['.'] + name[i + 1..];
        DottedExtension(name[i + 1..]);
      } else {
        assert DocumentProcessor.Suffix(name) == "";
        assert Lower("") == "";
        if i == |name| - 1 {
          assert name[i + 1..] == "";
        }
      }
  }

  /** A file named ".pdf" passes the upload filter but not `validate_file`. */
  lemma {:induction false} HiddenPdfIsAllowedButInvalid()
    ensures AllowedFile(".pdf")
    ensures !DocumentProcessor.ValidateFile(DocumentProcessor.FileStat(".pdf", true, 0))
  {
    LastIndexUnique(".pdf", '.', 0);
    assert ".pdf"[1..] == "pdf";
    assert Lower("pdf") == "pdf";
    assert LastIndexOf(".pdf", '/') == None;
    assert DocumentProcessor.PathName(".pdf") == ".pdf";
  }
}
