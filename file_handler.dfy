/** Validation of uploaded files (app/utils/file_handler.py): the extension
    whitelist and the guard chain in front of the file-system write. */
module FileHandler {
  import opened Base

  /** Index of the last '.' in `s`, if any. */
  function LastDot(s: string): (r: Option<nat>)
    ensures r.None? <==> '.' !in s
    ensures r.Some? ==> r.value < |s| && s[r.value] == '.'
    ensures r.Some? ==> forall j :: r.value < j < |s| ==> s[j] != '.'
  {
    if s == [] then None
    else if s[|s| - 1] == '.' then Some(|s| - 1)
    else
      var r := LastDot(s[..|s| - 1]);
      assert forall j :: 0 <= j < |s| - 1 ==> s[..|s| - 1][j] == s[j];
      r
  }

  /** `allowed_file(filename, allowed_extensions)`:
      `'.' in filename and filename.rsplit('.', 1)[1].lower() in allowed_extensions` */
  predicate AllowedFile(filename: string, allowed: set<string>)
    ensures AllowedFile(filename, allowed) ==> '.' in filename
  {
    match LastDot(filename)
    case None => false
    case Some(i) => Lower(filename[i + 1..]) in allowed
  }

  /** A file passes exactly when it has a dot and the lower-cased text after
      its LAST dot is one of the allowed extensions. */
  lemma AllowedFileMeaning(filename: string, allowed: set<string>)
    ensures AllowedFile(filename, allowed) <==>
      exists i :: 0 <= i < |filename| && filename[i] == '.'
        && (forall j :: i < j < |filename| ==> filename[j] != '.')
        && Lower(filename[i + 1..]) in allowed
  {
    if AllowedFile(filename, allowed) {
      var i := LastDot(filename).value;
      assert filename[i] == '.';
    } else {
      forall i | 0 <= i < |filename| && filename[i] == '.'
          && (forall j :: i < j < |filename| ==> filename[j] != '.')
        ensures Lower(filename[i + 1..]) !in allowed
      {
        var k := LastDot(filename).value;
        assert k == i;
      }
    }
  }

  /** Only the last extension counts: appending ".ext" decides the verdict by
      `ext` alone, whatever the name before it holds ("a.pdf.exe" is judged
      by "exe"). */
  lemma LastExtensionDecides(name: string, ext: string, allowed: set<string>)
    requires '.' !in ext
    ensures AllowedFile(name + "." + ext, allowed) <==> Lower(ext) in allowed
  {
    var f := name + "." + ext;
    var k := |name|;
    assert f[k] == '.';
    assert forall j :: k < j < |f| ==> f[j] == ext[j - k - 1];
    assert forall j :: k < j < |f| ==> f[j] != '.';
    var i := LastDot(f).value;
    assert i == k;
    assert f[i + 1..] == ext;
  }

  lemma {:induction false} LastDotLower(s: string)
    ensures LastDot(Lower(s)) == LastDot(s)
  {
    if s != [] {
      var t := s[..|s| - 1];
      assert Lower(s)[..|s| - 1] == Lower(t);
      LastDotLower(t);
    }
  }

  /** The check ignores case: lower-casing the whole name never changes the
      verdict (dots stay where they are, and the extension is lower-cased
      anyway). */
  lemma AllowedFileIgnoresCase(filename: string, allowed: set<string>)
    ensures AllowedFile(Lower(filename), allowed) == AllowedFile(filename, allowed)
  {
    LastDotLower(filename);
    var g := Lower(filename);
    if LastDot(filename).Some? {
      var i := LastDot(filename).value;
      var e := filename[i + 1..];
      assert g[i + 1..] == Lower(e);
      LowerIdempotent(e);
      assert AllowedFile(g, allowed) == (Lower(Lower(e)) in allowed);
    }
  }

  /** "SCAN.PDF" is accepted where "pdf" is allowed. */
  lemma UpperCaseAccepted()
    ensures AllowedFile("SCAN.PDF", {"pdf"})
  {
    LastExtensionDecides("SCAN", "PDF", {"pdf"});
    assert "SCAN" + "." + "PDF" == "SCAN.PDF";
    assert Lower("PDF") == "pdf";
  }

  /** "a.pdf.exe" is refused unless "exe" is allowed. */
  lemma DoubleExtensionRefused()
    ensures !AllowedFile("a.pdf.exe", {"pdf", "doc"})
  {
    LastExtensionDecides("a.pdf", "exe", {"pdf", "doc"});
    assert "a.pdf" + "." + "exe" == "a.pdf.exe";
    assert Lower("exe") == "exe";
  }

  /** What `save_uploaded_file` is handed: a werkzeug FileStorage with its
      client-side name, or anything else. */
  datatype Upload = NotAFile | FileStorage(filename: string)

  /** The outcome of the write itself (secure_filename, timestamp prefix,
      makedirs, save), which is file-system I/O and not modelled. */
  datatype WriteOutcome = Written(path: string) | WriteFailed(message: string)

  datatype UploadError =
    | InvalidFile                          // 'Invalid file'
    | NoFileSelected                       // 'No file selected'
    | TypeNotAllowed(allowed: set<string>) // 'File type not allowed. Allowed types: ...'
    | WriteError(message: string)          // str(e) of the failed write

  /** `save_uploaded_file(file, upload_folder, allowed_extensions)`, returning
      the pair `(file_path, error)`. */
  function SaveUploadedFile(file: Upload, allowed: set<string>, write: WriteOutcome): (r: (Option<string>, Option<UploadError>))
    ensures r.0.None? <==> r.1.Some?
    ensures r.1 == Some(InvalidFile) <==> file.NotAFile?
    ensures r.1 == Some(NoFileSelected) <==> file.FileStorage? && file.filename == ""
    ensures r.1 == Some(TypeNotAllowed(allowed)) <==>
      file.FileStorage? && file.filename != "" && !AllowedFile(file.filename, allowed)
    ensures r.0.Some? <==>
      file.FileStorage? && file.filename != "" && AllowedFile(file.filename, allowed) && write.Written?
    ensures r.0.Some? ==> r.0.value == write.path
  {
    match file
    case NotAFile => (None, Some(InvalidFile))
    case FileStorage(name) =>
      if name == "" then (None, Some(NoFileSelected))
      else if !AllowedFile(name, allowed) then (None, Some(TypeNotAllowed(allowed)))
      else match write
        case Written(path) => (Some(path), None)
        case WriteFailed(msg) => (None, Some(WriteError(msg)))
  }
}
