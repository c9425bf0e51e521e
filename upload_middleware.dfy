/**
 * src/middleware/uploadMiddleware.js: the MIME allow-list, the stored file name
 * `<folder>-<uuid><ext>`, the destination `uploads/<folder>` and the size limits of
 * the five uploaders, each used through `.single(field)`.
 */
module UploadMiddleware {
  import opened Wrappers
  import opened Js

  const AllowedMimeTypes: seq<string> :=
    ["image/png", "image/jpeg", "image/jpg", "image/webp", "video/mp4", "video/mpeg", "video/quicktime"]

  const UnsupportedFormat := "Unsupported file format"

  datatype FilterVerdict = Accept | Reject(error: string)

  /** The `fileFilter` callback. */
  function FileFilter(mimetype: string): (r: FilterVerdict)
    ensures r.Accept? <==> mimetype in {"image/png", "image/jpeg", "image/jpg", "image/webp",
                                         "video/mp4", "video/mpeg", "video/quicktime"}
    ensures r.Reject? ==> r.error == UnsupportedFormat
  {
    if mimetype in AllowedMimeTypes then Accept else Reject(UnsupportedFormat)
  }

  // ---------------------------------------------------------------------------
  // `path.extname` (POSIX) of the client's file name

  predicate EndsWith(s: string, suffix: string) {
    |suffix| <= |s| && s[|s| - |suffix|..] == suffix
  }

  /** The name without its trailing slashes. */
  function StripTrailingSlashes(p: string): (r: string)
    ensures |r| <= |p| && r == p[..|r|]
    ensures r == [] || r[|r| - 1] != '/'
    ensures forall k :: |r| <= k < |p| ==> p[k] == '/'
  {
    if p != [] && p[|p| - 1] == '/' then StripTrailingSlashes(p[..|p| - 1]) else p
  }

  /** The part after the last slash. */
  function LastSegment(p: string): (r: string)
    ensures '/' !in r && EndsWith(p, r)
    ensures |r| < |p| ==> p[|p| - |r| - 1] == '/'
  {
    if p == [] || p[|p| - 1] == '/' then [] else LastSegment(p[..|p| - 1]) + [p[|p| - 1]]
  }

  /** The last position of `c` in `s`. */
  function LastIndexOf(s: string, c: char): (r: Option<nat>)
    ensures r.None? <==> c !in s
    ensures r.Some? ==> r.value < |s| && s[r.value] == c && c !in s[r.value + 1..]
  {
    if s == [] then None
    else if s[|s| - 1] == c then Some(|s| - 1)
    else LastIndexOf(s[..|s| - 1], c)
  }

  /**
   * `path.extname`: from the last dot of the last segment to its end; empty when that
   * segment has no dot, starts with its only dot, or is `..`.
   */
  function Extname(name: string): (e: string)
    ensures e == [] || (e[0] == '.' && '.' !in e[1..] && '/' !in e)
    ensures EndsWith(StripTrailingSlashes(name), e)
    ensures var b := LastSegment(StripTrailingSlashes(name));
            e == [] <==> '.' !in b || LastIndexOf(b, '.') == Some(0) || b == ".."
  {
    var stripped := StripTrailingSlashes(name);
    var base := LastSegment(stripped);
    match LastIndexOf(base, '.')
    case None => ""
    case Some(i) =>
      if i == 0 || base == ".." then ""
      else
        LastDotSuffix(stripped, base, i);
        base[i..]
  }

  /** From the last dot of a slash-free suffix of `s` to the end is itself an extension-shaped suffix of `s`. */
  lemma LastDotSuffix(s: string, base: string, i: nat)
    requires EndsWith(s, base) && '/' !in base
    requires i < |base| && base[i] == '.' && '.' !in base[i + 1..]
    ensures var e := base[i..]; e[0] == '.' && '.' !in e[1..] && '/' !in e && EndsWith(s, e)
  {
    var e := base[i..];
    assert e[1..] == base[i + 1..];
    assert s[|s| - |e|..] == base[i..] by {
      assert s[|s| - |base|..] == base;
      assert s[|s| - |e|..] == s[|s| - |base|..][i..];
    }
  }

  /** The `filename` callback of `makeStorage`. */
  function StoredFilename(folder: string, uuid: string, originalName: string): string {
    folder + "-" + uuid + Extname(originalName)
  }

  /** The `destination` callback: `uploads/<folder>` under the project root. */
  function Destination(projectRoot: string, folder: string): string {
    projectRoot + "/uploads/" + folder
  }

  lemma {:induction false} LastSegmentOfSlashFree(p: string)
    requires '/' !in p
    ensures LastSegment(p) == p
  {
    if p != [] {
      assert '/' !in p[..|p| - 1];
      LastSegmentOfSlashFree(p[..|p| - 1]);
    }
  }

  lemma {:induction false} LastDotIsInSuffix(p: string, e: string)
    requires '.' !in p && e != [] && e[0] == '.' && '.' !in e[1..]
    ensures LastIndexOf(p + e, '.') == Some(|p|)
  {
    var s := p + e;
    if |e| > 1 {
      assert s[..|s| - 1] == p + e[..|e| - 1];
      assert e[..|e| - 1][1..] == e[1..|e| - 1];
      LastDotIsInSuffix(p, e[..|e| - 1]);
    }
  }

  /** A slash-free, dot-free stem followed by an extension-shaped suffix has that suffix as its extension. */
  lemma ExtnameOfStemAndSuffix(p: string, e: string)
    requires p != [] && '.' !in p && '/' !in p
    requires e == [] || (e[0] == '.' && '.' !in e[1..] && '/' !in e)
    ensures '/' !in p + e && Extname(p + e) == e
  {
    var s := p + e;
    assert '/' !in s by {
      forall k | 0 <= k < |s| ensures s[k] != '/' {
        if k >= |p| { assert s[k] == e[k - |p|]; }
      }
    }
    assert s[|s| - 1] != '/';
    assert StripTrailingSlashes(s) == s;
    LastSegmentOfSlashFree(s);
    if e == [] {
      assert s == p;
      assert LastIndexOf(s, '.') == None;
    } else {
      LastDotIsInSuffix(p, e);
      assert s[0] == p[0] != '.';
      assert s != "..";
      assert s[|p|..] == e;
    }
  }

  /**
   * The stored name keeps the original extension and has no slash, so the file lands
   * directly inside `uploads/<folder>`; this holds for every client-supplied name.
   */
  lemma StoredNameKeepsExtension(folder: string, uuid: string, originalName: string)
    requires folder != [] && '.' !in folder && '/' !in folder
    requires '.' !in uuid && '/' !in uuid
    ensures var stored := StoredFilename(folder, uuid, originalName);
            '/' !in stored && EndsWith(stored, Extname(originalName)) &&
            Extname(stored) == Extname(originalName)
  {
    var p := folder + "-" + uuid;
    assert '.' !in p && '/' !in p by {
      assert p == folder + ("-" + uuid);
    }
    ExtnameOfStemAndSuffix(p, Extname(originalName));
    assert StoredFilename(folder, uuid, originalName) == p + Extname(originalName);
  }

  // ---------------------------------------------------------------------------
  // Uploaders

  const DefaultMaxFileSize: nat := 10 * 1024 * 1024
  const SubmissionMaxFileSize: nat := 200 * 1024 * 1024

  datatype Uploader = Uploader(folder: string, maxFileSize: nat)

  /** `createUploader(folder, limits)`, where an omitted `limits` means 10 MiB. */
  function CreateUploader(folder: string, maxFileSize: Option<nat>): (u: Uploader)
    ensures u.folder == folder
    ensures maxFileSize.None? ==> u.maxFileSize == 10485760
    ensures maxFileSize.Some? ==> u.maxFileSize == maxFileSize.value
  {
    Uploader(folder, if maxFileSize.Some? then maxFileSize.value else DefaultMaxFileSize)
  }

  const UploadProfile := CreateUploader("profiles", None)
  const UploadCompetition := CreateUploader("competitions", None)
  const UploadWinner := CreateUploader("winners", None)
  const UploadLogo := CreateUploader("logos", None)
  const UploadSubmission := CreateUploader("submissions", Some(SubmissionMaxFileSize))

  /** Only the submissions uploader goes beyond 10 MiB; it allows 200 MiB. */
  lemma UploaderLimits()
    ensures UploadSubmission.maxFileSize == 209715200
    ensures forall u :: u in {UploadProfile, UploadCompetition, UploadWinner, UploadLogo} ==>
              u.maxFileSize == 10485760
  {
  }

  /** A file part of a multipart request, as the client sent it. */
  datatype FilePart = FilePart(field: string, originalName: string, mimetype: string, size: nat)

  /** `req.file` after a successful upload. */
  datatype StoredFile = StoredFile(filename: string, destination: string, size: nat)

  /**
   * `uploader.single(field)`: no file, or a file part with an empty file name (an empty
   * file input, which multer skips), leaves `req.file` unset; a file under another
   * field, of a type outside the allow-list or over the size limit is an error; otherwise
   * the file is saved under its generated name. `uuid` is the identifier `uuid()` returns.
   */
  function Single(u: Uploader, field: string, projectRoot: string, part: Option<FilePart>, uuid: string)
    : (r: Result<Option<StoredFile>>)
    ensures part.None? || part.value.originalName == "" ==> r == Ok(None)
    ensures r.Ok? && r.value.Some? ==>
              part.Some? && part.value.field == field &&
              FileFilter(part.value.mimetype).Accept? && part.value.size <= u.maxFileSize &&
              r.value.value.filename == StoredFilename(u.folder, uuid, part.value.originalName) &&
              r.value.value.destination == Destination(projectRoot, u.folder)
    ensures r.Ok? && r.value.Some? ==> part.value.originalName != ""
    ensures part.Some? && part.value.originalName != "" && part.value.field != field ==>
              r == Err("Unexpected field")
    ensures part.Some? && part.value.originalName != "" && part.value.field == field
            && FileFilter(part.value.mimetype).Accept? && part.value.size > u.maxFileSize ==>
              r == Err("File too large")
    ensures part.Some? && part.value.originalName != "" && part.value.field == field
            && FileFilter(part.value.mimetype).Accept? && part.value.size <= u.maxFileSize ==>
              r.Ok? && r.value.Some?
    ensures part.Some? && part.value.originalName != "" && part.value.field == field
            && FileFilter(part.value.mimetype).Reject? ==>
              r == Err(UnsupportedFormat)
  {
    match part
    case None => Ok(None)
    case Some(f) =>
      if f.originalName == "" then Ok(None)
      else if f.field != field then Err("Unexpected field")
      else if FileFilter(f.mimetype).Reject? then Err(UnsupportedFormat)
      else if f.size > u.maxFileSize then Err("File too large")
      else Ok(Some(StoredFile(StoredFilename(u.folder, uuid, f.originalName),
                              Destination(projectRoot, u.folder), f.size)))
  }

  /** The public path a handler stores for an upload, `/uploads/<folder>/<filename>`; NULL without one. */
  function UploadedPath(folder: string, file: Option<StoredFile>): (r: JsVal)
    ensures r.Null? <==> file.None?
    ensures file.Some? ==> r == Str("/uploads/" + folder + "/" + file.value.filename)
  {
    if file.Some? then Str("/uploads/" + folder + "/" + file.value.filename) else Null
  }
}
