/**
 * The upload helpers of farmapp/utils/fileUpload.js: Node's `basename` and
 * `extname` on POSIX paths, the image-type filter, the names given to stored
 * files, the path and URL written back onto each uploaded file, the replies
 * to a failed upload, and the rule for a failed delete. The clock, the random
 * suffix and the uuid are parameters.
 */
module FileUpload {
  import opened Wrappers
  import opened Text

  /** `t.endsWith(s)`. */
  predicate EndsWith(s: string, t: string) {
    |s| <= |t| && t[|t| - |s|..] == s
  }

  /** A path with its trailing slashes dropped, as `basename` and `extname` first do. */
  function StripTrailingSlashes(p: string): string {
    if p != [] && p[|p| - 1] == '/' then StripTrailingSlashes(p[..|p| - 1]) else p
  }

  /** What is dropped is exactly the run of slashes at the end. */
  lemma {:induction false} StripTrailingSlashesSpec(p: string)
    ensures var r := StripTrailingSlashes(p);
            && IsPrefix(r, p) && (r == [] || r[|r| - 1] != '/')
            && forall i :: |r| <= i < |p| ==> p[i] == '/'
  {
    if p != [] && p[|p| - 1] == '/' {
      StripTrailingSlashesSpec(p[..|p| - 1]);
      var r := StripTrailingSlashes(p[..|p| - 1]);
      assert p[..|p| - 1][..|r|] == p[..|r|];
    }
  }

  /** `path.basename(p)`: the last segment of the path, without slashes. */
  function Basename(p: string): (b: string)
    ensures '/' !in b
  {
    var t := StripTrailingSlashes(p);
    var k := LastIndexOf(t, '/');
    t[k + 1..]
  }

  /** The base name ends the path, leaving out only trailing slashes, and a slash comes before it. */
  lemma BasenameIsLastSegment(p: string)
    ensures var t := StripTrailingSlashes(p); var b := Basename(p);
            && IsPrefix(t, p) && (forall i :: |t| <= i < |p| ==> p[i] == '/')
            && EndsWith(b, t) && (|b| < |t| ==> t[|t| - |b| - 1] == '/')
  {
    StripTrailingSlashesSpec(p);
    var t := StripTrailingSlashes(p);
    AfterLastSlash(t);
    assert Basename(p) == t[LastIndexOf(t, '/') + 1..];
  }

  /** What follows the last slash ends the text, right after that slash. */
  lemma AfterLastSlash(t: string)
    ensures var b := t[LastIndexOf(t, '/') + 1..];
            EndsWith(b, t) && (|b| < |t| ==> t[|t| - |b| - 1] == '/')
  {
    var k := LastIndexOf(t, '/');
    assert |t| - |t[k + 1..]| == k + 1;
  }

  /** The form of an extension: empty, or a dot followed by neither dots nor slashes. */
  predicate ExtensionShape(e: string) {
    e == [] || (e[0] == '.' && forall i :: 0 < i < |e| ==> e[i] != '.' && e[i] != '/')
  }

  /**
   * Whether a segment has an extension: its last dot is not its first
   * character, and the segment is not `..`.
   */
  predicate HasExtension(b: string) {
    LastIndexOf(b, '.') > 0 && b != ".."
  }

  /** `path.extname(p)`: the last segment from its last dot on, when it has an extension. */
  function ExtName(p: string): (e: string)
    ensures ExtensionShape(e)
    ensures EndsWith(e, Basename(p))
    ensures e == [] <==> !HasExtension(Basename(p))
  {
    var b := Basename(p);
    if HasExtension(b) then
      var k := LastIndexOf(b, '.');
      var e := b[k..];
      assert forall i :: 0 < i < |e| ==> e[i] == b[k + i];
      e
    else []
  }

  /** A segment without dots followed by an extension: `extname` gives the extension back. */
  lemma ExtNameOfStem(stem: string, e: string)
    requires stem != [] && '.' !in stem && '/' !in stem
    requires ExtensionShape(e)
    ensures ExtName(stem + e) == e
  {
    var p := stem + e;
    NoSlashInStemAndExtension(stem, e);
    BasenameOfSegment(p);
    LastDotOfStem(stem, e);
    if e != [] {
      assert p[0] == stem[0] != '.';
      assert p[|stem|..] == e;
    }
  }

  lemma NoSlashInStemAndExtension(stem: string, e: string)
    requires '/' !in stem && ExtensionShape(e)
    ensures '/' !in stem + e
  {
    var p := stem + e;
    forall i | 0 <= i < |p| ensures p[i] != '/' {
      if i < |stem| {
        assert p[i] == stem[i];
      } else {
        assert p[i] == e[i - |stem|];
      }
    }
  }

  /** A path of one segment is its own base name. */
  lemma BasenameOfSegment(p: string)
    requires p != [] && '/' !in p
    ensures Basename(p) == p
  {
    assert p[|p| - 1] != '/';
    assert StripTrailingSlashes(p) == p;
    assert LastIndexOf(p, '/') == -1;
  }

  /** Behind a stem without dots, the last dot is the one that opens the extension. */
  lemma LastDotOfStem(stem: string, e: string)
    requires '.' !in stem && ExtensionShape(e)
    ensures LastIndexOf(stem + e, '.') == if e == [] then -1 else |stem|
  {
    var p := stem + e;
    if e == [] {
      assert p == stem;
    } else {
      assert p[|stem|] == '.';
      forall j | 0 <= j < |p| && j != |stem| ensures p[j] != '.' {
        if j < |stem| {
          assert p[j] == stem[j];
        } else {
          assert p[j] == e[j - |stem|];
        }
      }
    }
  }

  /** Lower-casing keeps the form of an extension. */
  lemma LowerKeepsShape(e: string)
    requires ExtensionShape(e)
    ensures ExtensionShape(Lower(e))
  {
  }

  /** The text `/jpeg|jpg|png|gif/` finds somewhere in a string: the pattern has no anchors. */
  predicate ImageType(s: string) {
    Contains(s, "jpeg") || Contains(s, "jpg") || Contains(s, "png") || Contains(s, "gif")
  }

  const TypeError: string := "Solo se permiten imágenes (jpeg, jpg, png, gif)"

  /** The verdict `fileFilter` passes to its callback. */
  datatype FilterResult = Accepted | Rejected(message: string)

  /**
   * `fileFilter`: the file is taken exactly when both its lower-cased
   * extension and its MIME type name an image type.
   */
  function FileFilter(originalname: string, mimetype: string): (r: FilterResult)
    ensures r == Accepted <==> ImageType(Lower(ExtName(originalname))) && ImageType(mimetype)
    ensures r != Accepted ==> r == Rejected(TypeError)
  {
    if ImageType(mimetype) && ImageType(Lower(ExtName(originalname))) then Accepted else Rejected(TypeError)
  }

  /** No ASCII capital letters. */
  predicate NoUpper(s: string) {
    forall i :: 0 <= i < |s| ==> !('A' <= s[i] <= 'Z')
  }

  /** No ASCII small letters. */
  predicate NoLower(s: string) {
    forall i :: 0 <= i < |s| ==> !('a' <= s[i] <= 'z')
  }

  lemma LowerOfNoUpper(s: string)
    requires NoUpper(s)
    ensures Lower(s) == s
  {
  }

  lemma LowerIdempotent(s: string)
    ensures Lower(Lower(s)) == Lower(s)
  {
  }

  /** The four type names are written in small letters. */
  lemma TypeNamesNoUpper(t: string)
    requires t in ["jpeg", "jpg", "png", "gif"]
    ensures NoUpper(t) && t != [] && 'a' <= t[0] <= 'z' && ImageType(t)
  {
    assert IsPrefix(t, t);
  }

  /** Whatever follows a type name, the text still names an image type. */
  lemma ImageTypeAnywhere(pre: string, t: string, post: string)
    requires t in ["jpeg", "jpg", "png", "gif"]
    ensures ImageType(pre + t + post)
  {
    var s := pre + t + post;
    assert s[|pre|..][..|t|] == t;
    ContainsAtIndex(s, t, |pre|);
    TypeNamesNoUpper(t);
  }

  /** `s.includes(t)` needs the first character of `t` somewhere in `s`. */
  lemma {:induction false} ContainsHasFirst(s: string, t: string)
    requires t != [] && Contains(s, t)
    ensures t[0] in s
    decreases |s|
  {
    if !IsPrefix(t, s) {
      ContainsHasFirst(s[1..], t);
    }
  }

  /** The four type names open with small letters, so text without small letters names none of them. */
  lemma NoLowerNoImageType(s: string)
    requires NoLower(s)
    ensures !ImageType(s)
  {
    if Contains(s, "jpeg") { ContainsHasFirst(s, "jpeg"); }
    if Contains(s, "jpg") { ContainsHasFirst(s, "jpg"); }
    if Contains(s, "png") { ContainsHasFirst(s, "png"); }
    if Contains(s, "gif") { ContainsHasFirst(s, "gif"); }
  }

  /**
   * An extension naming one of the four types, in any letter case and with
   * anything after the type name, passes the extension half of the filter.
   */
  lemma FilterAcceptsImages(stem: string, e: string, t: string, mimetype: string)
    requires stem != [] && '.' !in stem && '/' !in stem
    requires ExtensionShape("." + e) && t in ["jpeg", "jpg", "png", "gif"]
    requires exists a, b :: Lower(e) == a + t + b
    requires ImageType(mimetype)
    ensures FileFilter(stem + "." + e, mimetype) == Accepted
  {
    ExtensionNamesImage(stem, e, t);
  }

  lemma ExtensionNamesImage(stem: string, e: string, t: string)
    requires stem != [] && '.' !in stem && '/' !in stem
    requires ExtensionShape("." + e) && t in ["jpeg", "jpg", "png", "gif"]
    requires exists a, b :: Lower(e) == a + t + b
    ensures ImageType(Lower(ExtName(stem + "." + e)))
  {
    assert stem + "." + e == stem + ("." + e);
    ExtNameOfStem(stem, "." + e);
    var a, b :| Lower(e) == a + t + b;
    LowerAfterDot(e);
    DotRegroup(a, t, b);
    ImageTypeAnywhere("." + a, t, b);
  }

  lemma DotRegroup(a: string, t: string, b: string)
    ensures "." + (a + t + b) == ("." + a) + t + b
  {
  }

  lemma LowerAfterDot(e: string)
    ensures Lower("." + e) == "." + Lower(e)
  {
    assert ("." + e)[1..] == e;
  }

  /** The letter case of the extension does not matter. */
  lemma FilterIgnoresExtensionCase(stem: string, e: string, mimetype: string)
    requires stem != [] && '.' !in stem && '/' !in stem && ExtensionShape(e)
    ensures FileFilter(stem + e, mimetype) == FileFilter(stem + Lower(e), mimetype)
  {
    ExtNameOfStem(stem, e);
    LowerKeepsShape(e);
    ExtNameOfStem(stem, Lower(e));
    LowerIdempotent(e);
  }

  /** The MIME type is not lower-cased: one without small letters, such as `IMAGE/PNG`, is refused. */
  lemma FilterRefusesCapitalMime(originalname: string, mimetype: string)
    requires NoLower(mimetype)
    ensures FileFilter(originalname, mimetype) == Rejected(TypeError)
  {
    NoLowerNoImageType(mimetype);
  }

  /** `Date.now() + '-' + Math.round(Math.random() * 1E9)`, with both numbers given. */
  function UniqueSuffix(now: nat, random: nat): (s: string)
    ensures '.' !in s && '/' !in s
  {
    NatToString(now) + "-" + NatToString(random)
  }

  /** The storage `filename`: field name, a dash, the suffix and the lower-cased extension of the original. */
  function StoredFilename(fieldname: string, now: nat, random: nat, originalname: string): (name: string)
    ensures IsPrefix(fieldname + "-" + UniqueSuffix(now, random), name)
    ensures EndsWith(Lower(ExtName(originalname)), name)
  {
    fieldname + "-" + UniqueSuffix(now, random) + Lower(ExtName(originalname))
  }

  /** The stored file keeps the original's extension, lower-cased. */
  lemma StoredFilenameKeepsExtension(fieldname: string, now: nat, random: nat, originalname: string)
    requires '.' !in fieldname && '/' !in fieldname
    ensures ExtName(StoredFilename(fieldname, now, random, originalname)) == Lower(ExtName(originalname))
  {
    var stem := fieldname + "-" + UniqueSuffix(now, random);
    PlainStem(fieldname, UniqueSuffix(now, random));
    LowerKeepsShape(ExtName(originalname));
    ExtNameOfStem(stem, Lower(ExtName(originalname)));
  }

  /** Two pieces free of dots and slashes, joined by a dash, are free of them too. */
  lemma PlainStem(a: string, b: string)
    requires '.' !in a && '/' !in a && '.' !in b && '/' !in b
    ensures var stem := a + "-" + b; stem != [] && '.' !in stem && '/' !in stem
  {
    var stem := a + "-" + b;
    forall i | 0 <= i < |stem| ensures stem[i] != '.' && stem[i] != '/' {
      if i < |a| {
        assert stem[i] == a[i];
      } else if i > |a| {
        assert stem[i] == b[i - |a| - 1];
      }
    }
  }

  /** `generateUniqueFilename`: a uuid followed by the lower-cased extension of the original. */
  function UniqueFilename(uuid: string, originalname: string): (name: string)
    ensures IsPrefix(uuid, name) && EndsWith(Lower(ExtName(originalname)), name)
  {
    uuid + Lower(ExtName(originalname))
  }

  /** A uuid has neither dots nor slashes, so the generated name keeps the original's extension. */
  lemma UniqueFilenameKeepsExtension(uuid: string, originalname: string)
    requires uuid != [] && '.' !in uuid && '/' !in uuid
    ensures ExtName(UniqueFilename(uuid, originalname)) == Lower(ExtName(originalname))
  {
    LowerKeepsShape(ExtName(originalname));
    ExtNameOfStem(uuid, Lower(ExtName(originalname)));
  }

  /** `path.replace(/\\/g, '/')`: every backslash becomes a slash, and nothing else changes. */
  function NormalizedPath(p: string): (r: string)
    ensures |r| == |p| && '\\' !in r
    ensures forall i :: 0 <= i < |p| && p[i] != '\\' ==> r[i] == p[i]
    ensures forall i :: 0 <= i < |p| && p[i] == '\\' ==> r[i] == '/'
  {
    ReplaceChar(p, '\\', '/')
  }

  /** Normalising twice is normalising once. */
  lemma NormalizedPathIdempotent(p: string)
    ensures NormalizedPath(NormalizedPath(p)) == NormalizedPath(p)
  {
  }

  /** `'/uploads/' + path.basename(path)`. */
  function UploadUrl(p: string): (u: string)
    ensures IsPrefix("/uploads/", u)
    ensures forall i :: 9 <= i < |u| ==> u[i] != '/'
  {
    "/uploads/" + Basename(p)
  }

  /** A file stored under a Windows-style directory gets the URL of its own name. */
  lemma UploadUrlOfStoredFile(dir: string, name: string)
    requires name != [] && '/' !in name && '\\' !in name
    ensures UploadUrl(NormalizedPath(dir + "\\" + name)) == "/uploads/" + name
  {
    NormalizedJoin(dir, name);
    BasenameAfterSlash(NormalizedPath(dir), name);
  }

  /** The separator written as a backslash becomes a slash; the name, free of backslashes, stays. */
  lemma NormalizedJoin(dir: string, name: string)
    requires '\\' !in name
    ensures NormalizedPath(dir + "\\" + name) == NormalizedPath(dir) + "/" + name
  {
    ReplaceCharConcat(dir + "\\", name, '\\', '/');
    ReplaceCharConcat(dir, "\\", '\\', '/');
    ReplaceCharAbsent(name, '\\', '/');
    assert ReplaceChar("\\", '\\', '/') == "/";
  }

  /** The base name of a path ending in a slash and a plain name is that name. */
  lemma BasenameAfterSlash(dir: string, name: string)
    requires name != [] && '/' !in name
    ensures Basename(dir + "/" + name) == name
  {
    var n := dir + "/" + name;
    assert n[|n| - 1] == name[|name| - 1];
    assert StripTrailingSlashes(n) == n;
    forall j | |dir| < j < |n| ensures n[j] != '/' {
      assert n[j] == name[j - |dir| - 1];
    }
    assert n[|dir|] == '/';
    assert LastIndexOf(n, '/') == |dir|;
    assert n[|dir| + 1..] == name;
  }

  /**
   * A file Multer has stored: what the client sent, and the path and URL
   * the middleware writes back onto it.
   */
  class UploadedFile {
    const fieldname: string
    const originalname: string
    const mimetype: string
    var path: string
    var url: Option<string>

    constructor (fieldname: string, originalname: string, mimetype: string, path: string)
      ensures this.fieldname == fieldname && this.originalname == originalname && this.mimetype == mimetype
      ensures this.path == path && url == None
    {
      this.fieldname := fieldname;
      this.originalname := originalname;
      this.mimetype := mimetype;
      this.path := path;
      url := None;
    }

    /** The two assignments of an accepted upload: the normalised path, then the URL of its last segment. */
    method Normalize()
      modifies this
      ensures (path, url) == AfterUpload(old(path))
    {
      path := NormalizedPath(path);
      url := Some(UploadUrl(path));
    }
  }

  /** The path and URL a stored file has once an accepted upload has normalised it. */
  function AfterUpload(path: string): (string, Option<string>) {
    (NormalizedPath(path), Some(UploadUrl(NormalizedPath(path))))
  }

  /** Normalising a path already normalised changes neither the path nor the URL. */
  lemma AfterUploadAgain(path: string)
    ensures AfterUpload(AfterUpload(path).0) == AfterUpload(path)
  {
    NormalizedPathIdempotent(path);
  }

  /** What the callback of `upload.single` or `upload.array` receives: no error, a Multer error, or another one. */
  datatype UploadError = NoError | MulterError(message: string) | OtherError

  /** Either `next()` is called, or the request is answered `{ success: false, message }` with a status. */
  datatype UploadReply = Proceed | Failed(status: int, message: string)

  const SingleFailure: string := "Error al subir el archivo"
  const MultipleFailure: string := "Error al subir los archivos"

  /** A Multer error is the client's (400, with Multer's message); any other is the server's (500, with `fallback`). */
  function ErrorReply(err: UploadError, fallback: string): (r: UploadReply)
    ensures r == Proceed <==> err == NoError
    ensures err.MulterError? ==> r == Failed(400, err.message)
    ensures err == OtherError ==> r == Failed(500, fallback)
  {
    match err
    case NoError => Proceed
    case MulterError(message) => Failed(400, message)
    case OtherError => Failed(500, fallback)
  }

  /** `uploadSingle`: after an accepted upload the stored file, when there is one, gets its path and URL. */
  method UploadSingle(err: UploadError, file: UploadedFile?) returns (r: UploadReply)
    modifies file
    ensures r == ErrorReply(err, SingleFailure)
    ensures file != null && err == NoError ==> (file.path, file.url) == AfterUpload(old(file.path))
    ensures file != null && err != NoError ==> (file.path, file.url) == old((file.path, file.url))
  {
    r := ErrorReply(err, SingleFailure);
    if r != Proceed {
      return;
    }
    if file != null {
      file.Normalize();
    }
  }

  /**
   * `uploadMultiple`: after an accepted upload every stored file gets its
   * path and URL, and `req.files` is the same files in the same order.
   */
  method UploadMultiple(err: UploadError, files: seq<UploadedFile>) returns (r: UploadReply, uploaded: seq<UploadedFile>)
    modifies set f | f in files
    ensures r == ErrorReply(err, MultipleFailure)
    ensures uploaded == files
    ensures err == NoError ==> forall j :: 0 <= j < |files| ==>
              (files[j].path, files[j].url) == AfterUpload(old(files[j].path))
    ensures err != NoError ==> forall j :: 0 <= j < |files| ==>
              (files[j].path, files[j].url) == old((files[j].path, files[j].url))
  {
    r := ErrorReply(err, MultipleFailure);
    uploaded := files;
    if r != Proceed || |files| == 0 {
      return;
    }
    uploaded := [];
    var i := 0;
    while i < |files|
      invariant 0 <= i <= |files|
      invariant uploaded == files[..i]
      invariant forall j :: 0 <= j < |files| ==>
                  Settled(files[j], old(files[j].path), old(files[j].url), files[j] in uploaded)
    {
      var file := files[i];
      assert files[..i + 1] == files[..i] + [file];
      AfterUploadAgain(old(file.path));
      label before:
      file.Normalize();
      forall j | 0 <= j < |files|
        ensures Settled(files[j], old(files[j].path), old(files[j].url), files[j] in uploaded + [file])
      {
        if files[j] != file {
          assert files[j].path == old@before(files[j].path) && files[j].url == old@before(files[j].url);
        }
      }
      uploaded := uploaded + [file];
      i := i + 1;
    }
    assert files[..i] == files;
  }

  /** A file of the list: given its path and URL before the run, processed or not yet. */
  ghost predicate Settled(f: UploadedFile, path0: string, url0: Option<string>, processed: bool)
    reads f
  {
    (f.path, f.url) == if processed then AfterUpload(path0) else (path0, url0)
  }

  /** The error `fs.unlink` reports, with its `code` when it has one. */
  datatype FsError = FsError(code: Option<string>)

  datatype DeleteOutcome = Resolved | RejectedWith(error: FsError)

  /** `deleteFile`: a missing file counts as deleted; any other error rejects with that error. */
  function DeleteOutcomeOf(err: Option<FsError>): (r: DeleteOutcome)
    ensures r == Resolved <==> err.None? || err.value.code == Some("ENOENT")
    ensures r.RejectedWith? ==> err == Some(r.error)
  {
    if err.Some? && err.value.code != Some("ENOENT") then RejectedWith(err.value) else Resolved
  }
}
