/** The upload middleware of src/middlewares/multer.middleware.js: where an accepted upload
    is stored, the size limit, and the extension filter that decides which uploads reach
    the controller. */
module Multer {

  import opened Errors
  import opened Text

  /** `limits.fileSize`: 50 MiB. */
  const FileSizeLimit: nat := 50 * 1024 * 1024

  /** The only extensions the filter lets through, compared case-sensitively. */
  const AllowedExtensions: seq<string> := [".mp4", ".mov", ".mkv"]

  /** What the filter hands to multer's callback. */
  datatype Decision = Accept | Reject(error: ApiError)

  lemma FileSizeLimitValue()
    ensures FileSizeLimit == 52428800
  {
  }

  /** The last position of `c` in `s`, if any. */
  function LastIndex(s: string, c: char): (r: Option<nat>)
    ensures r.Some? ==> r.value < |s| && s[r.value] == c
    ensures r.Some? ==> forall j :: r.value < j < |s| ==> s[j] != c
    ensures r.None? ==> forall j :: 0 <= j < |s| ==> s[j] != c
  {
    if |s| == 0 then None
    else if s[|s| - 1] == c then Some(|s| - 1)
    else LastIndex(s[..|s| - 1], c)
  }

  function StripTrailingSlashes(s: string): (r: string)
    ensures |r| <= |s| && r == s[..|r|]
    ensures r == [] || r[|r| - 1] != '/'
    ensures Free(s, '/') ==> r == s
  {
    if |s| > 0 && s[|s| - 1] == '/' then StripTrailingSlashes(s[..|s| - 1]) else s
  }

  /** The last path component, after trailing slashes are dropped. */
  function BaseName(path: string): (base: string)
    ensures Free(base, '/')
    ensures Free(path, '/') ==> base == path
  {
    var t := StripTrailingSlashes(path);
    match LastIndex(t, '/')
    case None => t
    case Some(i) => t[i + 1..]
  }

  /** Node's POSIX `path.extname`: the base name from its last dot on; empty when the base
      name has no dot, when its only dot is the leading one of a dot-file (`.gitkeep`), and
      for `..`. */
  function ExtName(path: string): (ext: string)
    ensures ext == [] || ext[0] == '.'
    ensures ext != [] ==> EndsWith(BaseName(path), ext) && |ext| < |BaseName(path)|
    ensures forall j :: 0 < j < |ext| ==> ext[j] != '.'
  {
    var base := BaseName(path);
    match LastIndex(base, '.')
    case None => ""
    case Some(d) =>
      if d == 0 || base == ".." then "" else base[d..]
  }

  /** `fileFilter`: an upload passes iff its extension is exactly one of the three allowed;
      otherwise the callback gets the error "Unsupported file type! <ext>". */
  function FileFilter(originalname: string): (d: Decision)
    ensures d.Accept? <==> ExtName(originalname) in AllowedExtensions
    ensures d.Reject? ==> d.error == ApiError("Unsupported file type! " + ExtName(originalname), None)
  {
    var ext := ExtName(originalname);
    if ext != ".mp4" && ext != ".mov" && ext != ".mkv" then
      Reject(ApiError("Unsupported file type! " + ext, None))
    else
      Accept
  }

  /** For a plain file name (no directory part) the filter accepts exactly the names that end
      in an allowed extension with something before it. */
  lemma AcceptedIff(name: string)
    requires Free(name, '/')
    ensures FileFilter(name).Accept? <==>
      |name| > 4 && (EndsWith(name, ".mp4") || EndsWith(name, ".mov") || EndsWith(name, ".mkv"))
  {
    if FileFilter(name).Accept? {
      AcceptedHasSuffix(name);
    }
    if |name| > 4 && (EndsWith(name, ".mp4") || EndsWith(name, ".mov") || EndsWith(name, ".mkv")) {
      SuffixAccepted(name);
    }
  }

  lemma AcceptedHasSuffix(name: string)
    requires Free(name, '/') && FileFilter(name).Accept?
    ensures |name| > 4 && (EndsWith(name, ".mp4") || EndsWith(name, ".mov") || EndsWith(name, ".mkv"))
  {
    var ext := ExtName(name);
    assert BaseName(name) == name;
    assert ext == ".mp4" || ext == ".mov" || ext == ".mkv";
  }

  lemma SuffixAccepted(name: string)
    requires Free(name, '/') && |name| > 4
    requires EndsWith(name, ".mp4") || EndsWith(name, ".mov") || EndsWith(name, ".mkv")
    ensures FileFilter(name).Accept?
  {
    if EndsWith(name, ".mp4") {
      ExtNameOfSuffix(name, ".mp4");
    } else if EndsWith(name, ".mov") {
      ExtNameOfSuffix(name, ".mov");
    } else {
      ExtNameOfSuffix(name, ".mkv");
    }
  }

  /** A plain name that ends in `.xyz`, where `xyz` has no dot, with something before it,
      has extension `.xyz`. */
  lemma {:induction false} ExtNameOfSuffix(name: string, e: string)
    requires Free(name, '/')
    requires |e| >= 2 && e[0] == '.' && forall j :: 0 < j < |e| ==> e[j] != '.'
    requires EndsWith(name, e) && |name| > |e|
    ensures ExtName(name) == e
  {
    var d := |name| - |e|;
    assert name[d..] == e;
    assert name[d] == '.';
    forall j | d < j < |name| ensures name[j] != '.' {
      assert name[j] == e[j - d];
    }
    match LastIndex(name, '.')
    case None =>
      assert false;
    case Some(k) =>
      assert k == d;
  }

  /** A plain name without a dot has no extension. */
  lemma NoDotNoExtension(name: string)
    requires Free(name, '/') && Free(name, '.')
    ensures ExtName(name) == ""
  {
  }

  /** A plain name whose only dot is its first character (a dot-file) has no extension. */
  lemma DotFileHasNoExtension(name: string)
    requires Free(name, '/')
    requires |name| >= 1 && name[0] == '.' && Free(name[1..], '.')
    ensures ExtName(name) == ""
  {
    assert forall j :: 0 < j < |name| ==> name[j] == name[1..][j - 1];
  }

  /** The extension is taken from the LAST dot: an earlier dot does not matter ... */
  lemma InnerDotAccepted()
    ensures FileFilter("a.b.mp4").Accept?
  {
    ExtNameOfSuffix("a.b.mp4", ".mp4");
  }

  /** ... and an allowed extension that is not the last one does not help. */
  lemma LastDotRejected()
    ensures FileFilter("a.mp4.avi").Reject? && ExtName("a.mp4.avi") == ".avi"
  {
    ExtNameOfSuffix("a.mp4.avi", ".avi");
  }

  /** The comparison is case-sensitive: an upper-case extension is refused. */
  lemma UpperCaseRejected()
    ensures FileFilter("clip.MP4").Reject? && ExtName("clip.MP4") == ".MP4"
  {
    ExtNameOfSuffix("clip.MP4", ".MP4");
  }

  /** A name with no dot has an empty extension and is refused. */
  lemma NoDotRejected()
    ensures FileFilter("movie").Reject? && ExtName("movie") == ""
  {
    NoDotNoExtension("movie");
  }

  /** A dot-file named like an extension has an empty extension and is refused. */
  lemma DotFileRejected()
    ensures FileFilter(".mp4").Reject? && ExtName(".mp4") == ""
  {
    DotFileHasNoExtension(".mp4");
  }

  /** `storage.filename`: an accepted upload keeps its original name. */
  function StoredName(originalname: string): (name: string)
    ensures name == originalname
  {
    originalname
  }

  /** An accepted upload can never be the temp root's `.gitkeep` marker, so the sweep treats
      it like any other entry. */
  lemma AcceptedIsNotMarker(originalname: string)
    requires FileFilter(originalname).Accept?
    ensures StoredName(originalname) != ".gitkeep"
  {
    MarkerRejected();
  }

  /** The filter refuses the name `.gitkeep`: a dot-file has no extension. */
  lemma MarkerRejected()
    ensures FileFilter(".gitkeep").Reject?
  {
    var name := ".gitkeep";
    assert Free(name, '/');
    assert name[0] == '.' && Free(name[1..], '.');
    DotFileHasNoExtension(name);
  }
}
