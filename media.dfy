/**
 * The media middleware: requests under the media URL prefix are answered from
 * the media directory with a content type chosen by the file's extension
 * (compared case-insensitively); all other requests pass through.
 */
module Media {

  import opened Wrappers

  /** What the middleware does with a request. */
  datatype Outcome = PassThrough | Serve(filePath: string, contentType: string) | MediaNotFound

  /** `path[len(prefix):]` when `path.startswith(prefix)`; `None` when it does not. */
  function StripPrefix(path: string, prefix: string): (r: Option<string>)
    ensures r.None? <==> !(prefix <= path)
    ensures r.Some? ==> prefix + r.value == path
  {
    if prefix <= path then Some(path[|prefix|..]) else None
  }

  /** Stripping the prefix from a path built on it gives back the rest. */
  lemma StripPrefixRoundTrip(prefix: string, rest: string)
    ensures StripPrefix(prefix + rest, prefix) == Some(rest)
  {
    assert (prefix + rest)[|prefix|..] == rest;
  }

  /** `os.path.join(root, rel)` for two POSIX parts: an absolute `rel` replaces the root. */
  function JoinPath(root: string, rel: string): (r: string)
    ensures |rel| > 0 && rel[0] == '/' ==> r == rel
    ensures |r| >= |rel|
    ensures !(|rel| > 0 && rel[0] == '/') ==> r[|r| - |rel|..] == rel
  {
    if |rel| > 0 && rel[0] == '/' then rel
    else if root == "" || root[|root| - 1] == '/' then root + rel
    else root + "/" + rel
  }

  /** The index of the last `c` in `s`, or -1. */
  function LastIndexOf(s: string, c: char): (r: int)
    ensures -1 <= r < |s|
    ensures r >= 0 ==> s[r] == c
    ensures forall j :: r < j < |s| ==> s[j] != c
  {
    if s == [] then -1
    else if s[|s| - 1] == c then |s| - 1
    else LastIndexOf(s[..|s| - 1], c)
  }

  /**
   * `os.path.splitext(p)[1]`: from the last dot of the last path component to
   * the end, unless that component has only dots before its last dot (a
   * leading-dot name such as `.bashrc` has no extension).
   */
  function Extension(p: string): (e: string)
    ensures e == "" || (e[0] == '.' && |e| <= |p| && e == p[|p| - |e|..])
    ensures forall k :: 0 < k < |e| ==> e[k] != '.' && e[k] != '/'
  {
    var sep := LastIndexOf(p, '/');
    var dot := LastIndexOf(p, '.');
    if dot > sep && HasStem(p, sep + 1, dot) then p[dot..] else ""
  }

  /** Some character of `p[from..to]` is not a dot. */
  predicate HasStem(p: string, from: int, to: int)
  {
    exists k :: from <= k < to && 0 <= k < |p| && p[k] != '.'
  }

  /** An index holding `c` with no `c` after it is the last index of `c`. */
  lemma LastIndexOfIs(s: string, c: char, i: int)
    requires -1 <= i < |s| && (i >= 0 ==> s[i] == c)
    requires forall j :: i < j < |s| ==> s[j] != c
    ensures LastIndexOf(s, c) == i
  {
  }

  /**
   * A last path component made of a stem with some character other than a
   * dot, then a dot, then a suffix with no dot: its extension is the dot and
   * the suffix (`photo.JPG` gives `.JPG`, `a/b.c/x.tar.gz` gives `.gz`).
   */
  lemma ExtensionOfName(dir: string, stem: string, suffix: string)
    requires forall i :: 0 <= i < |stem| ==> stem[i] != '/'
    requires exists i :: 0 <= i < |stem| && stem[i] != '.'
    requires forall i :: 0 <= i < |suffix| ==> suffix[i] != '.' && suffix[i] != '/'
    ensures Extension(dir + stem + "." + suffix) == "." + suffix
  {
    var p := dir + stem + "." + suffix;
    var dot := |dir| + |stem|;
    LastIndexOfIs(p, '.', dot);
    var sep := LastIndexOf(p, '/');
    assert sep < |dir|;
    var i :| 0 <= i < |stem| && stem[i] != '.';
    assert p[|dir| + i] == stem[i];
    assert p[dot..] == "." + suffix;
  }

  /** A last path component without a dot has no extension. */
  lemma NoExtensionWithoutDot(dir: string, name: string)
    requires dir == [] || dir[|dir| - 1] == '/'
    requires forall i :: 0 <= i < |name| ==> name[i] != '.' && name[i] != '/'
    ensures Extension(dir + name) == ""
  {
    var p := dir + name;
    LastIndexOfIs(p, '/', |dir| - 1);
  }

  /**
   * A last path component whose only characters before its last dot are dots
   * (`.bashrc`, `..x`) has no extension.
   */
  lemma NoExtensionForDotName(dir: string, dots: string, suffix: string)
    requires dir == [] || dir[|dir| - 1] == '/'
    requires forall i :: 0 <= i < |dots| ==> dots[i] == '.'
    requires forall i :: 0 <= i < |suffix| ==> suffix[i] != '.' && suffix[i] != '/'
    ensures Extension(dir + dots + "." + suffix) == ""
  {
    var p := dir + dots + "." + suffix;
    var dot := |dir| + |dots|;
    LastIndexOfIs(p, '/', |dir| - 1);
    LastIndexOfIs(p, '.', dot);
    assert !HasStem(p, |dir|, dot) by {
      forall k | |dir| <= k < dot ensures p[k] == '.' {
        assert p[k] == dots[k - |dir|];
      }
    }
  }

  /** ASCII lower case of one character. */
  function LowerChar(c: char): (r: char)
    ensures 'A' <= c <= 'Z' ==> r as int == c as int + 32
    ensures !('A' <= c <= 'Z') ==> r == c
  {
    if 'A' <= c <= 'Z' then (c as int + 32) as char else c
  }

  /** `str.lower()` on ASCII text. */
  function Lower(s: string): (r: string)
    ensures |r| == |s|
    ensures forall i :: 0 <= i < |s| ==> r[i] == LowerChar(s[i])
  {
    if s == [] then [] else [LowerChar(s[0])] + Lower(s[1..])
  }

  /** The extension-to-type table. */
  const ContentTypes: map<string, string> := map[
    ".jpg" := "image/jpeg",
    ".jpeg" := "image/jpeg",
    ".png" := "image/png",
    ".gif" := "image/gif",
    ".webp" := "image/webp",
    ".svg" := "image/svg+xml",
    ".bmp" := "image/bmp",
    ".ico" := "image/x-icon"
  ]

  const DefaultContentType: string := "application/octet-stream"

  /** `_get_content_type`: the table's entry for the lower-cased extension, or the default. */
  function ContentType(filePath: string): (t: string)
    ensures Lower(Extension(filePath)) in ContentTypes ==> t == ContentTypes[Lower(Extension(filePath))]
    ensures Lower(Extension(filePath)) !in ContentTypes ==> t == DefaultContentType
  {
    var ext := Lower(Extension(filePath));
    if ext in ContentTypes then ContentTypes[ext] else DefaultContentType
  }

  /**
   * `process_request`: a path outside the media prefix passes through; inside
   * it, the file at the joined path is served with its content type when it
   * exists (`files` holds the paths that are readable files), otherwise the
   * answer is "not found".
   */
  function ProcessRequest(path: string, mediaUrl: string, mediaRoot: string, files: set<string>): (r: Outcome)
    ensures r.PassThrough? <==> !(mediaUrl <= path)
    ensures r.Serve? ==>
              && mediaUrl <= path && r.filePath in files
              && r.filePath == JoinPath(mediaRoot, path[|mediaUrl|..]) && r.contentType == ContentType(r.filePath)
    ensures r.MediaNotFound? <==> mediaUrl <= path && JoinPath(mediaRoot, path[|mediaUrl|..]) !in files
  {
    match StripPrefix(path, mediaUrl)
    case None => PassThrough
    case Some(rel) =>
      var filePath := JoinPath(mediaRoot, rel);
      if filePath in files then Serve(filePath, ContentType(filePath)) else MediaNotFound
  }

  /** Lower-casing keeps every '/' and '.' where it was and creates no new ones. */
  lemma LowerKeepsSeparators(s: string, c: char)
    requires c == '/' || c == '.'
    ensures forall i :: 0 <= i < |s| ==> (Lower(s)[i] == c <==> s[i] == c)
  {
  }

  lemma {:induction false} LastIndexOfLower(s: string, c: char)
    requires c == '/' || c == '.'
    ensures LastIndexOf(Lower(s), c) == LastIndexOf(s, c)
    decreases |s|
  {
    LowerKeepsSeparators(s, c);
    if s != [] {
      assert Lower(s)[..|s| - 1] == Lower(s[..|s| - 1]);
      LastIndexOfLower(s[..|s| - 1], c);
    }
  }

  /** The extension of the lower-cased path is the lower-cased extension. */
  lemma ExtensionOfLower(p: string)
    ensures Extension(Lower(p)) == Lower(Extension(p))
  {
    LastIndexOfLower(p, '/');
    LastIndexOfLower(p, '.');
    var sep := LastIndexOf(p, '/');
    var dot := LastIndexOf(p, '.');
    if dot > sep {
      StemLower(p, sep + 1, dot);
      LowerSlice(p, dot);
    }
  }

  /** Lower-casing keeps a run of characters all dots exactly when it was all dots. */
  lemma StemLower(p: string, from: int, to: int)
    ensures HasStem(Lower(p), from, to) <==> HasStem(p, from, to)
  {
    LowerKeepsSeparators(p, '.');
    if HasStem(p, from, to) {
      var k :| from <= k < to && 0 <= k < |p| && p[k] != '.';
      assert Lower(p)[k] != '.';
    }
    if HasStem(Lower(p), from, to) {
      var k :| from <= k < to && 0 <= k < |Lower(p)| && Lower(p)[k] != '.';
      assert p[k] != '.';
    }
  }

  /** Lower-casing commutes with taking a suffix. */
  lemma LowerSlice(s: string, i: nat)
    requires i <= |s|
    ensures Lower(s)[i..] == Lower(s[i..])
  {
  }

  lemma LowerIdempotent(s: string)
    ensures Lower(Lower(s)) == Lower(s)
  {
  }

  /** The content type does not depend on letter case: `photo.JPG` and `photo.jpg` are both JPEG. */
  lemma ContentTypeIgnoresCase(p: string, q: string)
    requires Lower(p) == Lower(q)
    ensures ContentType(p) == ContentType(q)
  {
    ExtensionOfLower(p);
    ExtensionOfLower(q);
    LowerIdempotent(Extension(p));
    LowerIdempotent(Extension(q));
  }

  /** Only the two JPEG extensions map to the JPEG type. */
  lemma OnlyJpegKeys(ext: string)
    requires ext in ContentTypes && ext != ".jpg" && ext != ".jpeg"
    ensures ContentTypes[ext] != "image/jpeg"
  {
    assert ext in {".png", ".gif", ".webp", ".svg", ".bmp", ".ico"};
    assert |ContentTypes[ext]| != 10 || ContentTypes[ext][6] == 'w';
  }

  /** A file is served as JPEG exactly when its extension is `.jpg` or `.jpeg` in any letter case. */
  lemma JpegExactly(p: string)
    ensures ContentType(p) == "image/jpeg" <==> Lower(Extension(p)) in {".jpg", ".jpeg"}
  {
    var ext := Lower(Extension(p));
    if ext in ContentTypes && ext != ".jpg" && ext != ".jpeg" {
      OnlyJpegKeys(ext);
    }
    assert |DefaultContentType| != 10;
  }
}
