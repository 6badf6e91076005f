/**
 * The trailing-slash middleware (backend/config/middleware.py): every request
 * path that is not the root, does not already end in `/` and does not name a
 * static file gets one `/` appended, in `path_info` and in `META['PATH_INFO']`.
 */
module Middleware {
  import opened Text

  /** The extensions whose paths are left alone, compared after lower-casing. */
  const CommonExtensions: seq<string> :=
    [".css", ".js", ".jpg", ".jpeg", ".png", ".gif", ".svg", ".ico", ".pdf", ".zip", ".json", ".xml",
     ".woff", ".woff2", ".ttf", ".eot", ".mp4", ".webm"]

  /** `path.split('/')[-1]`: the text after the last `/`, or all of `path` when it has none. */
  function LastSegment(path: string): (r: string)
    ensures forall i :: 0 <= i < |r| ==> r[i] != '/'
    ensures EndsWith(path, r)
    ensures |r| < |path| ==> path[|path| - |r| - 1] == '/'
  {
    var pieces := Split(path, '/');
    JoinEndsWithLast(pieces, '/');
    pieces[|pieces| - 1]
  }

  lemma {:induction false} JoinEndsWithLast(pieces: seq<string>, sep: char)
    requires |pieces| >= 1
    ensures var last := pieces[|pieces| - 1]; var s := Join(pieces, sep);
      EndsWith(s, last) && (|last| < |s| ==> s[|s| - |last| - 1] == sep)
  {
    if |pieces| > 1 {
      JoinEndsWithLast(pieces[1..], sep);
      var tail := Join(pieces[1..], sep);
      var s := Join(pieces, sep);
      assert s == (pieces[0] + [sep]) + tail;
      assert s[|s| - |tail|..] == tail;
    }
  }

  /** The last segment ends, case-insensitively, with one of the common extensions. */
  predicate LooksLikeFile(path: string) {
    exists e :: e in CommonExtensions && EndsWith(ToLower(LastSegment(path)), e)
  }

  /** The path `__call__` leaves in `request.path_info`. */
  function Normalise(path: string): (r: string)
    ensures r == path || r == path + "/"
    ensures EndsWith(r, "/") || LooksLikeFile(path)
    ensures EndsWith(path, "/") ==> r == path
    ensures LooksLikeFile(path) ==> r == path
  {
    if path != "/" && !EndsWith(path, "/") && !LooksLikeFile(path) then path + "/" else path
  }

  /** In particular the root path is never rewritten. */
  lemma RootUnchanged()
    ensures Normalise("/") == "/"
  {
    assert EndsWith("/", "/");
  }

  /** Normalising an already normalised path changes nothing. */
  lemma NormaliseIdempotent(path: string)
    ensures Normalise(Normalise(path)) == Normalise(path)
  {
    var r := Normalise(path);
    if r != path {
      assert EndsWith(r, "/");
    }
  }

  /** The part of a request the middleware reads and writes. */
  class Request {
    var pathInfo: string
    var meta: map<string, string>

    constructor (pathInfo: string, meta: map<string, string>)
      ensures this.pathInfo == pathInfo && this.meta == meta
    {
      this.pathInfo := pathInfo;
      this.meta := meta;
    }

    /** `TrailingSlashMiddleware.__call__` up to the hand-off to the next handler. */
    method Call()
      modifies this
      ensures pathInfo == Normalise(old(pathInfo))
      ensures pathInfo != old(pathInfo) && "PATH_INFO" in old(meta) ==> meta == old(meta)["PATH_INFO" := pathInfo]
      ensures pathInfo == old(pathInfo) || "PATH_INFO" !in old(meta) ==> meta == old(meta)
    {
      var path := pathInfo;
      if path != "/" && !EndsWith(path, "/") {
        var lastSegment := LastSegment(path);
        if !(exists e :: e in CommonExtensions && EndsWith(ToLower(lastSegment), e)) {
          pathInfo := path + "/";
          if "PATH_INFO" in meta {
            meta := meta["PATH_INFO" := pathInfo];
          }
        }
      }
    }
  }
}
