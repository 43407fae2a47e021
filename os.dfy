/**
 * The filesystem as the resolver sees it: a snapshot that answers the
 * `os.path.exists`, `os.path.isdir`, `os.listdir` and `open` queries, and
 * `os.path.join` on POSIX paths.
 */
module Os {
  import opened Wrappers

  /**
   * `existing`: paths for which `os.path.exists` is true; `directories`: those for
   * which `os.path.isdir` is true; `listings`: the entries `os.listdir` returns (a
   * path without one raises `OSError`); `files`: the lines that can be read from a
   * file (a path without one fails to open). A file that fails part-way is given
   * by its readable prefix: the CSV parse then reports a SPIFFS row met before the
   * failure and nothing otherwise, as the prefix does.
   */
  datatype FileSystem = FileSystem(
    existing: set<string>,
    directories: set<string>,
    listings: map<string, seq<string>>,
    files: map<string, seq<string>>)
  {
    predicate Exists(path: string) {
      path in existing
    }

    predicate IsDir(path: string) {
      path in directories
    }

    /** `os.listdir(path)`, or `None` where it would raise `OSError`. */
    function ListDir(path: string): Option<seq<string>> {
      if path in listings then Some(listings[path]) else None
    }

    /** The lines `for line in open(path)` yields, or `None` where opening fails. */
    function ReadLines(path: string): Option<seq<string>> {
      if path in files then Some(files[path]) else None
    }
  }

  /**
   * `os.path.join(a, b)` with `/` as separator: the result always ends with `b`, and it
   * starts with `a` unless `b` is absolute, in which case `b` replaces `a`.
   */
  function PathJoin(a: string, b: string): (r: string)
    ensures |b| <= |r| && r[|r| - |b|..] == b
    ensures (b == [] || b[0] != '/') ==> a <= r
  {
    if b != [] && b[0] == '/' then b
    else if a == [] || a[|a| - 1] == '/' then a + b
    else a + "/" + b
  }

  /** A prefix of a prefix is a prefix. */
  lemma PrefixTransitive(a: string, b: string, c: string)
    requires a <= b && b <= c
    ensures a <= c
  {
    assert forall k :: 0 <= k < |a| ==> a[k] == b[k] == c[k];
  }
}
