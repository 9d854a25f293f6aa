/** Plugin file discovery and the logical name of a plugin.

    The plugin directory is enumerated by `glob` with the pattern "*.py";
    the enumeration itself is an input (the directory listing, in the order
    the file system gives it). What is modelled is which entries the
    pattern keeps, how the candidate paths are built (POSIX `os.path.join`),
    and how a candidate's logical name is derived from its path
    (`os.path.basename(path)[:-3]`). */
module PluginNames {

  /** Index of the last '/' in `p`, or -1 when there is none (`str.rfind`). */
  function LastSlash(p: string): (i: int)
    ensures -1 <= i < |p|
    ensures i >= 0 ==> p[i] == '/'
    ensures forall k :: i < k < |p| ==> p[k] != '/'
    decreases |p|
  {
    if p == [] then -1
    else if p[|p| - 1] == '/' then |p| - 1
    else LastSlash(p[..|p| - 1])
  }

  /** POSIX `os.path.basename`: everything after the last '/'. */
  function Basename(p: string): string {
    p[LastSlash(p) + 1..]
  }

  /** The basename is the longest suffix of the path without a '/': it
      contains none, and it is the whole path or preceded by a '/'. */
  lemma BasenameIsLastComponent(p: string)
    ensures '/' !in Basename(p)
    ensures |Basename(p)| <= |p| && p == p[..|p| - |Basename(p)|] + Basename(p)
    ensures |Basename(p)| < |p| ==> p[|p| - |Basename(p)| - 1] == '/'
  {
    var i := LastSlash(p);
    var b := p[i + 1..];
    assert Basename(p) == b;
    assert |p| - |b| == i + 1;
    assert p[..i + 1] + b == p;
    NoSlashAfter(p, i);
  }

  /** The part of `p` after index `i` has no '/' when no position after `i`
      holds one. */
  lemma NoSlashAfter(p: string, i: int)
    requires -1 <= i < |p|
    requires forall k :: i < k < |p| ==> p[k] != '/'
    ensures '/' !in p[i + 1..]
  {
    var b := p[i + 1..];
    forall k | 0 <= k < |b|
      ensures b[k] != '/'
    {
      assert b[k] == p[i + 1 + k];
    }
  }

  /** POSIX `os.path.join` of two components: an absolute second part wins,
      otherwise a '/' is inserted unless the first part is empty or already
      ends with one. */
  function Join(a: string, b: string): (p: string)
    ensures |b| > 0 && b[0] == '/' ==> p == b
    ensures !(|b| > 0 && b[0] == '/') ==> |a| <= |p| && p[..|a|] == a
    ensures '/' !in b ==> |p| >= |b| + (if a == [] then 0 else 1)
    ensures '/' !in b ==> p[|p| - |b|..] == b
    ensures '/' !in b && a != [] ==> p[|p| - |b| - 1] == '/'
  {
    if |b| > 0 && b[0] == '/' then b
    else if a == [] || a[|a| - 1] == '/' then a + b
    else a + "/" + b
  }

  /** True when `s` ends with ".py". */
  predicate EndsWithPy(s: string) {
    |s| >= 3 && s[|s| - 3..] == ".py"
  }

  /** The pattern "*.py" as `glob` applies it to one directory entry: the
      name ends with ".py", and `*` does not match a leading '.' (hidden
      entries are skipped). */
  predicate MatchesPyPattern(entry: string) {
    EndsWithPy(entry) && entry[0] != '.'
  }

  /** The candidate files of one pass: every entry of the directory listing
      that matches "*.py", joined to the plugin directory, in listing order. */
  function Candidates(dir: string, listing: seq<string>): (files: seq<string>)
    ensures |files| <= |listing|
    ensures forall f :: f in files ==> exists e :: e in listing && MatchesPyPattern(e) && f == Join(dir, e)
    ensures forall e :: e in listing && MatchesPyPattern(e) ==> Join(dir, e) in files
    decreases |listing|
  {
    if listing == [] then []
    else
      var rest := Candidates(dir, listing[1..]);
      if MatchesPyPattern(listing[0]) then [Join(dir, listing[0])] + rest else rest
  }

  /** The logical name of a plugin file: its basename without the final three
      characters (Python's `[:-3]` gives "" on a shorter string). */
  function LogicalName(file: string): string {
    var b := Basename(file);
    if |b| >= 3 then b[..|b| - 3] else ""
  }

  /** The logical name of a "*.py" file is its basename without ".py"; a
      basename shorter than three characters gives ""; a name never contains
      '/'. */
  lemma LogicalNameStripsPy(file: string)
    ensures EndsWithPy(Basename(file)) ==> LogicalName(file) + ".py" == Basename(file)
    ensures |Basename(file)| < 3 ==> LogicalName(file) == ""
    ensures '/' !in LogicalName(file)
  {
    var b := Basename(file);
    if |b| >= 3 {
      assert b == b[..|b| - 3] + b[|b| - 3..];
      var name := b[..|b| - 3];
      forall k | 0 <= k < |name|
        ensures name[k] != '/'
      {
        assert name[k] == b[k];
      }
    }
  }

  /** The basename of a joined path is the entry that was joined. */
  lemma BasenameOfJoin(dir: string, entry: string)
    requires entry != [] && '/' !in entry
    ensures Basename(Join(dir, entry)) == entry
  {
    var p := Join(dir, entry);
    var j := |p| - |entry| - 1;
    var tail := p[|p| - |entry|..];
    assert tail == entry;
    forall k | j < k < |p|
      ensures p[k] != '/'
    {
      assert p[k] == tail[k - j - 1];
    }
    if dir != [] {
      assert p[j] == '/';
    }
    assert LastSlash(p) == j;
  }

  /** Every candidate of a pass is a "*.py" file, and its logical name is the
      directory entry with ".py" removed. */
  lemma CandidateName(dir: string, listing: seq<string>, f: string)
    requires forall e :: e in listing ==> '/' !in e
    requires f in Candidates(dir, listing)
    ensures EndsWithPy(Basename(f))
    ensures exists e :: e in listing && MatchesPyPattern(e) && Basename(f) == e && LogicalName(f) == e[..|e| - 3]
  {
    var e :| e in listing && MatchesPyPattern(e) && f == Join(dir, e);
    BasenameOfJoin(dir, e);
    LogicalNameStripsPy(f);
  }
}
