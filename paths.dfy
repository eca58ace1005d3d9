/**
 * Paths as strings, the environment snapshot, and the two flavours of
 * `std::filesystem::path::operator/` the directory layer relies on.
 */
module Paths {
  import opened Results

  type Path = string

  /** A snapshot of the process environment: variable name to value. */
  type Env = map<string, string>

  function GetEnv(env: Env, name: string): Option<string> {
    if name in env then Some(env[name]) else None
  }

  // ---------------------------------------------------------------------
  // POSIX paths: '/' is the only separator and there is no root name.

  /** A path is absolute on POSIX exactly when it has a root directory. */
  predicate IsAbsolute(p: Path) {
    |p| > 0 && p[0] == '/'
  }

  /** The last element of `p` is non-empty: `p` is not empty and does not end in '/'. */
  predicate HasFilename(p: Path) {
    |p| > 0 && p[|p| - 1] != '/'
  }

  /** A non-empty relative element that does not end in a separator, such as "nix" or ".cache". */
  predicate IsRelativeName(n: string) {
    |n| > 0 && n[0] != '/' && n[|n| - 1] != '/'
  }

  /**
   * `a / b` on POSIX: an absolute right-hand side replaces the left-hand
   * side; otherwise a separator is inserted exactly when the left-hand side
   * has a filename, and `b` is appended (so appending "" to "x" gives "x/").
   */
  function PosixJoin(a: Path, b: Path): Path {
    if IsAbsolute(b) then b
    else if HasFilename(a) then a + "/" + b
    else a + b
  }

  /**
   * What `a / b` looks like: `b` itself when absolute; otherwise `a`, at
   * most one separator, then `b`. The result always ends with `b`.
   */
  lemma PosixJoinShape(a: Path, b: Path)
    ensures IsAbsolute(b) ==> PosixJoin(a, b) == b
    ensures !IsAbsolute(b) ==> |PosixJoin(a, b)| == |a| + |b| + (if HasFilename(a) then 1 else 0)
    ensures !IsAbsolute(b) ==> PosixJoin(a, b)[..|a|] == a
    ensures !IsAbsolute(b) && HasFilename(a) ==> PosixJoin(a, b)[|a|] == '/'
    ensures |b| <= |PosixJoin(a, b)| && PosixJoin(a, b)[|PosixJoin(a, b)| - |b|..] == b
  {
  }

  /** Joining one relative name: a separator only if needed, and the result has a filename. */
  lemma JoinNameStep(p: Path, n: string)
    requires IsRelativeName(n)
    ensures HasFilename(p) ==> PosixJoin(p, n) == p + "/" + n
    ensures !HasFilename(p) ==> PosixJoin(p, n) == p + n
    ensures HasFilename(PosixJoin(p, n))
  {
  }

  // ---------------------------------------------------------------------
  // Windows paths: '\\' and '/' both separate, and a drive letter followed
  // by ':' is a root name.

  predicate IsWinSeparator(c: char) {
    c == '\\' || c == '/'
  }

  predicate IsDriveRoot(p: Path) {
    |p| == 2 && p[1] == ':' && (('a' <= p[0] <= 'z') || ('A' <= p[0] <= 'Z'))
  }

  /** The relative part after the root name is non-empty and does not end in a separator. */
  predicate WinHasFilename(p: Path) {
    |p| > 0 && !IsWinSeparator(p[|p| - 1]) && !IsDriveRoot(p)
  }

  /** A single element without separators and without a ':' that could make it a root name. */
  predicate IsWinPlainName(n: string) {
    |n| > 0 && forall i :: 0 <= i < |n| ==> !IsWinSeparator(n[i]) && n[i] != ':'
  }

  /**
   * `a / n` on Windows for a plain element `n`: the preferred separator
   * '\\' is inserted exactly when `a` has a filename.
   */
  function WindowsJoin(a: Path, n: string): (r: Path)
    requires IsWinPlainName(n)
    ensures |r| == |a| + |n| + (if WinHasFilename(a) then 1 else 0)
    ensures r[..|a|] == a && r[|r| - |n|..] == n
    ensures WinHasFilename(a) ==> r[|a|] == '\\'
    ensures WinHasFilename(r)
  {
    if WinHasFilename(a) then a + "\\" + n else a + n
  }
}
