/**
 * The platform-neutral part of the user-directory layer (src/libutil/users.cc):
 * the XDG precedence chain for the four base directories, the configuration
 * search path, state-directory creation and tilde expansion.
 *
 * Everything here that needs the home directory receives `home`, the
 * outcome the platform's getHome() gives (a path or the error it throws);
 * it is consulted only on the paths of the source that call getHome().
 */
module Users {
  import opened Results
  import opened Paths

  /** The application subdirectory appended to every XDG base directory. */
  const AppName: string := "nix"

  /** Used when XDG_CONFIG_DIRS is not set. */
  const DefaultConfigDirs: string := "/etc/xdg"

  datatype DirKind = Cache | Config | Data | State

  /** The dedicated override, used verbatim. */
  function OverrideVar(k: DirKind): string {
    match k
    case Cache => "NIX_CACHE_HOME"
    case Config => "NIX_CONFIG_HOME"
    case Data => "NIX_DATA_HOME"
    case State => "NIX_STATE_HOME"
  }

  /** The XDG base-directory variable, joined with AppName. */
  function XdgVar(k: DirKind): string {
    match k
    case Cache => "XDG_CACHE_HOME"
    case Config => "XDG_CONFIG_HOME"
    case Data => "XDG_DATA_HOME"
    case State => "XDG_STATE_HOME"
  }

  /** `getHome() / ".cache" / "nix"` and its three siblings, element by element as the source joins them. */
  function HomeDefault(h: Path, k: DirKind): Path {
    match k
    case Cache => PosixJoin(PosixJoin(h, ".cache"), AppName)
    case Config => PosixJoin(PosixJoin(h, ".config"), AppName)
    case Data => PosixJoin(PosixJoin(PosixJoin(h, ".local"), "share"), AppName)
    case State => PosixJoin(PosixJoin(PosixJoin(h, ".local"), "state"), AppName)
  }

  /** The default location relative to home, as the XDG Base Directory Specification spells it. */
  function DefaultSuffix(k: DirKind): string {
    match k
    case Cache => ".cache/nix"
    case Config => ".config/nix"
    case Data => ".local/share/nix"
    case State => ".local/state/nix"
  }

  /** Neither the override nor the XDG variable is set, so the home directory decides. */
  predicate UsesHome(env: Env, k: DirKind) {
    OverrideVar(k) !in env && XdgVar(k) !in env
  }

  /** Joining two relative names onto `p`: one separator between them, and one before them if `p` needs it. */
  lemma JoinTwoNames(p: Path, m: string, n: string)
    requires IsRelativeName(m) && IsRelativeName(n)
    ensures HasFilename(p) ==> PosixJoin(PosixJoin(p, m), n) == p + "/" + (m + "/" + n)
    ensures !HasFilename(p) ==> PosixJoin(PosixJoin(p, m), n) == p + (m + "/" + n)
  {
    JoinNameStep(p, m);
    JoinNameStep(PosixJoin(p, m), n);
  }

  /** `p / m / n / o` for three relative names. */
  lemma JoinThreeNames(p: Path, m: string, n: string, o: string)
    requires IsRelativeName(m) && IsRelativeName(n) && IsRelativeName(o)
    ensures HasFilename(p) ==> PosixJoin(PosixJoin(PosixJoin(p, m), n), o) == p + "/" + (m + "/" + n + "/" + o)
    ensures !HasFilename(p) ==> PosixJoin(PosixJoin(PosixJoin(p, m), n), o) == p + (m + "/" + n + "/" + o)
  {
    var q := PosixJoin(PosixJoin(p, m), n);
    JoinTwoNames(p, m, n);
    JoinNameStep(q, o);
    assert HasFilename(q) by {
      JoinNameStep(PosixJoin(p, m), n);
    }
    var s := if HasFilename(p) then p + "/" else p;
    assert q == s + (m + "/" + n);
    assert q + "/" + o == s + (m + "/" + n + "/" + o);
  }

  /** The default suffixes are the source's elements with '/' between them. */
  lemma DefaultSuffixElements()
    ensures DefaultSuffix(Cache) == ".cache" + "/" + AppName
    ensures DefaultSuffix(Config) == ".config" + "/" + AppName
    ensures DefaultSuffix(Data) == ".local" + "/" + "share" + "/" + AppName
    ensures DefaultSuffix(State) == ".local" + "/" + "state" + "/" + AppName
  {
  }

  /** The default directory is the home path, one separator if needed, and the default suffix. */
  lemma HomeDefaultSpelledOut(h: Path, k: DirKind)
    ensures HasFilename(h) ==> HomeDefault(h, k) == h + "/" + DefaultSuffix(k)
    ensures !HasFilename(h) ==> HomeDefault(h, k) == h + DefaultSuffix(k)
  {
    DefaultSuffixElements();
    match k {
      case Cache => JoinTwoNames(h, ".cache", AppName);
      case Config => JoinTwoNames(h, ".config", AppName);
      case Data => JoinThreeNames(h, ".local", "share", AppName);
      case State => JoinThreeNames(h, ".local", "state", AppName);
    }
  }

  /**
   * getCacheDir, getConfigDir, getDataDir, getStateDir: the override
   * verbatim, else the XDG variable joined with "nix", else
   * `home / subdirs / "nix"`; only the last case consults (and can fail on)
   * the home directory.
   */
  function ResolveBaseDir(env: Env, home: Result<Path>, k: DirKind): (r: Result<Path>)
    ensures OverrideVar(k) in env ==> r == Ok(env[OverrideVar(k)])
    ensures OverrideVar(k) !in env && XdgVar(k) in env ==> r == Ok(PosixJoin(env[XdgVar(k)], AppName))
    ensures UsesHome(env, k) && home.Err? ==> r == Err(home.error)
    ensures UsesHome(env, k) && home.Ok? && HasFilename(home.value) ==>
      r == Ok(home.value + "/" + DefaultSuffix(k))
    ensures UsesHome(env, k) && home.Ok? && !HasFilename(home.value) ==>
      r == Ok(home.value + DefaultSuffix(k))
  {
    var dir := GetEnv(env, OverrideVar(k));
    if dir.Some? then Ok(dir.value)
    else
      var xdgDir := GetEnv(env, XdgVar(k));
      if xdgDir.Some? then Ok(PosixJoin(xdgDir.value, AppName))
      else
        match home
        case Err(e) => Err(e)
        case Ok(h) =>
          HomeDefaultSpelledOut(h, k);
          Ok(HomeDefault(h, k))
  }

  /**
   * An XDG variable that is set but empty counts as set: the result is the
   * relative path "nix", where the XDG Base Directory Specification asks
   * for the default.
   */
  lemma EmptyXdgIsRelative(env: Env, home: Result<Path>, k: DirKind)
    requires OverrideVar(k) !in env && XdgVar(k) in env && env[XdgVar(k)] == ""
    ensures ResolveBaseDir(env, home, k) == Ok(AppName) && !IsAbsolute(AppName)
  {
    assert "" + AppName == AppName;
  }

  /** The value XDG_CONFIG_DIRS contributes, defaulted. */
  function ConfigDirsValue(env: Env): string {
    GetEnv(env, "XDG_CONFIG_DIRS").GetOr(DefaultConfigDirs)
  }

  /**
   * getConfigDirs: the user configuration directory first, unchanged, then
   * every directory the path-list parser yields from XDG_CONFIG_DIRS, in
   * order and without deduplication, each with "nix" appended once.
   * `parse` stands for ExecutablePath::parseAppend.
   */
  method ConfigDirs(env: Env, home: Result<Path>, parse: string -> seq<Path>) returns (r: Result<seq<Path>>)
    ensures r.Err? <==> ResolveBaseDir(env, home, Config).Err?
    ensures r.Err? ==> r.error == ResolveBaseDir(env, home, Config).error
    ensures r.Ok? ==> |r.value| == 1 + |parse(ConfigDirsValue(env))|
    ensures r.Ok? ==> r.value[0] == ResolveBaseDir(env, home, Config).value
    ensures r.Ok? ==> forall i :: 1 <= i < |r.value| ==>
      r.value[i] == PosixJoin(parse(ConfigDirsValue(env))[i - 1], AppName)
  {
    var configDirs := ConfigDirsValue(env);
    var configDir := ResolveBaseDir(env, home, Config);
    if configDir.Err? {
      return Err(configDir.error);
    }
    var directories := [configDir.value] + parse(configDirs);
    var a := new Path[|directories|];
    forall k | 0 <= k < a.Length {
      a[k] := directories[k];
    }
    AppendAppNameAfterFirst(a);
    r := Ok(a[..]);
  }

  /**
   * The loop over `result.directories` with its `first` flag: every
   * element but the first gets "nix" appended in place.
   */
  method AppendAppNameAfterFirst(a: array<Path>)
    modifies a
    ensures a.Length > 0 ==> a[0] == old(a[0])
    ensures forall j :: 1 <= j < a.Length ==> a[j] == PosixJoin(old(a[j]), AppName)
  {
    var first := true;
    var i := 0;
    while i < a.Length
      invariant 0 <= i <= a.Length
      invariant first <==> i == 0
      invariant a.Length > 0 ==> a[0] == old(a[0])
      invariant forall j :: 1 <= j < i ==> a[j] == PosixJoin(old(a[j]), AppName)
      invariant forall j :: i <= j < a.Length ==> a[j] == old(a[j])
    {
      if !first {
        a[i] := PosixJoin(a[i], AppName);
      }
      first := false;
      i := i + 1;
    }
  }

  /**
   * With XDG_CONFIG_DIRS unset and a parser that reads "/etc/xdg" as one
   * directory, the search path is the user directory and "/etc/xdg/nix".
   */
  method DefaultConfigSearchPath(env: Env, home: Result<Path>, parse: string -> seq<Path>) returns (r: Result<seq<Path>>)
    requires "XDG_CONFIG_DIRS" !in env
    requires parse(DefaultConfigDirs) == [DefaultConfigDirs]
    ensures r.Ok? <==> ResolveBaseDir(env, home, Config).Ok?
    ensures r.Ok? ==> r.value == [ResolveBaseDir(env, home, Config).value, "/etc/xdg/nix"]
  {
    r := ConfigDirs(env, home, parse);
    if r.Ok? {
      assert PosixJoin(DefaultConfigDirs, AppName) == "/etc/xdg/nix";
      assert r.value == [r.value[0], r.value[1]];
    }
  }

  /**
   * createNixStateDir: resolve the state directory, create it with
   * `createDirs` (whose effect on the file system is not modelled), and
   * return the very path getStateDir() gives.
   */
  method CreateNixStateDir(env: Env, home: Result<Path>, createDirs: Path -> Outcome) returns (r: Result<Path>)
    ensures r.Ok? <==> ResolveBaseDir(env, home, State).Ok? && createDirs(ResolveBaseDir(env, home, State).value).Pass?
    ensures r.Ok? ==> r.value == ResolveBaseDir(env, home, State).value
    ensures r.Err? && ResolveBaseDir(env, home, State).Err? ==> r.error == ResolveBaseDir(env, home, State).error
    ensures r.Err? && ResolveBaseDir(env, home, State).Ok? ==>
      r.error == createDirs(ResolveBaseDir(env, home, State).value).error
  {
    var dir := ResolveBaseDir(env, home, State);
    if dir.Err? {
      return Err(dir.error);
    }
    var created := createDirs(dir.value);
    if created.Fail? {
      return Err(created.error);
    }
    r := Ok(dir.value);
  }

  /** `path.substr(0, 2)` is "~/" or "~": the path is "~" itself or starts with "~/". */
  function HomeRelative(path: string): (b: bool)
    ensures b <==> path == "~" || (|path| >= 2 && path[0] == '~' && path[1] == '/')
  {
    var tilde := if |path| < 2 then path else path[..2];
    tilde == "~/" || tilde == "~"
  }

  /**
   * expandTilde as written: a home-relative path becomes
   * `getHome() / path.substr(1)`; any other path, including "", "~user/x"
   * and "a~", comes back unchanged without consulting the home directory.
   */
  function ExpandTilde(home: Result<Path>, path: string): (r: Result<string>)
    ensures !HomeRelative(path) ==> r == Ok(path)
    ensures HomeRelative(path) && home.Err? ==> r == Err(home.error)
    ensures HomeRelative(path) && home.Ok? ==> r == Ok(PosixJoin(home.value, path[1..]))
  {
    if HomeRelative(path) then
      match home
      case Ok(h) => Ok(PosixJoin(h, path[1..]))
      case Err(e) => Err(e)
    else Ok(path)
  }

  /** As written, "~/rest" loses the home directory: "/rest" is absolute and replaces it. */
  lemma ExpandTildeDiscardsHome(home: Path, rest: string)
    ensures ExpandTilde(Ok(home), "~/" + rest) == Ok("/" + rest)
  {
    var path := "~/" + rest;
    assert path[1..] == "/" + rest;
  }

  /** As written, "~" alone gains a trailing separator. */
  lemma ExpandBareTildeAddsSeparator(home: Path)
    requires HasFilename(home)
    ensures ExpandTilde(Ok(home), "~") == Ok(home + "/")
  {
    assert "~"[1..] == "";
    assert home + "/" + "" == home + "/";
  }

  /**
   * expandTilde as intended: the leading '~' is replaced by the home
   * directory and the rest of the path, separator included, is kept.
   */
  function ExpandTildeIntended(home: Result<Path>, path: string): (r: Result<string>)
    ensures !HomeRelative(path) ==> r == Ok(path)
    ensures HomeRelative(path) && home.Err? ==> r == Err(home.error)
    ensures HomeRelative(path) && home.Ok? ==>
      r.Ok? && |r.value| == |home.value| + |path| - 1 &&
      r.value[..|home.value|] == home.value && r.value[|home.value|..] == path[1..]
    ensures path == "~" ==> r == home
  {
    if HomeRelative(path) then
      match home
      case Ok(h) =>
        assert path == "~" ==> h + path[1..] == h;
        Ok(h + path[1..])
      case Err(e) => Err(e)
    else Ok(path)
  }

  /** The intended expansion of "~/rest" is `home / rest` for a relative rest. */
  lemma ExpandTildeIntendedIsJoin(home: Path, rest: string)
    requires HasFilename(home) && !IsAbsolute(rest)
    ensures ExpandTildeIntended(Ok(home), "~/" + rest) == Ok(PosixJoin(home, rest))
  {
    var path := "~/" + rest;
    assert path[1..] == "/" + rest;
    assert home + ("/" + rest) == home + "/" + rest;
  }
}
