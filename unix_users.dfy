/**
 * The POSIX user layer (src/libutil/unix/users.cc): the user name, the
 * passwd home of a user id, the trusted and cached home directory, the
 * root test, and the base directories and configuration search path built
 * on that home.
 *
 * The operating system is a snapshot of facts (`PosixOs`): the real and
 * effective user ids, what getpwuid and getpwuid_r answer, and what stat
 * reports for a path. Warnings are returned as values instead of printed.
 */
module UnixUsers {
  import opened Results
  import opened Paths
  import opened Users

  /** uid_t: an unsigned 32-bit user id. */
  type Uid = x: int | 0 <= x < 0x1_0000_0000

  /** The errno stat sets for a path that does not exist. */
  const ENOENT: int := 2

  /** The fields of a passwd entry the layer reads; `dir` is None when pw_dir is a null pointer. */
  datatype Passwd = Passwd(name: string, dir: Option<string>)

  /** What getpwuid_r returns, and the entry pointer it stores (None for a null pointer). */
  datatype PwLookup = PwLookup(status: int, entry: Option<Passwd>)

  /** stat(): the owner on success, errno on failure. */
  datatype StatResult = StatOk(ownerUid: Uid) | StatErr(errno: int)

  /** The operating-system facts the layer reads. */
  datatype PosixOs = PosixOs(
    euid: Uid,                          // geteuid()
    uid: Uid,                           // getuid()
    getpwuid: Uid -> Option<Passwd>,    // getpwuid(); None for a null result
    getpwuidR: Uid -> PwLookup,         // getpwuid_r() with its 16384-byte buffer
    stat: Path -> StatResult)

  /** The two warnings getHome can emit. */
  datatype Warning =
    | StatFailed(home: Path, errno: int)          // $HOME could not be examined
    | HomeNotOwned(home: Path, passwdHome: Path)  // $HOME belongs to someone else

  /** The warnings emitted while resolving the home directory, and the home or the error thrown. */
  datatype HomeOutcome = HomeOutcome(warnings: seq<Warning>, home: Result<Path>)

  /**
   * getUserName: the passwd name of the effective user if there is an
   * entry (even an empty one), otherwise $USER; an empty choice fails.
   */
  function UserName(env: Env, os: PosixOs): (r: Result<string>)
    ensures r.Ok? ==> r.value != []
    ensures r.Err? ==> r.error == CannotFigureOutUserName
    ensures os.getpwuid(os.euid).Some? ==>
      (r.Ok? <==> os.getpwuid(os.euid).value.name != []) &&
      (r.Ok? ==> r.value == os.getpwuid(os.euid).value.name)
    ensures os.getpwuid(os.euid).None? ==>
      (r.Ok? <==> "USER" in env && env["USER"] != []) &&
      (r.Ok? ==> r.value == env["USER"])
  {
    var pw := os.getpwuid(os.euid);
    var name := if pw.Some? then pw.value.name else GetEnv(env, "USER").GetOr("");
    if name == [] then Err(CannotFigureOutUserName) else Ok(name)
  }

  /** The lookup succeeded and found an entry with a non-empty home field. */
  predicate UsableEntry(lookup: PwLookup) {
    lookup.status == 0 && lookup.entry.Some? && lookup.entry.value.dir.Some? && lookup.entry.value.dir.value != []
  }

  /** getHomeOf: the home field of the passwd entry of `userId`; any unusable lookup fails. */
  function HomeOf(os: PosixOs, userId: Uid): (r: Result<Path>)
    ensures r.Ok? <==> UsableEntry(os.getpwuidR(userId))
    ensures r.Ok? ==> r.value == os.getpwuidR(userId).entry.value.dir.value && r.value != []
    ensures r.Err? ==> r.error == CannotDetermineHome
  {
    var lookup := os.getpwuidR(userId);
    if lookup.status != 0 || lookup.entry.None? || lookup.entry.value.dir.None? || lookup.entry.value.dir.value == [] then
      Err(CannotDetermineHome)
    else
      Ok(lookup.entry.value.dir.value)
  }

  /** $HOME is set and either does not exist or is owned by the effective user. */
  predicate TrustsHome(env: Env, os: PosixOs) {
    "HOME" in env &&
    (os.stat(env["HOME"]) == StatErr(ENOENT) ||
     (os.stat(env["HOME"]).StatOk? && os.stat(env["HOME"]).ownerUid == os.euid))
  }

  /**
   * The body of getHome's one-time initialiser. A trusted $HOME is returned
   * unchanged and silently; otherwise the effective user's passwd home is
   * used. A stat failure other than ENOENT always warns; an unowned $HOME
   * warns only if it differs from the passwd home that replaces it.
   */
  function ResolveHome(env: Env, os: PosixOs): (o: HomeOutcome)
    ensures TrustsHome(env, os) ==> o == HomeOutcome([], Ok(env["HOME"]))
    ensures !TrustsHome(env, os) ==> o.home == HomeOf(os, os.euid)
    ensures "HOME" !in env ==> o.warnings == []
    ensures "HOME" in env && os.stat(env["HOME"]).StatErr? && os.stat(env["HOME"]).errno != ENOENT ==>
      o.warnings == [StatFailed(env["HOME"], os.stat(env["HOME"]).errno)]
    ensures "HOME" in env && os.stat(env["HOME"]).StatOk? && os.stat(env["HOME"]).ownerUid != os.euid ==>
      o.warnings == (if o.home.Ok? && o.home.value != env["HOME"] then [HomeNotOwned(env["HOME"], o.home.value)] else [])
    ensures o.home.Ok? && o.home.value == [] ==> "HOME" in env && env["HOME"] == []
  {
    match GetEnv(env, "HOME")
    case None => HomeOutcome([], HomeOf(os, os.euid))
    case Some(h) =>
      match os.stat(h)
      case StatErr(e) =>
        if e == ENOENT then HomeOutcome([], Ok(h))
        else HomeOutcome([StatFailed(h, e)], HomeOf(os, os.euid))
      case StatOk(owner) =>
        if owner == os.euid then HomeOutcome([], Ok(h))
        else
          var passwdHome := HomeOf(os, os.euid);
          var warnings := if passwdHome.Ok? && passwdHome.value != h then [HomeNotOwned(h, passwdHome.value)] else [];
          HomeOutcome(warnings, passwdHome)
  }

  /**
   * The initialiser step by step, as the source runs it: `homeDir` and
   * `unownedUserHomeDir` are reset, swapped and reassigned in place.
   */
  method ComputeHome(env: Env, os: PosixOs) returns (warnings: seq<Warning>, r: Result<Path>)
    ensures HomeOutcome(warnings, r) == ResolveHome(env, os)
  {
    warnings := [];
    var unownedUserHomeDir: Option<Path> := None;
    var homeDir := GetEnv(env, "HOME");
    if homeDir.Some? {
      var st := os.stat(homeDir.value);
      match st {
        case StatErr(e) =>
          if e != ENOENT {
            warnings := warnings + [StatFailed(homeDir.value, e)];
            homeDir := None;
          }
        case StatOk(owner) =>
          if owner != os.euid {
            unownedUserHomeDir, homeDir := homeDir, unownedUserHomeDir;
          }
      }
    }
    if homeDir.None? {
      var passwdHome := HomeOf(os, os.euid);
      if passwdHome.Err? {
        return warnings, Err(passwdHome.error);
      }
      homeDir := Some(passwdHome.value);
      if unownedUserHomeDir.Some? && unownedUserHomeDir != homeDir {
        warnings := warnings + [HomeNotOwned(unownedUserHomeDir.value, homeDir.value)];
      }
    }
    r := Ok(homeDir.value);
  }

  /** isRootUser: the REAL user id (getuid, not geteuid) is 0. */
  function IsRootUser(os: PosixOs): (b: bool)
    ensures b <==> os.uid == 0
  {
    os.uid == 0
  }

  /**
   * The push_back loop of getConfigDirs: `first`, then `token / "nix"` for
   * each token, in order.
   */
  method SearchPath(first: Path, tokens: seq<string>) returns (result: seq<Path>)
    ensures |result| == 1 + |tokens|
    ensures result[0] == first
    ensures forall i :: 0 <= i < |tokens| ==> result[i + 1] == PosixJoin(tokens[i], AppName)
  {
    result := [first];
    for i := 0 to |tokens|
      invariant |result| == 1 + i
      invariant result[0] == first
      invariant forall j :: 0 <= j < i ==> result[j + 1] == PosixJoin(tokens[j], AppName)
    {
      result := result + [PosixJoin(tokens[i], AppName)];
    }
  }

  /** What getHome() gives when its cache holds `cached`. */
  function CachedHome(cached: Option<Path>, env: Env, os: PosixOs): Result<Path> {
    if cached.Some? then Ok(cached.value) else ResolveHome(env, os).home
  }

  /** The warnings getHome() emits when its cache holds `cached`. */
  function CachedWarnings(cached: Option<Path>, env: Env, os: PosixOs): seq<Warning> {
    if cached.Some? then [] else ResolveHome(env, os).warnings
  }

  /** The cache after getHome(): filled on success, left empty when the initialiser threw. */
  function CacheAfter(cached: Option<Path>, env: Env, os: PosixOs): Option<Path> {
    match CachedHome(cached, env, os)
    case Ok(h) => Some(h)
    case Err(_) => None
  }

  /**
   * The function-local static behind getHome(). Its initialiser runs on the
   * first call; if that throws, the static stays uninitialised and the next
   * call runs it again.
   */
  class HomeCache {
    var homeDir: Option<Path>

    constructor ()
      ensures homeDir == None
    {
      homeDir := None;
    }

    /** getHome(): the cached home, or the initialiser's result, which is then cached. */
    method GetHome(env: Env, os: PosixOs) returns (warnings: seq<Warning>, r: Result<Path>)
      modifies this
      ensures r == CachedHome(old(homeDir), env, os)
      ensures warnings == CachedWarnings(old(homeDir), env, os)
      ensures homeDir == CacheAfter(old(homeDir), env, os)
      ensures old(homeDir).Some? ==> homeDir == old(homeDir) && r == Ok(old(homeDir).value) && warnings == []
    {
      if homeDir.Some? {
        return [], Ok(homeDir.value);
      }
      warnings, r := ComputeHome(env, os);
      if r.Ok? {
        homeDir := Some(r.value);
      }
    }

    /**
     * getCacheDir, getConfigDir, getDataDir, getStateDir: getHome() is
     * called, and the cache possibly filled, only when neither the override
     * nor the XDG variable is set.
     */
    method BaseDir(env: Env, os: PosixOs, k: DirKind) returns (warnings: seq<Warning>, r: Result<Path>)
      modifies this
      ensures r == ResolveBaseDir(env, CachedHome(old(homeDir), env, os), k)
      ensures UsesHome(env, k) ==>
        warnings == CachedWarnings(old(homeDir), env, os) && homeDir == CacheAfter(old(homeDir), env, os)
      ensures !UsesHome(env, k) ==> warnings == [] && homeDir == old(homeDir)
    {
      var dir := GetEnv(env, OverrideVar(k));
      if dir.Some? {
        return [], Ok(dir.value);
      }
      var xdgDir := GetEnv(env, XdgVar(k));
      if xdgDir.Some? {
        return [], Ok(PosixJoin(xdgDir.value, AppName));
      }
      var home;
      warnings, home := GetHome(env, os);
      match home {
        case Err(e) => r := Err(e);
        case Ok(h) => r := Ok(HomeDefault(h, k));
      }
    }

    /**
     * getConfigDirs: getConfigDir() first, then one `token / "nix"` per
     * token of XDG_CONFIG_DIRS (default "/etc/xdg"), in token order and
     * without deduplication. `tokenize` stands for tokenizeString on ":".
     */
    method ConfigDirs(env: Env, os: PosixOs, tokenize: string -> seq<string>) returns (warnings: seq<Warning>, r: Result<seq<Path>>)
      modifies this
      ensures r.Err? <==> ResolveBaseDir(env, CachedHome(old(homeDir), env, os), Config).Err?
      ensures r.Err? ==> r.error == ResolveBaseDir(env, CachedHome(old(homeDir), env, os), Config).error
      ensures r.Ok? ==> |r.value| == 1 + |tokenize(ConfigDirsValue(env))|
      ensures r.Ok? ==> r.value[0] == ResolveBaseDir(env, CachedHome(old(homeDir), env, os), Config).value
      ensures r.Ok? ==> forall i :: 0 <= i < |tokenize(ConfigDirsValue(env))| ==>
        r.value[i + 1] == PosixJoin(tokenize(ConfigDirsValue(env))[i], AppName)
      ensures UsesHome(env, Config) ==>
        warnings == CachedWarnings(old(homeDir), env, os) && homeDir == CacheAfter(old(homeDir), env, os)
      ensures !UsesHome(env, Config) ==> warnings == [] && homeDir == old(homeDir)
    {
      var configHome;
      warnings, configHome := BaseDir(env, os, Config);
      if configHome.Err? {
        return warnings, Err(configHome.error);
      }
      var tokens := tokenize(ConfigDirsValue(env));
      var result := SearchPath(configHome.value, tokens);
      r := Ok(result);
    }
  }

  /**
   * Two calls to getHome() in one process: once the first has resolved a
   * home, the second returns it unchanged and silently, whatever the
   * environment and the system say by then.
   */
  method HomeIsComputedOnce(env1: Env, os1: PosixOs, env2: Env, os2: PosixOs)
    returns (r1: Result<Path>, w2: seq<Warning>, r2: Result<Path>)
    ensures r1 == ResolveHome(env1, os1).home
    ensures r1.Ok? ==> r2 == r1 && w2 == []
    ensures r1.Err? ==> r2 == ResolveHome(env2, os2).home
  {
    var cache := new HomeCache();
    var w1;
    w1, r1 := cache.GetHome(env1, os1);
    w2, r2 := cache.GetHome(env2, os2);
  }
}
