/**
 * The Windows user layer (src/libutil/windows/users.cc): the home
 * directory from %USERPROFILE%, the known folders Local and Roaming
 * AppData with their one-time caches, the root test, and the base
 * directories built on those folders.
 *
 * The shell API is a function from a known folder to the reply
 * SHGetKnownFolderPath would give; canonPath is a parameter.
 */
module WindowsUsers {
  import opened Results
  import opened Paths
  import opened Users

  /** The home used when %USERPROFILE% is not set. */
  const DefaultProfile: string := "C:\\Users\\Default"

  /** The two known folders the layer asks the shell for. */
  datatype KnownFolder = LocalAppData | RoamingAppData

  /** HRESULT: a signed 32-bit status; non-negative means success. */
  type HResult = x: int | -0x8000_0000 <= x < 0x8000_0000

  /** What SHGetKnownFolderPath answers: a status and, on success, the folder. */
  datatype KnownFolderReply = KnownFolderReply(hresult: HResult, path: Path)

  /** The shell API, as the reply it gives for each folder. */
  type Shell = KnownFolder -> KnownFolderReply

  /**
   * getKnownFolder: the folder when SUCCEEDED(hresult); otherwise a
   * WinError whose code is the status reinterpreted as an unsigned DWORD.
   */
  function GetKnownFolder(reply: KnownFolderReply): (r: Result<Path>)
    ensures r.Ok? <==> reply.hresult >= 0
    ensures r.Ok? ==> r.value == reply.path
    ensures r.Err? ==> r.error.WinError? && r.error.code == reply.hresult + 0x1_0000_0000
    ensures r.Err? ==> 0x8000_0000 <= r.error.code < 0x1_0000_0000
  {
    if reply.hresult >= 0 then Ok(reply.path)
    else Err(WinError(reply.hresult % 0x1_0000_0000))
  }

  /**
   * The initialiser of Windows getHome: %USERPROFILE%, or the default
   * profile when unset, canonicalised; an empty value fails the assertion,
   * which in a debug build aborts the process.
   */
  function WindowsHome(env: Env, canon: Path -> Path): (r: Result<Path>)
    ensures "USERPROFILE" !in env ==> r == Ok(canon(DefaultProfile))
    ensures "USERPROFILE" in env && env["USERPROFILE"] != [] ==> r == Ok(canon(env["USERPROFILE"]))
    ensures "USERPROFILE" in env && env["USERPROFILE"] == [] ==> r == Err(AssertionFailure)
  {
    var homeDir := GetEnv(env, "USERPROFILE").GetOr(DefaultProfile);
    if homeDir == [] then Err(AssertionFailure) else Ok(canon(homeDir))
  }

  /** isRootUser: there is no root user on Windows. */
  function IsRootUser(): (b: bool)
    ensures !b
  {
    false
  }

  /** Configuration lives under Roaming AppData; cache, data and state under Local AppData. */
  function FolderOf(k: DirKind): KnownFolder {
    if k == Config then RoamingAppData else LocalAppData
  }

  /** The last element of each Windows base directory. */
  function Leaf(k: DirKind): string {
    match k
    case Cache => "cache"
    case Config => "config"
    case Data => "data"
    case State => "state"
  }

  lemma LeafIsPlain(k: DirKind)
    ensures IsWinPlainName(Leaf(k))
    ensures IsWinPlainName(AppName)
  {
    assert AppName == ['n', 'i', 'x'];
  }

  /** Two plain elements after `f`: the first separator depends on `f`, the second is always '\\'. */
  lemma WindowsJoinTwo(f: Path, m: string, n: string)
    requires IsWinPlainName(m) && IsWinPlainName(n)
    ensures WinHasFilename(f) ==> WindowsJoin(WindowsJoin(f, m), n) == f + "\\" + (m + "\\" + n)
    ensures !WinHasFilename(f) ==> WindowsJoin(WindowsJoin(f, m), n) == f + (m + "\\" + n)
  {
    var q := WindowsJoin(f, m);
    assert WindowsJoin(q, n) == q + "\\" + n;
  }

  /**
   * getCacheDir, getConfigDir, getDataDir, getStateDir: the NIX_*_HOME
   * override verbatim, else `folder / "nix" / leaf`. No XDG variable is
   * consulted.
   */
  function WindowsBaseDir(env: Env, folder: Result<Path>, k: DirKind): (r: Result<Path>)
    ensures OverrideVar(k) in env ==> r == Ok(env[OverrideVar(k)])
    ensures OverrideVar(k) !in env && folder.Err? ==> r == Err(folder.error)
    ensures OverrideVar(k) !in env && folder.Ok? && WinHasFilename(folder.value) ==>
      r == Ok(folder.value + "\\" + (AppName + "\\" + Leaf(k)))
    ensures OverrideVar(k) !in env && folder.Ok? && !WinHasFilename(folder.value) ==>
      r == Ok(folder.value + (AppName + "\\" + Leaf(k)))
  {
    var dir := GetEnv(env, OverrideVar(k));
    if dir.Some? then Ok(dir.value)
    else
      match folder
      case Err(e) => Err(e)
      case Ok(f) =>
        LeafIsPlain(k);
        WindowsJoinTwo(f, AppName, Leaf(k));
        Ok(WindowsJoin(WindowsJoin(f, AppName), Leaf(k)))
  }

  /** Setting any variable other than the override leaves a Windows base directory as it was. */
  lemma WindowsBaseDirIgnoresOtherVariables(env: Env, name: string, value: string, folder: Result<Path>, k: DirKind)
    requires name != OverrideVar(k)
    ensures WindowsBaseDir(env[name := value], folder, k) == WindowsBaseDir(env, folder, k)
  {
  }

  /** What a one-time static gives when it holds `cached` and its initialiser would give `initial`. */
  function Cached(cached: Option<Path>, initial: Result<Path>): Result<Path> {
    if cached.Some? then Ok(cached.value) else initial
  }

  /** The static after the call: filled on success, still empty when the initialiser threw. */
  function Filled(r: Result<Path>): Option<Path> {
    if r.Ok? then Some(r.value) else None
  }

  /**
   * The three function-local statics of the Windows layer: the home, and
   * the Local and Roaming AppData folders, each filled at most once and
   * independently of the others.
   */
  class UserFolders {
    var homeDir: Option<Path>
    var localAppData: Option<Path>
    var roamingAppData: Option<Path>

    constructor ()
      ensures homeDir == None && localAppData == None && roamingAppData == None
    {
      homeDir, localAppData, roamingAppData := None, None, None;
    }

    /** The cache behind the given known folder. */
    function FolderCache(f: KnownFolder): Option<Path>
      reads this
    {
      if f == LocalAppData then localAppData else roamingAppData
    }

    /** getHome() */
    method GetHome(env: Env, canon: Path -> Path) returns (r: Result<Path>)
      modifies this`homeDir
      ensures r == Cached(old(homeDir), WindowsHome(env, canon))
      ensures homeDir == Filled(r)
      ensures old(homeDir).Some? ==> homeDir == old(homeDir)
    {
      if homeDir.Some? {
        return Ok(homeDir.value);
      }
      r := WindowsHome(env, canon);
      if r.Ok? {
        homeDir := Some(r.value);
      }
    }

    /** getLocalAppDataFolder() */
    method LocalAppDataFolder(shell: Shell) returns (r: Result<Path>)
      modifies this`localAppData
      ensures r == Cached(old(localAppData), GetKnownFolder(shell(LocalAppData)))
      ensures localAppData == Filled(r)
    {
      if localAppData.Some? {
        return Ok(localAppData.value);
      }
      r := GetKnownFolder(shell(LocalAppData));
      if r.Ok? {
        localAppData := Some(r.value);
      }
    }

    /** getRoamingAppDataFolder() */
    method RoamingAppDataFolder(shell: Shell) returns (r: Result<Path>)
      modifies this`roamingAppData
      ensures r == Cached(old(roamingAppData), GetKnownFolder(shell(RoamingAppData)))
      ensures roamingAppData == Filled(r)
    {
      if roamingAppData.Some? {
        return Ok(roamingAppData.value);
      }
      r := GetKnownFolder(shell(RoamingAppData));
      if r.Ok? {
        roamingAppData := Some(r.value);
      }
    }

    /**
     * The four base-directory resolvers: the known folder is fetched, and
     * its cache possibly filled, only when the override is unset.
     */
    method BaseDir(env: Env, shell: Shell, k: DirKind) returns (r: Result<Path>)
      modifies this`localAppData, this`roamingAppData
      ensures r == WindowsBaseDir(env, Cached(old(FolderCache(FolderOf(k))), GetKnownFolder(shell(FolderOf(k)))), k)
      ensures OverrideVar(k) in env ==> localAppData == old(localAppData) && roamingAppData == old(roamingAppData)
      ensures OverrideVar(k) !in env && FolderOf(k) == LocalAppData ==>
        localAppData == Filled(Cached(old(localAppData), GetKnownFolder(shell(LocalAppData)))) &&
        roamingAppData == old(roamingAppData)
      ensures OverrideVar(k) !in env && FolderOf(k) == RoamingAppData ==>
        roamingAppData == Filled(Cached(old(roamingAppData), GetKnownFolder(shell(RoamingAppData)))) &&
        localAppData == old(localAppData)
    {
      var dir := GetEnv(env, OverrideVar(k));
      if dir.Some? {
        return Ok(dir.value);
      }
      var folder;
      if FolderOf(k) == LocalAppData {
        folder := LocalAppDataFolder(shell);
      } else {
        folder := RoamingAppDataFolder(shell);
      }
      match folder {
        case Err(e) => r := Err(e);
        case Ok(f) =>
          LeafIsPlain(k);
          r := Ok(WindowsJoin(WindowsJoin(f, AppName), Leaf(k)));
      }
    }

    /** getConfigDirs(): the configuration directory alone; XDG_CONFIG_DIRS is not read. */
    method ConfigDirs(env: Env, shell: Shell) returns (r: Result<seq<Path>>)
      modifies this`localAppData, this`roamingAppData
      ensures r.Err? <==> WindowsBaseDir(env, Cached(old(roamingAppData), GetKnownFolder(shell(RoamingAppData))), Config).Err?
      ensures r.Err? ==> r.error == WindowsBaseDir(env, Cached(old(roamingAppData), GetKnownFolder(shell(RoamingAppData))), Config).error
      ensures r.Ok? ==> r.value == [WindowsBaseDir(env, Cached(old(roamingAppData), GetKnownFolder(shell(RoamingAppData))), Config).value]
      ensures localAppData == old(localAppData)
      ensures OverrideVar(Config) in env ==> roamingAppData == old(roamingAppData)
      ensures OverrideVar(Config) !in env ==>
        roamingAppData == Filled(Cached(old(roamingAppData), GetKnownFolder(shell(RoamingAppData))))
    {
      var configDir := BaseDir(env, shell, Config);
      match configDir {
        case Err(e) => r := Err(e);
        case Ok(d) => r := Ok([d]);
      }
    }
  }

  /**
   * Two rounds of calls in one process: every static that the first round
   * filled answers the second round unchanged, whatever %USERPROFILE% and
   * the shell say by then; each folder is fetched independently. The home
   * can only fail through its assertion, which ends the process, so no
   * second round follows a failed home.
   */
  method FoldersResolvedOnce(env1: Env, canon1: Path -> Path, shell1: Shell, env2: Env, canon2: Path -> Path, shell2: Shell)
    returns (home1: Result<Path>, local1: Result<Path>, roaming1: Result<Path>,
             home2: Result<Path>, local2: Result<Path>, roaming2: Result<Path>)
    ensures home1 == WindowsHome(env1, canon1)
    ensures local1 == GetKnownFolder(shell1(LocalAppData))
    ensures roaming1 == GetKnownFolder(shell1(RoamingAppData))
    ensures home1.Err? ==> home1.error == AssertionFailure
    ensures home1.Ok? ==> home2 == home1
    ensures local2 == (if local1.Ok? then local1 else GetKnownFolder(shell2(LocalAppData)))
    ensures roaming2 == (if roaming1.Ok? then roaming1 else GetKnownFolder(shell2(RoamingAppData)))
  {
    var folders := new UserFolders();
    home1 := folders.GetHome(env1, canon1);
    local1 := folders.LocalAppDataFolder(shell1);
    roaming1 := folders.RoamingAppDataFolder(shell1);
    home2 := folders.GetHome(env2, canon2);
    local2 := folders.LocalAppDataFolder(shell2);
    roaming2 := folders.RoamingAppDataFolder(shell2);
  }
}
