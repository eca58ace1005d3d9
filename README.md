# Nix per-user directories, modelled in Dafny

This project models the per-user directory layer of Nix's `libutil`. That layer does the following:

- It works out the user name.
- It works out the home directory. `$HOME` is trusted only if it does not exist or belongs to the effective user; otherwise the passwd home is used. The answer is computed once per process and cached.
- It resolves the cache, config, data and state directories. On POSIX each has a three-level precedence: the `NIX_*_HOME` override, then `XDG_*_HOME/nix`, then a default under the home directory. On Windows there are only two levels and no XDG variable is read: the `NIX_*_HOME` override, then `nix\<kind>` under the Local or Roaming AppData known folder.
- It builds the configuration search path.
- It creates the state directory.
- It expands a leading `~`.

The operating system is modelled as inputs:

- An environment snapshot (`Env`, a map from names to values).
- On POSIX, the real and effective user ids, what `getpwuid` and `getpwuid_r` answer, and what `stat` reports (`UnixUsers.PosixOs`).
- On Windows, the reply the known-folder API gives for each folder (`WindowsUsers.Shell`). `canonPath` is a function parameter.
- Warnings are returned as values (`UnixUsers.Warning`), not printed.

`std::filesystem::path::operator/` is written out explicitly, not as string concatenation:

- `Paths.PosixJoin` on POSIX: an absolute right-hand side replaces the left-hand side; a separator is inserted only when the left-hand side has a filename; appending `""` adds a trailing `/`.
- `Paths.WindowsJoin` on Windows, for plain elements: the same rule with `\`, where a bare drive such as `C:` has no filename.

The function-local statics become class fields of type `Option<Path>`:

- `UnixUsers.HomeCache` holds the POSIX home.
- `WindowsUsers.UserFolders` holds the Windows home and the two known folders.

A static whose initialiser throws stays uninitialised, so the next call runs the initialiser again; the model keeps `None` after an error. The Windows home assertion is the exception: it does not throw but ends the process (see "## Left out").

Modules, leaf first:

- `Results`: `Option`, `Result` and `Outcome`, and the error kinds.
- `Paths`: paths, the environment, and the two join operators.
- `Users`: `src/libutil/users.cc`, the portable resolvers, the search path, `createNixStateDir` and `expandTilde`. They take the outcome of `getHome()` as the parameter `home`.
- `UnixUsers`: `src/libutil/unix/users.cc`.
- `WindowsUsers`: `src/libutil/windows/users.cc`.

## Model

| member | source | states |
|---|---|---|
| Paths.PosixJoinShape | src/libutil/users.cc:96 | `a / b` is `b` when `b` is absolute. Otherwise it is `a`, one `/` exactly when `a` has a filename, then `b`. It always ends with `b`. |
| Paths.JoinNameStep | src/libutil/users.cc:19 | Joining a relative element inserts `/` only after a filename, and the result again has a filename. |
| Paths.WindowsJoin | src/libutil/windows/users.cc:79 | `a / n` for a plain element keeps `a` as a prefix and ends with `n`, with a `\` in between exactly when `a` has a filename. The result has a filename. |
| Users.HomeDefaultSpelledOut | src/libutil/users.cc:19-79 | The element-by-element join `home / ".cache" / "nix"` (and `.config/nix`, `.local/share/nix`, `.local/state/nix`) equals home, one `/` if home has a filename, then the XDG default suffix. |
| Users.ResolveBaseDir | src/libutil/users.cc:9-82 | A set override is returned verbatim without consulting XDG or the home. Otherwise a set `XDG_*_HOME` is joined with `nix`. Otherwise the home's default suffix is used, and an error from `getHome()` propagates. |
| Users.EmptyXdgIsRelative | src/libutil/users.cc:15-17 | An `XDG_*_HOME` that is set but empty yields the relative path `nix`. |
| Users.ConfigDirs | src/libutil/users.cc:39-52 | Element 0 is the config dir, unchanged. It is followed, in parser order and with no deduplication, by every parsed `XDG_CONFIG_DIRS` entry (default `/etc/xdg`) with `nix` appended once. The length is 1 plus the entry count. An error from the config dir propagates. |
| Users.AppendAppNameAfterFirst | src/libutil/users.cc:45-50 | The `first`-flag loop leaves element 0 alone and replaces every later element `p` by `p / "nix"` in place. |
| Users.DefaultConfigSearchPath | src/libutil/users.cc:41-44 | With `XDG_CONFIG_DIRS` unset, the search path is exactly the config dir followed by `/etc/xdg/nix`. |
| Users.CreateNixStateDir | src/libutil/users.cc:84-89 | Returns exactly the state directory when creating it succeeds. It fails with the resolver's error or the creation error otherwise. |
| Users.HomeRelative | src/libutil/users.cc:94-95 | The two-character prefix test holds exactly for `~` and for paths starting with `~/`. |
| Users.ExpandTilde | src/libutil/users.cc:91-99 | A path that is not home-relative comes back unchanged without consulting the home. A home-relative path becomes `home / path[1..]`, and an error from `getHome()` propagates. |
| Users.ExpandTildeDiscardsHome | src/libutil/users.cc:96 | As written, `~/rest` expands to `/rest`: the home directory is lost. |
| Users.ExpandBareTildeAddsSeparator | src/libutil/users.cc:96 | As written, `~` expands to the home with a trailing `/`. |
| Users.ExpandTildeIntended | src/libutil/users.cc:91-99 | Corrected expansion: the leading `~` is replaced by the home and the rest is kept, separator included. `~` alone gives exactly the home. |
| Users.ExpandTildeIntendedIsJoin | src/libutil/users.cc:96 | The corrected expansion of `~/rest` is `home / rest` for a relative `rest`. |
| UnixUsers.UserName | src/libutil/unix/users.cc:12-19 | Gives the passwd name when an entry exists, otherwise `$USER`. An empty passwd name does not fall back to `$USER`. It fails exactly when the chosen name is empty, and any result is non-empty. |
| UnixUsers.HomeOf | src/libutil/unix/users.cc:21-29 | Succeeds exactly when the lookup returns 0 with an entry whose home field is present and non-empty. It then gives that field. |
| UnixUsers.ResolveHome | src/libutil/unix/users.cc:33-62 | A set `$HOME` that does not exist or is owned by the effective user is returned unchanged and silently. In every other case the effective user's passwd home is used. A stat failure other than ENOENT always warns. An unowned `$HOME` warns only when it differs from the passwd home. Unset `$HOME` never warns, and an empty result comes only from an empty `$HOME`. |
| UnixUsers.ComputeHome | src/libutil/unix/users.cc:33-62 | The step-by-step initialiser, with its `reset`, `swap` and reassignment, yields exactly the warnings and home of the trust algorithm. |
| UnixUsers.IsRootUser | src/libutil/unix/users.cc:66-69 | True exactly when the real user id (not the effective one) is 0. |
| UnixUsers.SearchPath | src/libutil/unix/users.cc:106-111 | The `push_back` loop gives the first directory, then `token / "nix"` for each token, in order. |
| UnixUsers.HomeCache.constructor | src/libutil/unix/users.cc:33 | The cache starts uninitialised. |
| UnixUsers.HomeCache.GetHome | src/libutil/unix/users.cc:31-64 | A filled cache is returned silently and stays unchanged. An empty cache runs the trust algorithm and is filled only on success. |
| UnixUsers.HomeCache.BaseDir | src/libutil/unix/users.cc:71-142 | Follows the same precedence as `Users.ResolveBaseDir`. `getHome()` is called, and the cache touched, only when neither the override nor the XDG variable is set. |
| UnixUsers.HomeCache.ConfigDirs | src/libutil/unix/users.cc:101-112 | The config dir comes first, then `token / "nix"` for every token of `XDG_CONFIG_DIRS` (default `/etc/xdg`), in order. The length is 1 plus the token count. Errors propagate, and the cache changes as for the config dir. |
| UnixUsers.HomeIsComputedOnce | src/libutil/unix/users.cc:33-63 | Once a first `getHome()` succeeds, a second returns the same path with no warning, whatever the environment and the system say by then. After a failure, the second call evaluates again. |
| WindowsUsers.GetKnownFolder | src/libutil/windows/users.cc:52-60 | Succeeds exactly when the HRESULT is non-negative. On failure the code is the status reinterpreted as an unsigned 32-bit DWORD: the HRESULT plus 2^32, in [2^31, 2^32). |
| WindowsUsers.WindowsHome | src/libutil/windows/users.cc:39-43 | Gives `%USERPROFILE%` canonicalised, or `C:\Users\Default` canonicalised when it is unset. An empty value fails the assertion. |
| WindowsUsers.IsRootUser | src/libutil/windows/users.cc:47-50 | Always false. |
| WindowsUsers.WindowsBaseDir | src/libutil/windows/users.cc:74-109 | A set override is returned verbatim. Otherwise the result is the known folder, `\` if that folder has a filename, then `nix\<kind>`. A known-folder error propagates. |
| WindowsUsers.WindowsBaseDirIgnoresOtherVariables | src/libutil/windows/users.cc:74-109 | Changing any variable other than the override, such as an `XDG_*` one, leaves the result unchanged. |
| WindowsUsers.UserFolders.constructor | src/libutil/windows/users.cc:39 | All three statics start uninitialised. |
| WindowsUsers.UserFolders.GetHome | src/libutil/windows/users.cc:37-45 | A filled cache is returned and kept. An empty cache evaluates the home and is filled only on success. No other static changes. |
| WindowsUsers.UserFolders.LocalAppDataFolder | src/libutil/windows/users.cc:62-66 | Local AppData is fetched only while its own cache is empty, and cached on success. No other static changes. |
| WindowsUsers.UserFolders.RoamingAppDataFolder | src/libutil/windows/users.cc:68-72 | Roaming AppData is fetched only while its own cache is empty, and cached on success. No other static changes. |
| WindowsUsers.UserFolders.BaseDir | src/libutil/windows/users.cc:74-109 | Configuration uses Roaming AppData; cache, data and state use Local AppData. Only that folder's cache may change, and only when the override is unset. |
| WindowsUsers.UserFolders.ConfigDirs | src/libutil/windows/users.cc:90-93 | Gives exactly one element, the config dir. Errors propagate. Local AppData is untouched; Roaming AppData is untouched when the override is set, and otherwise is filled exactly as `getRoamingAppDataFolder()` leaves it. |
| WindowsUsers.FoldersResolvedOnce | src/libutil/windows/users.cc:37-72 | After a first round of calls, each static that succeeded answers the second round unchanged, whatever the environment and the shell say by then. Each folder is cached independently, and a folder whose fetch failed is fetched again. The home can fail only through its assertion, which ends the process. |

## Left out

- OS calls are input parameters, not calls: `getpwuid`, `getpwuid_r`, `stat`/`errno`, `geteuid`, `getuid`, `SHGetKnownFolderPath` and `CoTaskMemFree`. `errno` is taken as the value `stat` set.
- The Windows `getUserName` (src/libutil/windows/users.cc:14-35) is not modelled. It is a two-call buffer protocol around `GetUserNameA`, with nothing to state beyond what the API answers.
- `canonPath` is an arbitrary total function. Its normalisation, and any error it could throw, are not modelled.
- Users.CreateNixStateDir: `createDirs` is an opaque outcome. Nothing is stated about its effect on the file system, or about repeated creation being harmless.
- Users.ConfigDirs: `ExecutablePath::parseAppend` is an arbitrary function from the variable's value to a list of paths. Its splitting and its handling of empty entries are not modelled.
- UnixUsers.HomeCache.ConfigDirs: `tokenizeString` on `:` is likewise an arbitrary function from a string to tokens.
- Thread safety of the function-local statics is not modelled. Only the single-threaded "computed once, then cached" behaviour is.
- Warning texts are not modelled; each warning is a datatype value carrying the paths and errno it mentions.
- OS string encoding (`getEnvOs`, `OS_STR`) is not modelled; environment values are strings.
- `src/libutil/windows/known-folders.hh` is not part of this model. It only declares two functions.
- Paths.WindowsJoin: only plain elements are joined. A root name made of a UNC server alone (`\\server`) is treated as having a filename, so that one case is not modelled.
- `src/libutil/users.cc` is modelled with POSIX path semantics (`PosixJoin`) only. Its variables are read through the OS-string interface, so the file is not tied to POSIX, but Windows `operator/` is not modelled for it; there, for example, expanding `~/x` would keep the drive letter of the home.
- WindowsUsers.WindowsHome: `assert(!homeDir.empty())` is modelled as the error `AssertionFailure`. It does not throw: a debug build aborts the process, and a build with `NDEBUG` goes on to canonicalise the empty path, which is not modelled.
- WindowsUsers.UserFolders.GetHome: after `AssertionFailure` the cache stays empty and a later call evaluates again, as for a thrown error. No run of the program makes that later call, because the assertion has ended the process; `WindowsUsers.FoldersResolvedOnce` accordingly says nothing about a second call after a failed home.

## Notes

- An `XDG_*_HOME` that is set to the empty string counts as set, and the directory becomes the relative path `nix` (`Users.EmptyXdgIsRelative`). The XDG Base Directory Specification asks for an empty value to be treated as unset. The code is followed here.
- A `$HOME` set to the empty string is trusted when `stat` reports ENOENT for it, so the home is then `""`. `UnixUsers.ResolveHome` states that this is the only way the home can be empty.

## Findings

| source | as written | input that shows it | evidently intended | confidence | as-written member | corrected member |
|---|---|---|---|---|---|---|
| src/libutil/users.cc:96 | `getHome() / path.substr(1)`: for `~/x` the right-hand side `/x` is absolute and replaces the home | `expandTilde("~/x")` with home `/home/alice` gives `/x` | `/home/alice/x`: the `~` replaced by the home, the rest kept | not executed | Users.ExpandTildeDiscardsHome | Users.ExpandTildeIntendedIsJoin |
| src/libutil/users.cc:96 | for `~` the right-hand side is `""`, and appending `""` adds a separator | `expandTilde("~")` with home `/home/alice` gives `/home/alice/` | exactly the home, `/home/alice` | not executed | Users.ExpandBareTildeAddsSeparator | Users.ExpandTildeIntended |
