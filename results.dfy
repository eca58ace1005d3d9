/** Optional values, results and the error kinds thrown by the user-directory layer. */
module Results {

  datatype Option<+T> = None | Some(value: T) {
    function GetOr(default: T): T {
      match this
      case Some(v) => v
      case None => default
    }
  }

  /** The errors the layer raises; each stands for one `throw` in the source. */
  datatype Error =
    | CannotFigureOutUserName        // getUserName: no usable name
    | CannotDetermineHome            // getHomeOf: passwd lookup unusable
    | WinError(code: int)            // a Windows API failure, with its status as a DWORD
    | AssertionFailure               // Windows getHome: `assert(!homeDir.empty())` fails
    | FilesystemError(errno: int)    // createDirs failed

  /** A value, or the exception that was thrown instead. */
  datatype Result<+T> = Ok(value: T) | Err(error: Error)

  /** The outcome of an action that returns nothing but may throw. */
  datatype Outcome = Pass | Fail(error: Error)
}
