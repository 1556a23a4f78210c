/**
 * The world the two entry points run in, reduced to what their decisions depend on.
 * The CI runner's services (process execution, the semver library, file hashing, the
 * cache service) are function values fixed for one run; the action toolkit's outputs,
 * saved state, log notices and the cache calls made are the fields of an `ActionContext`
 * that the entry points update.
 */
module Actions {
  import opened Wrappers

  /** What `getExecOutput` gives: a rejection (non-zero exit, command not found) or the captured stdout. */
  datatype ExecResult = Failed | Succeeded(stdout: string)

  /** A call `restoreCache(paths, primaryKey, restoreKeys)`. */
  datatype RestoreRequest = RestoreRequest(paths: seq<string>, primaryKey: string, restoreKeys: seq<string>)

  /** A call `saveCache(paths, key)`. */
  datatype SaveRequest = SaveRequest(paths: seq<string>, key: string)

  /**
   * The services of one run:
   * - `platform`: `process.platform`;
   * - `exec(argv)`: running `argv[0]` with arguments `argv[1..]`;
   * - `isYarn2(stdout)`: whether yarn's version output satisfies `>=2.x`;
   * - `nodeMajor(stdout)`: the major of `new SemVer(stdout)`, or None when SemVer rejects it;
   * - `hashFiles(pattern)`: the content hash of the files a glob matches;
   * - `restore(request)`: the key `restoreCache` reports it restored from, if any.
   */
  datatype Environment = Environment(
    platform: string,
    exec: seq<string> -> ExecResult,
    isYarn2: string -> bool,
    nodeMajor: string -> Option<nat>,
    hashFiles: string -> string,
    restore: RestoreRequest -> Option<string>)

  /** The two step inputs, as the workflow wrote them (before `getInput` trims them). */
  datatype Inputs = Inputs(nodeModules: string, packageManager: string)

  /** An output value: `setOutput` is given strings and booleans here. */
  datatype OutputValue = Text(s: string) | Flag(b: bool)

  /** The info line on an exact hit, or the warning on anything else, naming the primary key. */
  datatype Notice = HitInfo(primaryKey: string) | MissWarning(primaryKey: string)

  /** Names of the outputs and saved-state entries. */
  const PKG_MANAGER_OUTPUT := "pkg-manager"
  const LOCKFILE_OUTPUT := "lockfile"
  const CACHE_HIT_OUTPUT := "cache-hit"
  const NODE_MODULES_CACHE_HIT_OUTPUT := "node-modules-cache-hit"
  const CACHE_PRIMARY_KEY_STATE := "nodepm:cachePrimaryKey"
  const NM_PRIMARY_KEY_STATE := "nodepm:nmPrimaryKey"

  /** What one step has done so far to the outside world. */
  class ActionContext {
    var outputs: map<string, OutputValue>
    var state: map<string, string>
    var notices: seq<Notice>
    var restores: seq<RestoreRequest>
    var saves: seq<SaveRequest>

    constructor ()
      ensures outputs == map[] && state == map[] && notices == [] && restores == [] && saves == []
    {
      outputs, state, notices, restores, saves := map[], map[], [], [], [];
    }

    /** `setOutput(name, value)`: a later value for the same name replaces the earlier one. */
    method SetOutput(name: string, value: OutputValue)
      modifies this
      ensures outputs == old(outputs)[name := value]
      ensures state == old(state) && notices == old(notices) && restores == old(restores) && saves == old(saves)
    {
      outputs := outputs[name := value];
    }

    /** `saveState(name, value)`. */
    method SaveState(name: string, value: string)
      modifies this
      ensures state == old(state)[name := value]
      ensures outputs == old(outputs) && notices == old(notices) && restores == old(restores) && saves == old(saves)
    {
      state := state[name := value];
    }

    /** `info(...)` or `warning(...)`, recorded by what it reports. */
    method Notify(n: Notice)
      modifies this
      ensures notices == old(notices) + [n]
      ensures outputs == old(outputs) && state == old(state) && restores == old(restores) && saves == old(saves)
    {
      notices := notices + [n];
    }

    /** `restoreCache(...)`: asks the service and records the call. */
    method RestoreCache(service: RestoreRequest -> Option<string>, request: RestoreRequest) returns (key: Option<string>)
      modifies this
      ensures key == service(request)
      ensures restores == old(restores) + [request]
      ensures outputs == old(outputs) && state == old(state) && notices == old(notices) && saves == old(saves)
    {
      key := service(request);
      restores := restores + [request];
    }

    /** `saveCache(paths, key)`: appends to the log of saves. */
    method SaveCache(request: SaveRequest)
      modifies this
      ensures saves == old(saves) + [request]
      ensures outputs == old(outputs) && state == old(state) && notices == old(notices) && restores == old(restores)
    {
      saves := saves + [request];
    }
  }
}
