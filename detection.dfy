/**
 * Package-manager logic of src/detect.ts: validating the `package-manager` input against
 * the closed list of accepted values, detecting an installed manager in priority order,
 * and the two mappings from a concrete manager to its cache-directory command and its
 * lockfile name. Running a tool is not modelled: detection takes "does `<tool> --version`
 * succeed" as a predicate, and the cache-directory command takes what `yarn --version` said.
 */
module Detection {
  import opened Wrappers

  /** The accepted values of the `package-manager` input; `Detect` means "find out at run time". */
  datatype PackageManager = Npm | Pnpm | Yarn | Detect

  /** The errors the core raises, one per `throw` (the message text is not modelled). */
  datatype Error =
    | NotAString                          // TypeError: the input is not a string
    | NotAPackageManager(received: string) // TypeError: a string outside the accepted list
    | NoPackageManagerFound               // none of pnpm, yarn, npm answered `--version`
    | NoCacheDirCommand                   // getCacheDirCommand asked about `detect`
    | NoLockfile                          // getLockfile asked about `detect`
    | ExecFailed(argv: seq<string>)       // a command exited unsuccessfully or was not found
    | InvalidVersion(text: string)        // `node --version` printed something that is not a version

  /** Both kinds of TypeError that validation throws. */
  predicate IsTypeError(e: Error) {
    e.NotAString? || e.NotAPackageManager?
  }

  /** An input value of unknown type, as `assertValidValue` receives it. */
  datatype Value = StringValue(s: string) | NonString

  /** The spelling of each manager, as it appears in inputs, outputs and cache keys. */
  function Name(pm: PackageManager): string {
    match pm
    case Npm => "npm"
    case Pnpm => "pnpm"
    case Yarn => "yarn"
    case Detect => "detect"
  }

  /** Different managers are spelled differently. */
  lemma NameInjective(a: PackageManager, b: PackageManager)
    ensures Name(a) == Name(b) <==> a == b
  {
  }

  /** The constant `packageManagers` list, searched in this order. */
  const PACKAGE_MANAGERS: seq<PackageManager> := [Npm, Pnpm, Yarn, Detect]

  predicate IsAccepted(s: string) {
    s == "npm" || s == "pnpm" || s == "yarn" || s == "detect"
  }

  /** The accepted strings are exactly the spellings in `PACKAGE_MANAGERS`. */
  lemma AcceptedMeansListed(s: string)
    ensures IsAccepted(s) <==> exists i :: 0 <= i < |PACKAGE_MANAGERS| && Name(PACKAGE_MANAGERS[i]) == s
  {
    if s == "npm" { assert Name(PACKAGE_MANAGERS[0]) == s; }
    if s == "pnpm" { assert Name(PACKAGE_MANAGERS[1]) == s; }
    if s == "yarn" { assert Name(PACKAGE_MANAGERS[2]) == s; }
    if s == "detect" { assert Name(PACKAGE_MANAGERS[3]) == s; }
  }

  /** The first of `candidates` spelled `s`, if any: `candidates.some((i) => s === i)` with its witness. */
  function FindNamed(s: string, candidates: seq<PackageManager>): (r: Option<PackageManager>)
    ensures r.Some? <==> exists i :: 0 <= i < |candidates| && Name(candidates[i]) == s
    ensures r.Some? ==> r.value in candidates && Name(r.value) == s
  {
    if candidates == [] then None
    else if Name(candidates[0]) == s then Some(candidates[0])
    else FindNamed(s, candidates[1..])
  }

  /**
   * `assertValidValue`: a non-string, or a string outside the accepted list, is a TypeError;
   * an accepted string is returned as the manager it names (the cast the callers make).
   */
  function AssertValidValue(v: Value): (r: Result<PackageManager, Error>)
    ensures r.Ok? <==> v.StringValue? && IsAccepted(v.s)
    ensures r.Ok? ==> Name(r.value) == v.s
    ensures r.Err? ==> IsTypeError(r.error)
    ensures v.NonString? ==> r == Err(NotAString)
  {
    match v
    case NonString => Err(NotAString)
    case StringValue(s) =>
      AcceptedMeansListed(s);
      match FindNamed(s, PACKAGE_MANAGERS)
      case Some(pm) => Ok(pm)
      case None =>
        Err(NotAPackageManager(s))
  }

  /**
   * `detectPackageManager`: probes pnpm, then yarn, then npm, and returns the first that is
   * available; fails exactly when none is.
   */
  function DetectPackageManager(available: PackageManager -> bool): (r: Result<PackageManager, Error>)
    ensures r.Ok? <==> available(Pnpm) || available(Yarn) || available(Npm)
    ensures r.Err? ==> r.error == NoPackageManagerFound
    ensures r.Ok? ==> r.value != Detect && available(r.value)
    ensures available(Pnpm) ==> r == Ok(Pnpm)
    ensures !available(Pnpm) && available(Yarn) ==> r == Ok(Yarn)
  {
    if available(Pnpm) then Ok(Pnpm)
    else if available(Yarn) then Ok(Yarn)
    else if available(Npm) then Ok(Npm)
    else Err(NoPackageManagerFound)
  }

  /** The detection priority, as the ordered list of probes it amounts to. */
  const DETECTION_ORDER: seq<PackageManager> := [Pnpm, Yarn, Npm]

  /** Reference definition: the first entry of `order` that is available. */
  function FirstAvailable(order: seq<PackageManager>, available: PackageManager -> bool): (r: Option<PackageManager>)
    ensures r.None? <==> forall i :: 0 <= i < |order| ==> !available(order[i])
    ensures r.Some? ==> exists k :: 0 <= k < |order| && order[k] == r.value && available(order[k])
                          && forall j :: 0 <= j < k ==> !available(order[j])
  {
    if order == [] then None
    else if available(order[0]) then Some(order[0])
    else
      var rest := FirstAvailable(order[1..], available);
      assert rest.Some? ==> exists k :: 0 <= k < |order| && order[k] == rest.value && available(order[k])
                              && forall j :: 0 <= j < k ==> !available(order[j]) by {
        if rest.Some? {
          var k :| 0 <= k < |order[1..]| && order[1..][k] == rest.value && available(order[1..][k])
                   && forall j :: 0 <= j < k ==> !available(order[1..][j]);
          assert order[k + 1] == rest.value;
          assert forall j :: 0 <= j < k + 1 ==> !available(order[j]) by {
            forall j | 0 <= j < k + 1 ensures !available(order[j]) {
              if j > 0 { assert order[j] == order[1..][j - 1]; }
            }
          }
        }
      }
      assert rest.None? ==> forall i :: 0 <= i < |order| ==> !available(order[i]) by {
        if rest.None? {
          forall i | 0 <= i < |order| ensures !available(order[i]) {
            if i > 0 { assert order[i] == order[1..][i - 1]; }
          }
        }
      }
      rest
  }

  /** Detection returns the first available tool of the priority list, and fails when there is none. */
  lemma DetectIsFirstAvailable(available: PackageManager -> bool)
    ensures DetectPackageManager(available) ==
      match FirstAvailable(DETECTION_ORDER, available)
      case Some(pm) => Ok(pm)
      case None => Err(NoPackageManagerFound)
  {
  }

  /** What running `yarn --version` yields: it fails, or prints a version that does or does not satisfy `>=2.x`. */
  datatype YarnVersion = YarnUnavailable | YarnClassic | YarnBerry

  /**
   * `getCacheDirCommand`: the argv that prints the manager's cache directory. Every command
   * starts with the manager's own name; for yarn the command depends on whether the
   * installed yarn is 2.x or later, and asking yarn its version can itself fail.
   */
  function GetCacheDirCommand(pm: PackageManager, yarn: YarnVersion): (r: Result<seq<string>, Error>)
    ensures r.Ok? <==> pm != Detect && !(pm == Yarn && yarn == YarnUnavailable)
    ensures r.Ok? ==> |r.value| > 0 && r.value[0] == Name(pm)
    ensures pm == Detect ==> r == Err(NoCacheDirCommand)
    ensures pm == Yarn && yarn == YarnUnavailable ==> r == Err(ExecFailed(["yarn", "--version"]))
    ensures pm == Yarn && yarn == YarnBerry ==> r == Ok(["yarn", "config", "get", "cacheFolder"])
    ensures pm == Yarn && yarn == YarnClassic ==> r == Ok(["yarn", "cache", "dir"])
  {
    match pm
    case Npm => Ok(["npm", "config", "get", "cache"])
    case Yarn =>
      (match yarn
       case YarnUnavailable => Err(ExecFailed(["yarn", "--version"]))
       case YarnBerry => Ok(["yarn", "config", "get", "cacheFolder"])
       case YarnClassic => Ok(["yarn", "cache", "dir"]))
    case Pnpm => Ok(["pnpm", "get", "store"])
    case Detect => Err(NoCacheDirCommand)
  }

  /** The commands of npm and pnpm, and the two commands of yarn. */
  lemma CacheDirCommandTable()
    ensures forall y :: GetCacheDirCommand(Npm, y) == Ok(["npm", "config", "get", "cache"])
    ensures forall y :: GetCacheDirCommand(Pnpm, y) == Ok(["pnpm", "get", "store"])
    ensures GetCacheDirCommand(Yarn, YarnBerry) == Ok(["yarn", "config", "get", "cacheFolder"])
    ensures GetCacheDirCommand(Yarn, YarnClassic) == Ok(["yarn", "cache", "dir"])
  {
  }

  /** `getLockfile`: the lockfile name of a concrete manager; `detect` has none. */
  function GetLockfile(pm: PackageManager): (r: Result<string, Error>)
    ensures r.Ok? <==> pm != Detect
    ensures r.Err? ==> r.error == NoLockfile
  {
    match pm
    case Npm => Ok("package-lock.json")
    case Yarn => Ok("yarn.lock")
    case Pnpm => Ok("pnpm-lock.yaml")
    case Detect => Err(NoLockfile)
  }

  /** The three lockfile names, and no two managers share one. */
  lemma LockfileTable()
    ensures GetLockfile(Npm) == Ok("package-lock.json")
    ensures GetLockfile(Yarn) == Ok("yarn.lock")
    ensures GetLockfile(Pnpm) == Ok("pnpm-lock.yaml")
    ensures forall a, b :: a != Detect && b != Detect ==> (GetLockfile(a) == GetLockfile(b) <==> a == b)
  {
  }
}
