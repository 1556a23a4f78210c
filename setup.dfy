/**
 * The prologue both entry points share (lines 38-51 of src/runner.ts, 40-51 of
 * src/post-setup.ts): read and validate the `package-manager` input, resolve `detect`,
 * find the cache-directory command and the lockfile, run the command, and read the Node
 * major from `node --version`.
 */
module Setup {
  import opened Wrappers
  import opened Strings
  import opened Detection
  import opened Actions

  /** What the prologue settles for the rest of the step. */
  datatype Resolved = Resolved(manager: PackageManager, lockfile: string, cacheDir: string, nodeMajor: nat)

  /** The command whose output gives the Node major. */
  const NODE_VERSION_COMMAND: seq<string> := ["node", "--version"]

  /** Detection's probe: a tool is available when `<tool> --version` succeeds. */
  function Availability(env: Environment): (available: PackageManager -> bool)
    ensures available(Pnpm) <==> env.exec(["pnpm", "--version"]).Succeeded?
    ensures available(Yarn) <==> env.exec(["yarn", "--version"]).Succeeded?
    ensures available(Npm) <==> env.exec(["npm", "--version"]).Succeeded?
  {
    assert [Name(Pnpm), "--version"] == ["pnpm", "--version"];
    assert [Name(Yarn), "--version"] == ["yarn", "--version"];
    assert [Name(Npm), "--version"] == ["npm", "--version"];
    tool => env.exec([Name(tool), "--version"]).Succeeded?
  }

  /**
   * What `yarn --version` tells `getCacheDirCommand`: unavailable when it fails, otherwise
   * 2.x or later exactly when its output satisfies `>=2.x`.
   */
  function YarnVersionOf(env: Environment): (yarn: YarnVersion)
    ensures yarn == YarnUnavailable <==> env.exec(["yarn", "--version"]).Failed?
    ensures yarn == YarnBerry <==> env.exec(["yarn", "--version"]).Succeeded? && env.isYarn2(env.exec(["yarn", "--version"]).stdout)
  {
    match env.exec(["yarn", "--version"])
    case Failed => YarnUnavailable
    case Succeeded(out) => if env.isYarn2(out) then YarnBerry else YarnClassic
  }

  /** Lines 41-46 of both entry points: validate the trimmed input, then resolve `detect`. */
  function ResolveManager(inputs: Inputs, env: Environment): (r: Result<PackageManager, Error>)
    ensures AssertValidValue(StringValue(Trim(inputs.packageManager))).Err?
            ==> r == AssertValidValue(StringValue(Trim(inputs.packageManager)))
    ensures AssertValidValue(StringValue(Trim(inputs.packageManager))) == Ok(Detect)
            ==> r == DetectPackageManager(Availability(env))
    ensures AssertValidValue(StringValue(Trim(inputs.packageManager))).Ok?
            && AssertValidValue(StringValue(Trim(inputs.packageManager))) != Ok(Detect)
            ==> r == AssertValidValue(StringValue(Trim(inputs.packageManager)))
    ensures r.Ok? ==> r.value != Detect
  {
    var requested :- AssertValidValue(StringValue(Trim(inputs.packageManager)));
    if requested == Detect then DetectPackageManager(Availability(env)) else Ok(requested)
  }

  /**
   * Validation comes first, so an unacceptable input is a TypeError whatever the
   * environment; detection is consulted only for `detect`, and any other accepted input
   * is used as it is.
   */
  lemma ValidationPrecedesDetection(inputs: Inputs, env: Environment)
    ensures !IsAccepted(Trim(inputs.packageManager))
            ==> ResolveManager(inputs, env) == Err(NotAPackageManager(Trim(inputs.packageManager)))
    ensures IsAccepted(Trim(inputs.packageManager)) && Trim(inputs.packageManager) != "detect"
            ==> ResolveManager(inputs, env).Ok? && Name(ResolveManager(inputs, env).value) == Trim(inputs.packageManager)
    ensures Trim(inputs.packageManager) == "detect"
            ==> ResolveManager(inputs, env) == DetectPackageManager(Availability(env))
  {
    var t := Trim(inputs.packageManager);
    var v := AssertValidValue(StringValue(t));
    if v.Ok? {
      assert Name(v.value) == t;
      assert v.value == Detect <==> t == "detect";
    }
  }

  /**
   * The shared prologue: on success the manager is the resolved one, the lockfile is its
   * lockfile, the cache directory is what its cache-directory command printed and the
   * Node major is read from what `node --version` printed; and it succeeds whenever every
   * one of those steps does.
   */
  function Resolve(inputs: Inputs, env: Environment): (r: Result<Resolved, Error>)
    ensures ResolveManager(inputs, env).Err? ==> r == Err(ResolveManager(inputs, env).error)
    ensures r.Ok? ==> ResolveManager(inputs, env) == Ok(r.value.manager)
    ensures r.Ok? ==> r.value.manager != Detect && GetLockfile(r.value.manager) == Ok(r.value.lockfile)
    ensures r.Ok? ==> GetCacheDirCommand(r.value.manager, YarnVersionOf(env)).Ok?
                      && env.exec(GetCacheDirCommand(r.value.manager, YarnVersionOf(env)).value) == Succeeded(r.value.cacheDir)
    ensures r.Ok? ==> env.exec(NODE_VERSION_COMMAND).Succeeded?
                      && env.nodeMajor(env.exec(NODE_VERSION_COMMAND).stdout) == Some(r.value.nodeMajor)
    ensures ResolveManager(inputs, env).Ok?
            && GetCacheDirCommand(ResolveManager(inputs, env).value, YarnVersionOf(env)).Ok?
            && env.exec(GetCacheDirCommand(ResolveManager(inputs, env).value, YarnVersionOf(env)).value).Succeeded?
            && env.exec(NODE_VERSION_COMMAND).Succeeded?
            && env.nodeMajor(env.exec(NODE_VERSION_COMMAND).stdout).Some?
            ==> r.Ok?
  {
    match ResolveManager(inputs, env)
    case Err(e) => Err(e)
    case Ok(manager) =>
      match GetCacheDirCommand(manager, YarnVersionOf(env))
      case Err(e) => Err(e)
      case Ok(command) =>
        var lockfile := GetLockfile(manager).value;
        match env.exec(command)
        case Failed => Err(ExecFailed(command))
        case Succeeded(cacheDir) =>
          match env.exec(NODE_VERSION_COMMAND)
          case Failed => Err(ExecFailed(NODE_VERSION_COMMAND))
          case Succeeded(nodeVersion) =>
            match env.nodeMajor(nodeVersion)
            case None => Err(InvalidVersion(nodeVersion))
            case Some(major) => Ok(Resolved(manager, lockfile, cacheDir, major))
  }

  /**
   * The prologue as both `main` functions run it, step by step, reassigning the manager
   * when the input asks for detection; each failing step ends the run with its error.
   */
  method Prepare(inputs: Inputs, env: Environment) returns (r: Result<Resolved, Error>)
    ensures r == Resolve(inputs, env)
  {
    var valid := AssertValidValue(StringValue(Trim(inputs.packageManager)));
    if valid.Err? {
      return Err(valid.error);
    }
    var packageManager := valid.value;
    if packageManager == Detect {
      var detected := DetectPackageManager(Availability(env));
      if detected.Err? {
        return Err(detected.error);
      }
      packageManager := detected.value;
    }
    assert ResolveManager(inputs, env) == Ok(packageManager);
    var command := GetCacheDirCommand(packageManager, YarnVersionOf(env));
    if command.Err? {
      return Err(command.error);
    }
    var lockfile := GetLockfile(packageManager).value;
    var result := env.exec(command.value);
    if result.Failed? {
      return Err(ExecFailed(command.value));
    }
    var nodeVersion := env.exec(NODE_VERSION_COMMAND);
    if nodeVersion.Failed? {
      return Err(ExecFailed(NODE_VERSION_COMMAND));
    }
    var major := env.nodeMajor(nodeVersion.stdout);
    if major.None? {
      return Err(InvalidVersion(nodeVersion.stdout));
    }
    r := Ok(Resolved(packageManager, lockfile, result.stdout, major.value));
  }
}
