/**
 * The restore step, src/runner.ts: after the shared prologue it builds the two primary
 * keys and their restore prefixes, asks the cache service for each directory, and reports
 * `cache-hit` / `node-modules-cache-hit`, the saved primary keys and a hit or miss notice.
 */
module Runner {
  import opened Wrappers
  import opened Strings
  import opened Detection
  import opened Actions
  import opened Keys
  import opened Setup

  /** `Boolean(key)` of what `restoreCache` returned: JavaScript truthiness of an optional string. */
  function CacheHitOutput(restored: Option<string>): (hit: bool)
    ensures hit ==> restored.Some?
    ensures restored.Some? ==> (hit <==> restored.value != "")
  {
    restored.Some? && restored.value != ""
  }

  /** The hit line when the restored key is exactly the primary key, the miss warning otherwise. */
  function HitNotice(restored: Option<string>, primaryKey: string): (n: Notice)
    ensures n.primaryKey == primaryKey
    ensures n.HitInfo? <==> restored == Some(primaryKey)
  {
    if restored.Some? && restored.value == primaryKey then HitInfo(primaryKey) else MissWarning(primaryKey)
  }

  /**
   * The output and the notice disagree exactly on a restore from some other key (in
   * practice a prefix fallback): the output then says hit and the notice warns. An exact
   * hit is reported as a hit by both, and no key at all as a miss by both.
   */
  lemma HitOutputAndNotice(restored: Option<string>, primaryKey: string)
    requires primaryKey != ""
    ensures HitNotice(restored, primaryKey).HitInfo? ==> CacheHitOutput(restored)
    ensures restored.None? ==> !CacheHitOutput(restored) && HitNotice(restored, primaryKey).MissWarning?
    ensures CacheHitOutput(restored) && HitNotice(restored, primaryKey).MissWarning?
            <==> restored.Some? && restored.value != "" && restored.value != primaryKey
  {
  }

  /**
   * The restore call for the package-manager cache: the untrimmed cache directory, the
   * primary key over the `**\/<lockfile>` hash, and as the only restore key the run's
   * `manager-os-major-` prefix, which that primary key extends by the hash.
   */
  function LockfileRestore(s: Resolved, env: Environment): (req: RestoreRequest)
    ensures req.paths == [s.cacheDir]
    ensures req.restoreKeys == [FallbackKey(s.manager, env.platform, s.nodeMajor)]
    ensures req.restoreKeys[0] <= req.primaryKey
    ensures req.primaryKey[|req.restoreKeys[0]|..] == env.hashFiles(RecursiveGlob(s.lockfile))
  {
    RestoreRequest([s.cacheDir],
                   PrimaryKey(s.manager, env.platform, s.nodeMajor, env.hashFiles(RecursiveGlob(s.lockfile))),
                   [FallbackKey(s.manager, env.platform, s.nodeMajor)])
  }

  /**
   * The restore call for `node_modules`: the directory, the primary key over the hash of
   * `**\/<directory>`, and as the only restore key the run's `manager-os-node_modules-major-`
   * prefix, which that primary key extends by the hash.
   */
  function NodeModulesRestore(s: Resolved, nodeModulesDir: string, env: Environment): (req: RestoreRequest)
    ensures req.paths == [nodeModulesDir]
    ensures req.restoreKeys == [NodeModulesFallbackKey(s.manager, env.platform, s.nodeMajor)]
    ensures req.restoreKeys[0] <= req.primaryKey
    ensures req.primaryKey[|req.restoreKeys[0]|..] == env.hashFiles(RecursiveGlob(nodeModulesDir))
  {
    RestoreRequest([nodeModulesDir],
                   NodeModulesKey(s.manager, env.platform, s.nodeMajor, env.hashFiles(RecursiveGlob(nodeModulesDir))),
                   [NodeModulesFallbackKey(s.manager, env.platform, s.nodeMajor)])
  }

  /**
   * The restore prefix of one run picks up the package-manager cache saved by another run
   * exactly when both resolved the same manager, ran on the same OS segment and under the
   * same Node major; the lockfile hashes do not matter.
   */
  lemma RestorePrefixMatchesSameRun(s: Resolved, env: Environment, s': Resolved, env': Environment)
    ensures LockfileRestore(s, env).restoreKeys[0] <= LockfileRestore(s', env').primaryKey
        <==> s.manager == s'.manager && OsSegment(env.platform) == OsSegment(env'.platform) && s.nodeMajor == s'.nodeMajor
  {
    FallbackMatchesSameEnvironment(s.manager, env.platform, s.nodeMajor,
                                   s'.manager, env'.platform, s'.nodeMajor, env'.hashFiles(RecursiveGlob(s'.lockfile)));
  }

  /** The same for the `node_modules` restore prefix and key. */
  lemma NodeModulesRestorePrefixMatchesSameRun(s: Resolved, dir: string, env: Environment,
                                               s': Resolved, dir': string, env': Environment)
    ensures NodeModulesRestore(s, dir, env).restoreKeys[0] <= NodeModulesRestore(s', dir', env').primaryKey
        <==> s.manager == s'.manager && OsSegment(env.platform) == OsSegment(env'.platform) && s.nodeMajor == s'.nodeMajor
  {
    NodeModulesFallbackMatchesSameEnvironment(s.manager, env.platform, s.nodeMajor,
                                              s'.manager, env'.platform, s'.nodeMajor, env'.hashFiles(RecursiveGlob(dir')));
  }

  /**
   * `main` of the restore step. It fails exactly as the shared prologue does and then
   * changes nothing; otherwise it sets the four outputs, saves both primary keys as state,
   * makes the two restore calls in order and records one notice for each.
   */
  method RunRestore(ctx: ActionContext, inputs: Inputs, env: Environment) returns (outcome: Result<Resolved, Error>)
    modifies ctx
    ensures outcome == Resolve(inputs, env)
    ensures outcome.Err? ==>
      ctx.outputs == old(ctx.outputs) && ctx.state == old(ctx.state) && ctx.notices == old(ctx.notices)
      && ctx.restores == old(ctx.restores) && ctx.saves == old(ctx.saves)
    ensures outcome.Ok? ==>
      var s := outcome.value;
      var req := LockfileRestore(s, env);
      var nmReq := NodeModulesRestore(s, Trim(inputs.nodeModules), env);
      && ctx.restores == old(ctx.restores) + [req] + [nmReq]
      && ctx.outputs == old(ctx.outputs)[PKG_MANAGER_OUTPUT := Text(Name(s.manager))]
                                        [LOCKFILE_OUTPUT := Text(s.lockfile)]
                                        [CACHE_HIT_OUTPUT := Flag(CacheHitOutput(env.restore(req)))]
                                        [NODE_MODULES_CACHE_HIT_OUTPUT := Flag(CacheHitOutput(env.restore(nmReq)))]
      && ctx.state == old(ctx.state)[CACHE_PRIMARY_KEY_STATE := req.primaryKey][NM_PRIMARY_KEY_STATE := nmReq.primaryKey]
      && ctx.notices == old(ctx.notices) + [HitNotice(env.restore(req), req.primaryKey)]
                                         + [HitNotice(env.restore(nmReq), nmReq.primaryKey)]
      && ctx.saves == old(ctx.saves)
  {
    var nodeModulesDir := Trim(inputs.nodeModules);
    outcome := Prepare(inputs, env);
    if outcome.Err? {
      return;
    }
    ctx.SetOutput(PKG_MANAGER_OUTPUT, Text(Name(outcome.value.manager)));
    ctx.SetOutput(LOCKFILE_OUTPUT, Text(outcome.value.lockfile));

    var key := RestoreDirectory(ctx, env, LockfileRestore(outcome.value, env),
                                CACHE_HIT_OUTPUT, CACHE_PRIMARY_KEY_STATE);
    var nodeModulesCache := RestoreDirectory(ctx, env, NodeModulesRestore(outcome.value, nodeModulesDir, env),
                                             NODE_MODULES_CACHE_HIT_OUTPUT, NM_PRIMARY_KEY_STATE);
  }

  /**
   * Lines 63-74 (and 78-89 for `node_modules`): one restore call, then its hit output, its
   * primary key saved as state, and its notice.
   */
  method RestoreDirectory(ctx: ActionContext, env: Environment, request: RestoreRequest,
                          output: string, stateName: string) returns (key: Option<string>)
    modifies ctx
    ensures key == env.restore(request)
    ensures ctx.restores == old(ctx.restores) + [request]
    ensures ctx.outputs == old(ctx.outputs)[output := Flag(CacheHitOutput(key))]
    ensures ctx.state == old(ctx.state)[stateName := request.primaryKey]
    ensures ctx.notices == old(ctx.notices) + [HitNotice(key, request.primaryKey)]
    ensures ctx.saves == old(ctx.saves)
  {
    key := ctx.RestoreCache(env.restore, request);
    ctx.SetOutput(output, Flag(CacheHitOutput(key)));
    ctx.SaveState(stateName, request.primaryKey);
    ctx.Notify(HitNotice(key, request.primaryKey));
  }

  /**
   * An end-to-end run: `detect` on Linux where only npm answers, Node 18 and lockfile hash
   * `deadbeef` resolve to npm and `package-lock.json` and restore under `npm-linux-18-deadbeef`.
   */
  lemma DetectedNpmScenario(inputs: Inputs, env: Environment)
    requires Trim(inputs.packageManager) == "detect" && env.platform == "linux"
    requires env.exec(["pnpm", "--version"]).Failed? && env.exec(["yarn", "--version"]).Failed?
    requires env.exec(["npm", "--version"]).Succeeded? && env.exec(["npm", "config", "get", "cache"]).Succeeded?
    requires env.exec(["node", "--version"]).Succeeded?
    requires env.nodeMajor(env.exec(["node", "--version"]).stdout) == Some(18)
    requires env.hashFiles(RecursiveGlob("package-lock.json")) == "deadbeef"
    ensures Resolve(inputs, env).Ok?
    ensures Resolve(inputs, env).value.manager == Npm
    ensures Resolve(inputs, env).value.lockfile == "package-lock.json"
    ensures LockfileRestore(Resolve(inputs, env).value, env).primaryKey == "npm-linux-18-deadbeef"
  {
    ScenarioResolves(inputs, env);
    var s := Resolve(inputs, env).value;
    var hash := env.hashFiles(RecursiveGlob(s.lockfile));
    assert hash == "deadbeef";
    assert LockfileRestore(s, env).primaryKey == PrimaryKey(Npm, "linux", 18, "deadbeef");
    NpmKeyExample();
  }

  lemma ScenarioResolves(inputs: Inputs, env: Environment)
    requires Trim(inputs.packageManager) == "detect"
    requires env.exec(["pnpm", "--version"]).Failed? && env.exec(["yarn", "--version"]).Failed?
    requires env.exec(["npm", "--version"]).Succeeded? && env.exec(["npm", "config", "get", "cache"]).Succeeded?
    requires env.exec(["node", "--version"]).Succeeded?
    requires env.nodeMajor(env.exec(["node", "--version"]).stdout) == Some(18)
    ensures Resolve(inputs, env)
         == Ok(Resolved(Npm, "package-lock.json", env.exec(["npm", "config", "get", "cache"]).stdout, 18))
  {
    ScenarioDetectsNpm(inputs, env);
  }

  lemma ScenarioDetectsNpm(inputs: Inputs, env: Environment)
    requires Trim(inputs.packageManager) == "detect"
    requires env.exec(["pnpm", "--version"]).Failed? && env.exec(["yarn", "--version"]).Failed?
    requires env.exec(["npm", "--version"]).Succeeded?
    ensures ResolveManager(inputs, env) == Ok(Npm)
    ensures GetCacheDirCommand(Npm, YarnVersionOf(env)) == Ok(["npm", "config", "get", "cache"])
  {
    assert DetectPackageManager(Availability(env)) == Ok(Npm);
    ValidationPrecedesDetection(inputs, env);
  }
}
