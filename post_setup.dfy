/**
 * The save step, src/post-setup.ts: after the same prologue as the restore step it sets
 * the `pkg-manager` and `lockfile` outputs and saves the trimmed cache directory under the
 * package-manager key, then the `node_modules` directory under its key.
 */
module PostSetup {
  import opened Wrappers
  import opened Strings
  import opened Detection
  import opened Actions
  import opened Keys
  import opened Setup
  import Runner

  /**
   * The save call for the package-manager cache: the trimmed cache directory under the
   * primary key over the `**\/<lockfile>` hash.
   */
  function LockfileSave(s: Resolved, env: Environment): (req: SaveRequest)
    ensures req.paths == [Trim(s.cacheDir)]
    ensures FallbackKey(s.manager, env.platform, s.nodeMajor) <= req.key
    ensures req.key[|FallbackKey(s.manager, env.platform, s.nodeMajor)|..] == env.hashFiles(RecursiveGlob(s.lockfile))
  {
    SaveRequest([Trim(s.cacheDir)], PrimaryKey(s.manager, env.platform, s.nodeMajor, env.hashFiles(RecursiveGlob(s.lockfile))))
  }

  /**
   * The save call for `node_modules`: the directory under the `node_modules` key over the
   * hash of the bare directory.
   */
  function NodeModulesSave(s: Resolved, nodeModulesDir: string, env: Environment): (req: SaveRequest)
    ensures req.paths == [nodeModulesDir]
    ensures NodeModulesFallbackKey(s.manager, env.platform, s.nodeMajor) <= req.key
    ensures req.key[|NodeModulesFallbackKey(s.manager, env.platform, s.nodeMajor)|..] == env.hashFiles(nodeModulesDir)
  {
    SaveRequest([nodeModulesDir], NodeModulesKey(s.manager, env.platform, s.nodeMajor, env.hashFiles(nodeModulesDir)))
  }

  /**
   * `main` of the save step. It fails exactly as the shared prologue does and then changes
   * nothing; otherwise it sets `pkg-manager` and `lockfile` and makes the two saves in order,
   * touching neither the saved state, the notices nor the restore log.
   */
  method RunSave(ctx: ActionContext, inputs: Inputs, env: Environment) returns (outcome: Result<Resolved, Error>)
    modifies ctx
    ensures outcome == Resolve(inputs, env)
    ensures outcome.Err? ==>
      ctx.outputs == old(ctx.outputs) && ctx.state == old(ctx.state) && ctx.notices == old(ctx.notices)
      && ctx.restores == old(ctx.restores) && ctx.saves == old(ctx.saves)
    ensures outcome.Ok? ==>
      var s := outcome.value;
      && ctx.saves == old(ctx.saves) + [LockfileSave(s, env)] + [NodeModulesSave(s, Trim(inputs.nodeModules), env)]
      && ctx.outputs == old(ctx.outputs)[PKG_MANAGER_OUTPUT := Text(Name(s.manager))][LOCKFILE_OUTPUT := Text(s.lockfile)]
      && ctx.state == old(ctx.state) && ctx.notices == old(ctx.notices) && ctx.restores == old(ctx.restores)
  {
    var nodeModulesDir := Trim(inputs.nodeModules);
    outcome := Prepare(inputs, env);
    if outcome.Err? {
      return;
    }
    ctx.SetOutput(PKG_MANAGER_OUTPUT, Text(Name(outcome.value.manager)));
    ctx.SetOutput(LOCKFILE_OUTPUT, Text(outcome.value.lockfile));

    ctx.SaveCache(LockfileSave(outcome.value, env));
    ctx.SaveCache(NodeModulesSave(outcome.value, nodeModulesDir, env));
  }

  /**
   * The save step stores the package-manager cache under exactly the key the restore step
   * looks up and saves as state, and its path is the restore step's path trimmed.
   */
  lemma SaveUsesRestoreKey(s: Resolved, env: Environment)
    ensures LockfileSave(s, env).key == Runner.LockfileRestore(s, env).primaryKey
    ensures LockfileSave(s, env).paths == [Trim(Runner.LockfileRestore(s, env).paths[0])]
  {
  }

  /**
   * When the cache directory printed ends in whitespace (a trailing newline, say), the save
   * step's path differs from the path the restore step passed for the same directory.
   */
  lemma SavePathDiffersFromRestorePath(s: Resolved, env: Environment)
    requires s.cacheDir != [] && IsWhitespace(s.cacheDir[|s.cacheDir| - 1])
    ensures LockfileSave(s, env).paths != Runner.LockfileRestore(s, env).paths
  {
  }

  /**
   * The `node_modules` key the save step writes equals the one the restore step reads
   * exactly when hashing the bare directory and hashing `**\/<directory>` give the same hash;
   * both steps use the same directory path.
   */
  lemma NodeModulesKeysAgreeExactlyOnEqualHashes(s: Resolved, nodeModulesDir: string, env: Environment)
    ensures NodeModulesSave(s, nodeModulesDir, env).paths == Runner.NodeModulesRestore(s, nodeModulesDir, env).paths
    ensures NodeModulesSave(s, nodeModulesDir, env).key == Runner.NodeModulesRestore(s, nodeModulesDir, env).primaryKey
        <==> env.hashFiles(nodeModulesDir) == env.hashFiles(RecursiveGlob(nodeModulesDir))
  {
  }

  /** The two saves of one run never use the same key, so neither overwrites the other. */
  lemma SavesUseDistinctKeys(s: Resolved, nodeModulesDir: string, env: Environment)
    ensures LockfileSave(s, env).key != NodeModulesSave(s, nodeModulesDir, env).key
  {
    CachesAreDisjoint(s.manager, env.platform, s.nodeMajor, env.hashFiles(RecursiveGlob(s.lockfile)),
                      s.manager, env.platform, s.nodeMajor, env.hashFiles(nodeModulesDir));
  }
}
