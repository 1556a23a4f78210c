# node-pm-action, modelled in Dafny

node-pm-action is a GitHub Action that caches the package-manager cache directory and the
`node_modules` directory of a Node.js project. It has two entry points:

- the restore step (`src/runner.ts`);
- the save step that runs after the job (`src/post-setup.ts`).

Both share the package-manager logic of `src/detect.ts`. This project models that decision
logic and proves properties of it:

- validation of the `package-manager` input against the closed list `npm`, `pnpm`, `yarn`, `detect`;
- detection of an installed manager in the order pnpm, yarn, npm;
- the cache-directory command and the lockfile of each manager;
- the `os` platform table and the dash-joined cache keys with their restore prefixes;
- how a restore result becomes the `cache-hit` outputs and the hit or miss notice;
- what each step leaves behind: the final outputs and saved state, and, in order, the
  restore calls, the save calls and the hit or miss notices.

Modules, one per concern of the source:

- `Wrappers`: `Option` and `Result`.
- `Strings`: JavaScript `trim` and the decimal rendering of the Node major.
- `Detection`: `src/detect.ts`.
- `Actions`: the run's services and the `ActionContext` class. The services are process
  execution, the semver checks, file hashing and the cache service. They are function
  values in an `Environment`. The class records the outputs, the saved state, the notices
  and the cache calls made.
- `Keys`: the `os` table and the key formulas that both steps share.
- `Setup`: the prologue both `main` functions share, as a function `Resolve` and as the
  imperative method `Prepare`.
- `Runner`: the restore step.
- `PostSetup`: the save step.

Four behaviours of the source are worth knowing, and the model keeps them as they are:

- `cache-hit` and `node-modules-cache-hit` are `Boolean(key)`. They are true for a restore
  from a prefix fallback, not only for an exact hit.
- A platform missing from the `os` table puts the text `undefined` into the key. It is not
  an error.
- The restore step hashes `**/<node-modules>` for the `node_modules` key. The save step
  hashes `<node-modules>` itself.
- The restore step passes the cache directory exactly as the command printed it. The save
  step trims it first.

## Model

| member | source | states |
|---|---|---|
| Strings.IsWhitespace | src/post-setup.ts:66 | blanks, tabs and line breaks are among the characters `trim` removes, and no visible ASCII character is |
| Strings.Trim | src/runner.ts:38-39 | `getInput(..., { trimWhitespace: true })` and `.trim()` give the slice of the input left after cutting ECMAScript whitespace from both ends, and the result neither starts nor ends with whitespace |
| Strings.TrimIdempotent | src/post-setup.ts:66 | trimming an already trimmed string changes nothing |
| Strings.TrimChangesTrailingWhitespace | src/post-setup.ts:66 | a string that ends in whitespace is changed by trimming |
| Strings.Decimal | src/runner.ts:60 | `${version.major}` is a non-empty digit string with no dash and no leading zero |
| Strings.ParseDecimalOfDecimal | src/runner.ts:60 | reading the rendered major back as a number gives the major again |
| Strings.DecimalInjective | src/runner.ts:60 | two majors render the same exactly when they are equal |
| Detection.NameInjective | src/detect.ts:29-30 | the four manager spellings are pairwise distinct |
| Detection.AcceptedMeansListed | src/detect.ts:29 | the accepted strings are exactly the spellings in the `packageManagers` list |
| Detection.FindNamed | src/detect.ts:35 | `packageManagers.some((i) => value === i)` finds a listed manager exactly when some entry is spelled like the value, and returns that entry |
| Detection.AssertValidValue | src/detect.ts:32-37 | a string is accepted exactly when it is `npm`, `pnpm`, `yarn` or `detect`, and is returned as the manager of that spelling; a non-string and every other string are TypeErrors; a non-string is the not-a-string TypeError |
| Detection.DetectPackageManager | src/detect.ts:39-68 | fails, with the no-manager error, exactly when none of pnpm, yarn, npm is available; the result is available and never `detect`; pnpm wins whenever it is available, and yarn wins when pnpm is not |
| Detection.FirstAvailable | src/detect.ts:40-63 | reference definition: `None` exactly when nothing in the order is available, otherwise an available entry with nothing available before it |
| Detection.DetectIsFirstAvailable | src/detect.ts:39-68 | detection equals the first available entry of the list pnpm, yarn, npm, and fails when there is none |
| Detection.GetCacheDirCommand | src/detect.ts:70-92 | succeeds exactly for a concrete manager, except yarn when `yarn --version` fails; every command is non-empty and starts with the manager's own name; `detect` throws; yarn 2.x and later gives `yarn config get cacheFolder`, older yarn gives `yarn cache dir` |
| Detection.CacheDirCommandTable | src/detect.ts:71-87 | npm gives `npm config get cache` and pnpm gives `pnpm get store`, whatever yarn reports; yarn gets its two commands by version |
| Detection.GetLockfile | src/detect.ts:94-105 | succeeds exactly for a concrete manager; `detect` throws the no-lockfile error |
| Detection.LockfileTable | src/detect.ts:95-101 | npm, yarn and pnpm map to `package-lock.json`, `yarn.lock` and `pnpm-lock.yaml`, and no two managers share a lockfile |
| Keys.OsTag | src/runner.ts:31-35 | darwin, linux and win32 map to macos, linux and windows; every other platform is unmapped |
| Keys.OsSegment | src/runner.ts:60 | `${os[process.platform]}` is the table's tag for a mapped platform and `undefined` exactly for an unmapped one; it is non-empty and dash-free |
| Keys.OsSegmentInjective | src/runner.ts:31-35 | two platforms give the same key segment exactly when they are equal or both unmapped |
| Keys.NameHasNoDash | src/runner.ts:60 | the manager segment of a key is non-empty and dash-free |
| Keys.PrimaryKey | src/runner.ts:60-65 | the restore prefix `manager-os-major-` is a prefix of the primary key, and what follows it is the lockfile hash |
| Keys.NodeModulesKey | src/runner.ts:77-80 | the prefix `manager-os-node_modules-major-` is a prefix of the `node_modules` key, and what follows it is the directory hash |
| Keys.FallbackKeyShape | src/runner.ts:64 | both restore prefixes (`FallbackKey`, line 64, and `NodeModulesFallbackKey`, line 79) start with the manager's segment and a dash, end with a dash, and differ from each other |
| Keys.PrimaryKeyExample | src/runner.ts:60 | pnpm on linux under Node 18 with hash `abc123` gives `pnpm-linux-18-abc123` |
| Keys.NpmKeyExample | src/runner.ts:60 | npm on linux under Node 18 with hash `deadbeef` gives `npm-linux-18-deadbeef` |
| Keys.SplitAtDash | src/runner.ts:60 | when one dash-joined key extends another, their first dash-free segments are equal and the rest extends the rest |
| Keys.FallbackMatchesSameEnvironment | src/runner.ts:60-65 | the restore prefix matches a primary key exactly when both were made for the same manager, the same OS segment and the same Node major |
| Keys.NodeModulesFallbackMatchesSameEnvironment | src/runner.ts:77-80 | the same for the `node_modules` prefix and key |
| Keys.PrimaryKeyInjective | src/runner.ts:60 | a primary key determines the manager, the OS segment, the major and the hash it was built from |
| Keys.CachesAreDisjoint | src/runner.ts:60-80 | neither restore prefix matches a key of the other cache, and no primary key is a `node_modules` key |
| Setup.Availability | src/detect.ts:42-60 | pnpm, yarn and npm count as available exactly when `pnpm --version`, `yarn --version` and `npm --version` succeed |
| Setup.YarnVersionOf | src/detect.ts:76-79 | yarn is unavailable exactly when `yarn --version` fails, and is 2.x or later exactly when its output satisfies `>=2.x` |
| Setup.ResolveManager | src/runner.ts:39-46 | a validation failure is the result; `detect` is replaced by what detection returns; any other accepted manager is kept; a success is never `detect` |
| Setup.ValidationPrecedesDetection | src/post-setup.ts:41-46 | an unaccepted input is a TypeError whatever the environment; an accepted input other than `detect` is the manager of that spelling; only `detect` consults detection |
| Setup.Resolve | src/runner.ts:39-51 | a failure to resolve the manager is the prologue's failure; a success carries the resolved manager, never `detect`, its lockfile, exactly what its cache-directory command printed, and the major `node --version` printed; and the prologue succeeds whenever the manager resolves, its command exists and succeeds, and `node --version` succeeds with a version |
| Setup.Prepare | src/runner.ts:38-51 | the prologue run step by step, reassigning the manager after detection, equals `Resolve` |
| Runner.CacheHitOutput | src/runner.ts:67 | `Boolean(key)`: true only when restore returned a key, and then exactly when that key is non-empty (also line 82) |
| Runner.HitNotice | src/runner.ts:70-74 | the notice names the primary key, and is the hit line exactly when the restored key equals the primary key |
| Runner.HitOutputAndNotice | src/runner.ts:67-74 | an exact hit makes the output true; no restore makes both a miss; the output says hit while the notice warns exactly when a non-empty key other than the primary key was restored |
| Runner.LockfileRestore | src/runner.ts:57-65 | the restore call passes the printed cache directory, and its only restore key is the run's `manager-os-major-` prefix, which the primary key extends by the hash of `**/<lockfile>` |
| Runner.RestorePrefixMatchesSameRun | src/runner.ts:60-65 | one run's restore prefix matches another run's primary key exactly when both resolved the same manager, OS segment and Node major |
| Runner.NodeModulesRestore | src/runner.ts:76-80 | the restore call passes the directory, and its only restore key is the run's `manager-os-node_modules-major-` prefix, which the primary key extends by the hash of `**/<directory>` |
| Runner.NodeModulesRestorePrefixMatchesSameRun | src/runner.ts:76-80 | the same for the `node_modules` restore prefix and key |
| Runner.RunRestore | src/runner.ts:37-90 | fails exactly as the prologue does and then changes nothing; otherwise it sets `pkg-manager` and `lockfile`, makes the two restore calls in order, sets the two hit outputs from what they returned, saves the two primary keys as state and records one notice per restore, without saving anything |
| Runner.RestoreDirectory | src/runner.ts:63-74 | one restore call, then its hit output, its primary key saved as state, and its notice |
| Runner.DetectedNpmScenario | src/runner.ts:39-65 | `detect` on linux where only npm answers, Node 18 and lockfile hash `deadbeef` resolve to npm and `package-lock.json`, and restore under `npm-linux-18-deadbeef` |
| PostSetup.LockfileSave | src/post-setup.ts:57-66 | the save call stores the trimmed cache directory under a key that extends the restore prefix by the hash of `**/<lockfile>` |
| PostSetup.NodeModulesSave | src/post-setup.ts:63-67 | the save call stores the directory under a key that extends the `node_modules` prefix by the hash of the bare directory |
| PostSetup.RunSave | src/post-setup.ts:37-70 | fails exactly as the prologue does and then changes nothing; otherwise it sets `pkg-manager` and `lockfile` and saves the cache directory and then `node_modules`, touching no state, notice or restore |
| PostSetup.SaveUsesRestoreKey | src/post-setup.ts:60 | the save step stores the package-manager cache under the very key the restore step looks up, and its path is the restore path trimmed |
| PostSetup.SavePathDiffersFromRestorePath | src/post-setup.ts:66 | when the printed cache directory ends in whitespace, the save path differs from the restore path |
| PostSetup.NodeModulesKeysAgreeExactlyOnEqualHashes | src/post-setup.ts:63-64 | both steps use the same `node_modules` path, and their keys agree exactly when the directory and `**/<directory>` hash alike |
| PostSetup.SavesUseDistinctKeys | src/post-setup.ts:66-67 | the two saves of one run never use the same key |
| Actions.ActionContext.SetOutput | src/runner.ts:54 | `setOutput` replaces the output of that name and changes nothing else |
| Actions.ActionContext.SaveState | src/runner.ts:68 | `saveState` replaces the state entry of that name and changes nothing else |
| Actions.ActionContext.Notify | src/runner.ts:70-74 | a notice is appended and nothing else changes |
| Actions.ActionContext.RestoreCache | src/runner.ts:63-65 | returns what the cache service answers and logs the call, changing nothing else |
| Actions.ActionContext.SaveCache | src/post-setup.ts:66 | logs the save call and changes nothing else |

## Left out

- Process execution (`getExecOutput`): modelled only as failure or captured stdout, through
  the `exec` function of the environment. One run is assumed to see the same answer each
  time it runs the same command.
- Semver (`satisfies(..., '>=2.x')`, `new SemVer(...)`): library code. Both are parameters of
  the environment. `nodeMajor` returns `None` where SemVer would throw.
- File hashing (`hashFiles`): hashes are opaque strings given by the environment.
- The cache service (`restoreCache`, `saveCache`): a restore returns an optional key given by
  the environment. A save is appended to a log. The service's own validation and failures
  are not modelled.
- Logging text: `info`, `debug` and `warning` messages are not modelled. The hit line and the
  miss warning after each restore are recorded, by kind and primary key. The plain progress
  lines ("Detecting package manager...", "Resolved cache directory", "done!") and detection's
  version messages are left out.
- Error messages: each `throw` is an `Error` constructor without its text. `main().catch(setFailed)`
  is the `Err` outcome of `RunRestore` and `RunSave`.
- Order of outputs and saved state: `setOutput` and `saveState` are kept as maps of final
  values. Their order relative to each other and to the `restoreCache` calls (runner.ts
  lines 63-68 and 78-83) is not recorded; only the restore log, the save log and the notices
  keep their order.
- async/Promise plumbing, `process.platform` (an environment field) and the licence headers.
- Strings.Decimal: renders a non-negative integer of any size. JavaScript switches to
  exponent notation from 1e21 on, which a Node major never reaches.
- Keys.OsSegment: platform names that are keys of `Object.prototype` (`constructor`,
  `toString`, ...) would make `os[platform]` a function, not `undefined`. Such platforms
  are not modelled.
- Unset inputs: an input that is not set reaches the model as the empty string, as
  `getInput` returns it. `AssertValidValue` handles non-strings, but the entry points
  always pass strings.
