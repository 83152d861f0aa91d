# rollup-plugin-typescript: a Dafny model of the plugin's bookkeeping

This project models the bookkeeping that the Rollup plugin wraps around the
TypeScript watch compiler. The compiler itself, Rollup and Node are not part
of the model. Three pieces are modelled:

- **Per-file error flags** (`LogErrors`, from src/diagnostics/custom-log-error.ts).
  The class `LogError` keeps an `errorMap` from a file to "has an unserved fatal
  error" and a mode flag. In strict mode a fatal diagnostic goes to Rollup's
  `this.error`, which throws. Otherwise the diagnostic is downgraded to a
  warning and the file's entry is armed, but only when the file is absent from
  the map. `hasError` reads an entry; `clearError` disarms one entry, or
  empties the map when given `undefined`.
- **Diagnostic classification** (`Emit`, from src/diagnostics/emit.ts).
  Code 1204 is discarded. An `Error`-category diagnostic in a project with
  `noEmitOnError` is fatal and goes to `logError.error`. Anything else goes to
  `context.warn`. `EmitDiagnostic` returns that decision as a value.
  `ReportDiagnostic` carries it out against a `LogError`.
- **Plugin hooks** (`Plugin` and `Paths`, from src/index.ts):
  - `normalizePath` is modelled as split-then-join, and is proved to be a
    character-wise replacement.
  - `resolveId` is a pure function.
  - The class `TypescriptPlugin` holds the state the plugin's closure keeps:
    `emittedFiles`, the persistent tier written through `tsCache.cacheCode`,
    `parsedOptions.fileNames`, and the calls made on the watch helper.
  - Its methods are the `writeFile` callback, `watchChange`, `load` and
    `generateBundle`.
  - `RecoverFromFatal` runs one watch cycle of error recovery. A fatal
    diagnostic arms a file. The next `load` of that file serves the persisted
    entry. The `load` after that extracts normally.

The collaborators the hooks call but whose code is not modelled are fields of
the datatype `Plugin.Host`. Each is an uninterpreted function applied to the
state the source hands it:

- `filter`
- the module resolver
- `path.normalize` and `path.relative`
- `findTypescriptOutput` and `getEmittedFile`
- `TSCache.getCached`
- `ts.getTsBuildInfoEmitOutputFilePath`

`diagnosticToWarning` is likewise a function parameter of the `Emit`
functions.

Two consequences of the code are worth stating:

- `load` serves the persisted entry once per armed flag (src/index.ts:122-128),
  but `error` arms only a file that is absent from the map
  (src/diagnostics/custom-log-error.ts:26). A file cleared by `load` therefore
  keeps `false`, and is never re-armed until `clearError(undefined)` resets the
  map (`LogErrors.ClearedStaysCleared`, `LogErrors.ResetAllowsRearm`).
- The flag starts `true` (src/diagnostics/custom-log-error.ts:10), and
  `buildStart` then sets it to `process.env.ROLLUP_WATCH === true`
  (src/index.ts:55). An environment variable is a string, so that comparison is
  always `false` and the plugin always runs in recoverable mode. The model takes
  the value passed to `enableRollupError` as the parameter `strict` of the
  plugin's constructor.

## Model

| member | source | states |
|---|---|---|
| `LogErrors.Arm` | src/diagnostics/custom-log-error.ts:22-29 | the file's key is added if absent and then flagged; a key already present (true or cleared false) keeps its value; every other entry is unchanged |
| `LogErrors.Clear` | src/diagnostics/custom-log-error.ts:38-44 | `undefined` empties the map, so no key is flagged; a defined file is present and not flagged afterwards, and every other entry is unchanged |
| `LogErrors.ArmIdempotent` | src/diagnostics/custom-log-error.ts:24-29 | two `error` calls for one file leave the same map as one |
| `LogErrors.ClearedStaysCleared` | src/diagnostics/custom-log-error.ts:24-43 | once `clearError(file)` has set a file to false, no sequence of later non-strict `error` calls re-arms it |
| `LogErrors.ResetAllowsRearm` | src/diagnostics/custom-log-error.ts:26-40 | after `clearError(undefined)`, the next non-strict `error` for any file arms it again |
| `LogErrors.LogError.constructor` | src/diagnostics/custom-log-error.ts:4-10 | a fresh instance has an empty map, reports `hasError` false for every id, and starts in strict mode |
| `LogErrors.LogError.EnableRollupError` | src/diagnostics/custom-log-error.ts:12-14 | the mode flag becomes exactly `v`; the map is untouched |
| `LogErrors.LogError.Error` | src/diagnostics/custom-log-error.ts:16-32 | strict: one `context.error(msg)` call (which throws) and an unchanged map; otherwise the map becomes `Arm` of the old map at `msg.loc.file` and exactly one `context.warn(msg)` is made |
| `LogErrors.LogError.HasError` | src/diagnostics/custom-log-error.ts:34-36 | a boolean, true only for a file that is recorded in the map |
| `LogErrors.LogError.ClearError` | src/diagnostics/custom-log-error.ts:38-44 | the map becomes `Clear` of the old map; the mode flag is unchanged |
| `Emit.EmitDiagnostic` | src/diagnostics/emit.ts:13-33 | exactly one of three outcomes: discarded iff the code is 1204; fatal iff the code is not 1204, `noEmitOnError` is set and the category is Error; a warning otherwise; a non-discarded outcome carries the converted diagnostic |
| `Emit.OutcomeIgnoresMessage` | src/diagnostics/emit.ts:20-32 | the outcome depends only on code, category and `noEmitOnError`, not on the message or file |
| `Emit.BuildDiagnosticReporter` | src/diagnostics/emit.ts:35-44 | the reporter crashes exactly on a fatal diagnostic when it was built without a `logError`; otherwise it delivers the outcome of `emitDiagnostic`, which is a discard iff the code is 1204 |
| `Emit.ReportDiagnostic` | src/diagnostics/emit.ts:20-32 | code 1204 makes no call and changes no flag; a warning makes exactly one `context.warn` and changes no flag; a fatal diagnostic makes only the calls of `logError.error` and changes the flags as that does |
| `Emit.EmitAll` | src/diagnostics/emit.ts:56 | one outcome per diagnostic, in list order, each that of `emitDiagnostic` on the element |
| `Emit.EmitDiagnostics` | src/diagnostics/emit.ts:49-57 | `undefined` emits nothing; otherwise the outcome sequence is the per-element classification of the list (intended behaviour, see Findings) |
| `Emit.EmitAllAppend` | src/diagnostics/emit.ts:56 | classifying a concatenation is concatenating the classifications: diagnostics are handled independently |
| `Emit.ReportWithoutLogError` | src/diagnostics/emit.ts:56 | `forEach` over a reporter built with no `logError`: the run delivers the intended outcomes of a prefix containing no fatal one; it crashes exactly at a fatal diagnostic; without a crash it delivers every outcome |
| `Emit.EmitDiagnosticsAsWritten` | src/diagnostics/emit.ts:49-57 | `undefined` emits nothing; otherwise it is the reporter run without `logError` |
| `Emit.AsWrittenCrashesExactlyOnFatal` | src/diagnostics/emit.ts:55-56 | the as-written `emitDiagnostics` throws iff the intended one would deliver some fatal outcome |
| `Emit.OneTypeErrorCrashes` | src/diagnostics/emit.ts:55-56 | a single Error-category diagnostic in a `noEmitOnError` project crashes the as-written version, while the intended version delivers it as fatal |
| `Paths.SplitJoinIsReplace` | src/index.ts:34 | splitting on one separator and joining with another is character-wise replacement |
| `Paths.NormalizePath` | src/index.ts:33-35 | the output has the input's length, no `\`, a `/` where the input had `\`, and every other character kept in place |
| `Paths.NormalizeKeepsPosixPath` | src/index.ts:33-35 | a path without `\` is returned unchanged |
| `Paths.NormalizeIdempotent` | src/index.ts:33-35 | normalizing twice equals normalizing once |
| `Paths.LastIndexOf` | src/index.ts:149 | -1 iff the character is absent; otherwise a position holding it with none after it |
| `Paths.ConfigDir` | src/index.ts:149 | a prefix of the tsconfig path ending just before its last `/`, or empty when it has none |
| `Plugin.ResolveId` | src/index.ts:98-116 | `tslib` gives the configured `tslib` whatever the importer; otherwise a result exists iff there is a non-empty importer, resolution from its normalized path succeeds, and the extension is not `.d.ts`; the result is then the `path.normalize`d resolved file name |
| `Plugin.ResolverSeesPosixPaths` | src/index.ts:105-108 | the containing file passed to the resolver has no `\` and is already normalized |
| `Plugin.Filter` | src/index.ts:26 | the kept names are exactly the listed names the filter accepts |
| `Plugin.FilterAppend` | src/index.ts:26 | filtering keeps order: filtering a concatenation is concatenating the filtered parts |
| `Plugin.FilterSingleton` | src/index.ts:26 | a single name is kept iff the filter accepts it; with `FilterAppend` this fixes the result, order and duplicates included |
| `Plugin.AddOnce` | src/index.ts:132-135 | the name ends up listed; it is appended only when absent, earlier entries are unchanged, and no duplicate is introduced |
| `Plugin.Fallback` | src/index.ts:124-127 | the persisted code and map are served when non-empty, otherwise `''`; the map is always present |
| `Plugin.Extracted` | src/index.ts:137-139 | the result is null exactly when the extracted code is null or undefined; otherwise the extracted code and map |
| `Plugin.BaseDir` | src/index.ts:147-150 | a set output dir is used as is; otherwise the tsconfig prefix before its last `/`; falsy when neither gives one |
| `Plugin.DeclarationAsset` | src/index.ts:146-157 | an asset is emitted iff the declaration's code and the base dir are both non-empty, named by the normalized relative path |
| `Plugin.BuildInfoStep` | src/index.ts:161-172 | exactly one asset-or-throw iff the build-info path is set and has non-empty emitted content; it throws iff, in addition, no output dir is set; the asset is the content under the normalized path relative to the output dir |
| `Plugin.DeclarationAssetsWellFormed` | src/index.ts:145-158 | per output: no more assets than declarations, none without a base dir, and each has non-empty source and a name without `\` |
| `Plugin.FileAssetsWellFormed` | src/index.ts:143-158 | over all files: no declaration asset without a base dir, and each has non-empty source and a name without `\` |
| `Plugin.TypescriptPlugin.constructor` | src/index.ts:19-55 | the filtered config file names, an empty session map, the persistent tier as found, and a fresh `LogError` with an empty map and the given mode |
| `Plugin.TypescriptPlugin.WriteFile` | src/index.ts:63-68 | always `emittedFiles[fileName] = data`; the persistent tier is written iff composite or incremental; keeps the mirroring invariant |
| `Plugin.TypescriptPlugin.WatchChange` | src/index.ts:79-82 | `watch()` is called iff the filter accepts the id |
| `Plugin.TypescriptPlugin.Load` | src/index.ts:118-140 | filtered ids give null and change nothing. A flagged file has its flag cleared and is served the persisted entry, without waiting or touching `fileNames`. Otherwise the plugin waits once, the normalized name is added once, and the result is null iff the extracted code is. The file is not flagged afterwards |
| `Plugin.TypescriptPlugin.LoadTwice` | src/index.ts:118-140 | two loads of an unflagged file in a row return the same result and list the file once |
| `Plugin.TypescriptPlugin.DeclarationAssetsOf` | src/index.ts:145-158 | one output's assets are, in order, its declarations that have emitted code, each named relative to the output dir (or the tsconfig's directory) with `/` separators, none when neither base dir is set |
| `Plugin.TypescriptPlugin.GenerateBundle` | src/index.ts:142-173 | the emitted assets are, in order, the declaration assets of every listed file's output, followed by the build-info asset |
| `Plugin.RecoverFromFatal` | src/index.ts:122-128 | a fatal diagnostic in recoverable mode becomes a warning. The next load serves the persisted entry. The load after that goes through normal extraction |

## Findings

| source | as written | input that shows it | evidently intended | confidence | as-written member | corrected member |
|---|---|---|---|---|---|---|
| src/diagnostics/emit.ts:56 | `emitDiagnostics` builds its reporter without a `logError`; a fatal diagnostic then calls `error` on `undefined`, and the TypeError ends the `forEach` | one diagnostic with code 2322 and category Error, with `noEmitOnError` set | every diagnostic is classified in order, and fatal ones reach a `logError` | not executed; medium (the callers of `emitDiagnostics` are not part of this model) | `Emit.EmitDiagnosticsAsWritten` | `Emit.EmitDiagnostics` |

## Left out

- The watch engine is not modelled: `createWatchProgram` and the `WatchProgramHelper` gate (`watch`, `wait`, `handleStatus`) are concurrency. Calls to `watch()` and `wait()` are recorded in `gateLog`. `wait()` is a no-op step, so the model does not capture compiler callbacks that run while `load` is suspended.
- `TSCache`, `findTypescriptOutput` and `getEmittedFile` are not part of this model. They are uninterpreted functions of the state they receive, so a cache fill during lookup is not captured. `TSCache.getCached` is read independently of what `cacheCode` stored.
- `buildStart` and `buildEnd` are not modelled beyond the first `buildStart`, which the constructor covers: `emitParsedOptionsErrors`, `preflight`, `program.close()`, and the fact that `program` is never reset to null. A `load` before `buildStart`, when `logError` is still null, is not modelled.
- `renderStart` is not modelled: `validateSourceMap` and `validatePaths` are option validation in foreign code.
- The environment variable `ROLLUP_WATCH` is not modelled. The mode is a constructor parameter.
- Rollup's `this.error` throws; the model records a `ContextError` call and runs nothing after it.
- `Plugin.TypescriptPlugin.Load`: the returned object keeps only `code` and `map`. The source returns the cache entry itself, which it also mutates in place, or the whole extracted output with any other fields.
- `diagnosticToWarning`, `path.normalize`, `path.relative` and the module resolver are uninterpreted functions. The resolver's memoization is not modelled.
