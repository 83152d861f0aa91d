/**
 * The hook logic of the plugin object returned by `typescript(options)` in
 * src/index.ts: module resolution, the write callback's two-tier recording,
 * `load` with its one-shot fallback to the persisted cache, the `watchChange`
 * gate and the asset selection of `generateBundle`.
 *
 * The TypeScript watch program, the persistent cache (`TSCache`), the output
 * lookup (`findTypescriptOutput`, `getEmittedFile`), the module resolver and
 * Node's `path` functions are not modelled: they are the uninterpreted
 * functions of `Host`, applied to the state they are given in the source.
 */
module Plugin {
  import opened Wrappers
  import opened Paths
  import opened LogErrors
  import Emit

  const TslibId: string := "tslib"
  const DeclarationExtension: string := ".d.ts"

  /** The part of TypeScript's `ResolvedModuleFull` the plugin reads. */
  datatype Resolved = Resolved(resolvedFileName: string, extension: string)

  /** What `findTypescriptOutput` returns: code and map (`undefined` when absent) and declaration paths. */
  datatype TsOutput = TsOutput(code: Option<string>, sourceMap: Option<string>, declarations: seq<string>)

  /** An entry of the persistent cache as `TSCache.getCached` returns it. */
  datatype Cached = Cached(code: Option<string>, sourceMap: Option<string>)

  /** A `SourceDescription` handed back to Rollup by `load`. */
  datatype Served = Served(code: string, sourceMap: Option<string>)

  /** An asset registered with `this.emitFile({ type: 'asset', fileName, source })`. */
  datatype Asset = Asset(fileName: string, source: string)

  /** The `this.emitFile` calls of one `generateBundle`, and whether it ended by throwing. */
  datatype Bundle = Bundle(assets: seq<Asset>, threw: bool)

  /** A call on the plugin's `WatchProgramHelper`. */
  datatype GateCall = Watch | Wait

  /** The collaborators the hooks call and cannot see into. */
  datatype Host = Host(
    filter: string -> bool,
    resolveModule: (string, string) -> Option<Resolved>,
    normalize: string -> string,
    relative: (string, string) -> string,
    findOutput: (seq<string>, string, map<string, string>, map<string, string>) -> TsOutput,
    getEmittedFile: (string, map<string, string>, map<string, string>) -> Option<string>,
    getCached: (map<string, string>, string) -> Option<Cached>,
    buildInfoPath: Option<string>)

  /** JavaScript truthiness of a `string | undefined`. */
  predicate Truthy(s: Option<string>)
  {
    s.Some? && s.value != ""
  }

  /**
   * `resolveId(importee, importer)` (src/index.ts:98-116): `tslib` always
   * resolves to the configured helper; anything else needs an importer, a
   * successful resolution from its normalized path and a result that is not a
   * declaration file.
   */
  function ResolveId(importee: string, importer: Option<string>, tslib: string,
                     resolveModule: (string, string) -> Option<Resolved>, normalize: string -> string)
    : (r: Option<string>)
    ensures importee == TslibId ==> r == Some(tslib)
    ensures importee != TslibId ==>
              (r.Some? <==> Truthy(importer)
                            && resolveModule(importee, NormalizePath(importer.value)).Some?
                            && resolveModule(importee, NormalizePath(importer.value)).value.extension != DeclarationExtension)
    ensures importee != TslibId && r.Some? ==>
              r.value == normalize(resolveModule(importee, NormalizePath(importer.value)).value.resolvedFileName)
  {
    if importee == TslibId then Some(tslib)
    else if !Truthy(importer) then None
    else
      var containingFile := NormalizePath(importer.value);
      match resolveModule(importee, containingFile)
      case None => None
      case Some(resolved) =>
        if resolved.extension == DeclarationExtension then None
        else Some(normalize(resolved.resolvedFileName))
  }

  /** The resolver is only ever asked about a containing file with POSIX separators. */
  lemma ResolverSeesPosixPaths(importer: string)
    ensures WinSep !in NormalizePath(importer)
    ensures NormalizePath(NormalizePath(importer)) == NormalizePath(importer)
  {
  }

  /** `fileNames.filter(filter)` (src/index.ts:26). */
  function Filter(names: seq<string>, keep: string -> bool): (r: seq<string>)
    ensures |r| <= |names|
    ensures forall x :: x in r <==> x in names && keep(x)
  {
    if names == [] then []
    else (if keep(names[0]) then [names[0]] else []) + Filter(names[1..], keep)
  }

  /** The filter keeps order: filtering a concatenation is concatenating the filtered parts. */
  lemma {:induction false} FilterAppend(a: seq<string>, b: seq<string>, keep: string -> bool)
    ensures Filter(a + b, keep) == Filter(a, keep) + Filter(b, keep)
    decreases |a|
  {
    if a != [] {
      assert (a + b)[1..] == a[1..] + b;
      FilterAppend(a[1..], b, keep);
    } else {
      assert a + b == b;
    }
  }

  /** A single name is kept exactly when the filter accepts it. */
  lemma FilterSingleton(x: string, keep: string -> bool)
    ensures Filter([x], keep) == if keep(x) then [x] else []
  {
    assert [x][1..] == [];
  }

  ghost predicate NoDuplicates(s: seq<string>)
  {
    forall i, j :: 0 <= i < j < |s| ==> s[i] != s[j]
  }

  /**
   * The list update of `load` (src/index.ts:132-135): the name ends up in the
   * list, is appended only when absent, and nothing else changes.
   */
  function AddOnce(names: seq<string>, name: string): (r: seq<string>)
    ensures name in r
    ensures name in names ==> r == names
    ensures name !in names ==> |r| == |names| + 1 && r[..|names|] == names
    ensures NoDuplicates(names) ==> NoDuplicates(r)
  {
    if name in names then names else names + [name]
  }

  /** Mirroring of the session map into the persistent store in composite/incremental mode. */
  ghost predicate Mirrored(emitted: map<string, string>, persisted: map<string, string>)
  {
    forall k :: k in emitted ==> k in persisted && persisted[k] == emitted[k]
  }

  /**
   * The `load` fallback (src/index.ts:124-127): the persisted entry, or `{}`,
   * with a missing or empty `code`/`map` replaced by `''`.
   */
  function Fallback(cached: Option<Cached>): (s: Served)
    ensures s.sourceMap.Some?
    ensures cached.Some? && Truthy(cached.value.code) ==> s.code == cached.value.code.value
    ensures !(cached.Some? && Truthy(cached.value.code)) ==> s.code == ""
    ensures cached.Some? && Truthy(cached.value.sourceMap) ==> s.sourceMap == cached.value.sourceMap
    ensures !(cached.Some? && Truthy(cached.value.sourceMap)) ==> s.sourceMap == Some("")
  {
    var c := cached.GetOr(Cached(None, None));
    Served(if Truthy(c.code) then c.code.value else "", Some(if Truthy(c.sourceMap) then c.sourceMap.value else ""))
  }

  /** `output.code != null ? output : null` (src/index.ts:139). */
  function Extracted(output: TsOutput): (r: Option<Served>)
    ensures r.None? <==> output.code.None?
    ensures r.Some? ==> r.value.code == output.code.value && r.value.sourceMap == output.sourceMap
  {
    match output.code
    case None => None
    case Some(code) => Some(Served(code, output.sourceMap))
  }

  /**
   * The directory assets are placed relative to (src/index.ts:147-150):
   * `outputOptions.dir` when set, otherwise the tsconfig path up to its last `/`.
   */
  function BaseDir(dir: Option<string>, tsconfig: Option<string>): (r: Option<string>)
    ensures Truthy(dir) ==> r == dir
    ensures !Truthy(dir) && Truthy(tsconfig) ==> r.Some? && r.value <= tsconfig.value
    ensures !Truthy(dir) && Truthy(tsconfig) && PosixSep in tsconfig.value ==>
              |r.value| < |tsconfig.value| && tsconfig.value[|r.value|] == PosixSep && PosixSep !in tsconfig.value[|r.value| + 1..]
    ensures !Truthy(dir) && !(Truthy(tsconfig) && PosixSep in tsconfig.value) ==> !Truthy(r)
  {
    if Truthy(dir) then dir
    else if Truthy(tsconfig) then Some(ConfigDir(tsconfig.value))
    else dir
  }

  /** One declaration file: an asset only when its code and the base directory are both non-empty. */
  function DeclarationAsset(id: string, code: Option<string>, baseDir: Option<string>,
                            relative: (string, string) -> string): (r: seq<Asset>)
    ensures |r| <= 1
    ensures |r| == 1 <==> Truthy(code) && Truthy(baseDir)
    ensures |r| == 1 ==> r[0] == Asset(NormalizePath(relative(baseDir.value, id)), code.value)
  {
    if !Truthy(code) || !Truthy(baseDir) then []
    else [Asset(NormalizePath(relative(baseDir.value, id)), code.value)]
  }

  /** The inner `forEach` over one output's declaration paths. */
  function DeclarationAssets(ids: seq<string>, baseDir: Option<string>, emitted: map<string, string>,
                             persisted: map<string, string>, host: Host): seq<Asset>
    decreases |ids|
  {
    if ids == [] then []
    else
      var id := ids[|ids| - 1];
      DeclarationAssets(ids[..|ids| - 1], baseDir, emitted, persisted, host)
      + DeclarationAsset(id, host.getEmittedFile(id, emitted, persisted), baseDir, host.relative)
  }

  /** The outer `forEach` over `names`, a prefix of the project's `fileNames` (which is `all`). */
  function FileAssets(names: seq<string>, all: seq<string>, baseDir: Option<string>,
                      emitted: map<string, string>, persisted: map<string, string>, host: Host): seq<Asset>
    decreases |names|
  {
    if names == [] then []
    else
      var output := host.findOutput(all, names[|names| - 1], emitted, persisted);
      FileAssets(names[..|names| - 1], all, baseDir, emitted, persisted, host)
      + DeclarationAssets(output.declarations, baseDir, emitted, persisted, host)
  }

  /**
   * The build-info step (src/index.ts:161-172): an asset when the path is set
   * and has emitted content. `outputOptions.dir!` is `undefined` when no output
   * directory is configured, and Node's `path.relative` then throws.
   */
  function BuildInfoStep(dir: Option<string>, emitted: map<string, string>, host: Host): (b: Bundle)
    ensures |b.assets| <= 1
    ensures b.threw ==> b.assets == []
    ensures b.threw <==> dir.None? && Truthy(host.buildInfoPath) && host.buildInfoPath.value in emitted
                         && emitted[host.buildInfoPath.value] != ""
    ensures |b.assets| + (if b.threw then 1 else 0) == 1 <==>
              Truthy(host.buildInfoPath) && host.buildInfoPath.value in emitted && emitted[host.buildInfoPath.value] != ""
    ensures |b.assets| == 1 ==>
              dir.Some? && b.assets[0] == Asset(NormalizePath(host.relative(dir.value, host.buildInfoPath.value)),
                                                emitted[host.buildInfoPath.value])
  {
    if !Truthy(host.buildInfoPath) then Bundle([], false)
    else
      var path := host.buildInfoPath.value;
      if path !in emitted || emitted[path] == "" then Bundle([], false)
      else if dir.None? then Bundle([], true)
      else Bundle([Asset(NormalizePath(host.relative(dir.value, path)), emitted[path])], false)
  }

  /** Everything `generateBundle` registers, in order. */
  function BundleOf(dir: Option<string>, tsconfig: Option<string>, fileNames: seq<string>,
                    emitted: map<string, string>, persisted: map<string, string>, host: Host): Bundle
  {
    var declarations := FileAssets(fileNames, fileNames, BaseDir(dir, tsconfig), emitted, persisted, host);
    var buildInfo := BuildInfoStep(dir, emitted, host);
    Bundle(declarations + buildInfo.assets, buildInfo.threw)
  }

  /** Each declaration asset has non-empty source and a POSIX-separated file name. */
  ghost predicate WellFormed(assets: seq<Asset>)
  {
    forall k :: 0 <= k < |assets| ==> assets[k].source != "" && WinSep !in assets[k].fileName
  }

  lemma {:induction false} DeclarationAssetsWellFormed(ids: seq<string>, baseDir: Option<string>,
                                                       emitted: map<string, string>, persisted: map<string, string>, host: Host)
    ensures WellFormed(DeclarationAssets(ids, baseDir, emitted, persisted, host))
    ensures !Truthy(baseDir) ==> DeclarationAssets(ids, baseDir, emitted, persisted, host) == []
    ensures |DeclarationAssets(ids, baseDir, emitted, persisted, host)| <= |ids|
    decreases |ids|
  {
    if ids != [] {
      DeclarationAssetsWellFormed(ids[..|ids| - 1], baseDir, emitted, persisted, host);
    }
  }

  /**
   * Declaration assets of `generateBundle`: none at all without a base
   * directory, and each one carries non-empty code under a POSIX file name.
   */
  lemma {:induction false} FileAssetsWellFormed(names: seq<string>, all: seq<string>, baseDir: Option<string>,
                                                emitted: map<string, string>, persisted: map<string, string>, host: Host)
    ensures WellFormed(FileAssets(names, all, baseDir, emitted, persisted, host))
    ensures !Truthy(baseDir) ==> FileAssets(names, all, baseDir, emitted, persisted, host) == []
    decreases |names|
  {
    if names != [] {
      var output := host.findOutput(all, names[|names| - 1], emitted, persisted);
      FileAssetsWellFormed(names[..|names| - 1], all, baseDir, emitted, persisted, host);
      DeclarationAssetsWellFormed(output.declarations, baseDir, emitted, persisted, host);
    }
  }

  /** The state the plugin closure keeps between hook calls. */
  class TypescriptPlugin {
    const host: Host
    const composite: bool
    const incremental: bool
    const tslib: string
    const tsconfig: Option<string>
    const logError: LogError
    /** `emittedFiles`: what the compiler wrote during this session. */
    var emittedFiles: map<string, string>
    /** What `tsCache.cacheCode` has stored (the persistent tier). */
    var persisted: map<string, string>
    /** `parsedOptions.fileNames` */
    var fileNames: seq<string>
    /** The calls made on `watchProgramHelper`, in order. */
    var gateLog: seq<GateCall>

    /** In composite or incremental mode every artifact of the session is in the persistent tier too. */
    ghost predicate Valid()
      reads this
    {
      (composite || incremental) ==> Mirrored(emittedFiles, persisted)
    }

    /**
     * `typescript(options)` followed by the first `buildStart`: the filtered
     * file names of the parsed tsconfig, an empty session map, the persistent
     * tier as found on disk, and a fresh `LogError` set to `strict`.
     */
    constructor (host: Host, composite: bool, incremental: bool, tslib: string, tsconfig: Option<string>,
                 configFileNames: seq<string>, persisted: map<string, string>, strict: Option<bool>)
      ensures Valid()
      ensures this.host == host && this.composite == composite && this.incremental == incremental
      ensures this.tslib == tslib && this.tsconfig == tsconfig
      ensures emittedFiles == map[] && this.persisted == persisted && gateLog == []
      ensures fileNames == Filter(configFileNames, host.filter)
      ensures fresh(logError)
      ensures logError.errorMap == map[] && logError.enableRollupErrorFlag == strict
    {
      this.host := host;
      this.composite := composite;
      this.incremental := incremental;
      this.tslib := tslib;
      this.tsconfig := tsconfig;
      var errors := new LogError();
      errors.EnableRollupError(strict);
      logError := errors;
      emittedFiles := map[];
      this.persisted := persisted;
      fileNames := Filter(configFileNames, host.filter);
      gateLog := [];
    }

    /**
     * The `writeFile` callback (src/index.ts:63-68): always into the session
     * map; into the persistent tier only in composite or incremental mode.
     */
    method WriteFile(fileName: string, data: string)
      requires Valid()
      modifies this
      ensures Valid()
      ensures emittedFiles == old(emittedFiles)[fileName := data]
      ensures persisted == if composite || incremental then old(persisted)[fileName := data] else old(persisted)
      ensures fileNames == old(fileNames) && gateLog == old(gateLog)
    {
      if composite || incremental {
        persisted := persisted[fileName := data];
      }
      emittedFiles := emittedFiles[fileName := data];
    }

    /** `watchChange(id)` (src/index.ts:79-82): only files the filter accepts trigger `watch()`. */
    method WatchChange(id: string)
      modifies this
      ensures gateLog == old(gateLog) + if host.filter(id) then [Watch] else []
      ensures emittedFiles == old(emittedFiles) && persisted == old(persisted) && fileNames == old(fileNames)
    {
      if !host.filter(id) {
        return;
      }
      gateLog := gateLog + [Watch];
    }

    /**
     * `load(id)` (src/index.ts:118-140). Filtered ids: `null`, nothing changes.
     * A flagged file: its flag is cleared and the persisted entry is served,
     * without waiting and without touching `fileNames`. Otherwise: wait, make
     * sure the file is listed once, and serve the extracted output, `null`
     * exactly when it has no code. Either way the file is not flagged after.
     */
    method Load(id: string) returns (r: Option<Served>)
      requires Valid()
      modifies this, logError
      ensures Valid()
      ensures emittedFiles == old(emittedFiles) && persisted == old(persisted)
      ensures logError.enableRollupErrorFlag == old(logError.enableRollupErrorFlag)
      ensures !host.filter(id) ==>
                r.None? && fileNames == old(fileNames) && gateLog == old(gateLog)
                && logError.errorMap == old(logError.errorMap)
      ensures host.filter(id) ==> !logError.HasError(NormalizePath(id))
      ensures host.filter(id) && old(logError.HasError(NormalizePath(id))) ==>
                && r == Some(Fallback(host.getCached(persisted, NormalizePath(id))))
                && logError.errorMap == Clear(old(logError.errorMap), Some(NormalizePath(id)))
                && fileNames == old(fileNames) && gateLog == old(gateLog)
      ensures host.filter(id) && !old(logError.HasError(NormalizePath(id))) ==>
                && logError.errorMap == old(logError.errorMap)
                && gateLog == old(gateLog) + [Wait]
                && fileNames == AddOnce(old(fileNames), NormalizePath(id))
                && r == Extracted(host.findOutput(fileNames, id, emittedFiles, persisted))
    {
      if !host.filter(id) {
        return None;
      }
      var fileName := NormalizePath(id);
      if logError.HasError(fileName) {
        logError.ClearError(Some(fileName));
        var cache := Fallback(host.getCached(persisted, fileName));
        return Some(cache);
      }
      gateLog := gateLog + [Wait];
      if fileName !in fileNames {
        fileNames := fileNames + [fileName];
      }
      var output := host.findOutput(fileNames, id, emittedFiles, persisted);
      r := Extracted(output);
    }

    /** Two `load`s of an unflagged file with nothing in between give the same result. */
    method LoadTwice(id: string) returns (first: Option<Served>, second: Option<Served>)
      requires Valid() && !logError.HasError(NormalizePath(id))
      modifies this, logError
      ensures Valid()
      ensures first == second
      ensures host.filter(id) ==> fileNames == AddOnce(old(fileNames), NormalizePath(id))
    {
      first := Load(id);
      second := Load(id);
    }

    /**
     * The inner `forEach` callback of `generateBundle` (src/index.ts:145-158)
     * over one output's declaration paths: each one with emitted code becomes an
     * asset relative to the base directory, in order.
     */
    method DeclarationAssetsOf(declarations: seq<string>, dir: Option<string>) returns (found: seq<Asset>)
      ensures found == DeclarationAssets(declarations, BaseDir(dir, tsconfig), emittedFiles, persisted, host)
    {
      found := [];
      var j := 0;
      while j < |declarations|
        invariant 0 <= j <= |declarations|
        invariant found == DeclarationAssets(declarations[..j], BaseDir(dir, tsconfig), emittedFiles, persisted, host)
      {
        var id := declarations[j];
        var code := host.getEmittedFile(id, emittedFiles, persisted);
        var baseDir := dir;
        if !Truthy(baseDir) && Truthy(tsconfig) {
          baseDir := Some(ConfigDir(tsconfig.value));
        }
        assert declarations[..j + 1][..j] == declarations[..j];
        if Truthy(code) && Truthy(baseDir) {
          found := found + [Asset(NormalizePath(host.relative(baseDir.value, id)), code.value)];
        }
        j := j + 1;
      }
      assert declarations[..j] == declarations;
    }

    /**
     * `generateBundle(outputOptions)` (src/index.ts:142-173): for every listed
     * file, every declaration of its output with emitted code becomes an asset
     * relative to the base directory; then the build-info file, if any.
     */
    method GenerateBundle(dir: Option<string>) returns (b: Bundle)
      ensures b == BundleOf(dir, tsconfig, fileNames, emittedFiles, persisted, host)
    {
      var assets: seq<Asset> := [];
      var i := 0;
      while i < |fileNames|
        invariant 0 <= i <= |fileNames|
        invariant assets == FileAssets(fileNames[..i], fileNames, BaseDir(dir, tsconfig), emittedFiles, persisted, host)
      {
        var output := host.findOutput(fileNames, fileNames[i], emittedFiles, persisted);
        var found := DeclarationAssetsOf(output.declarations, dir);
        assets := assets + found;
        assert fileNames[..i + 1][..i] == fileNames[..i];
        i := i + 1;
      }
      assert fileNames[..i] == fileNames;
      ghost var step := BuildInfoStep(dir, emittedFiles, host);
      b := Bundle(assets, false);
      if Truthy(host.buildInfoPath) {
        var path := host.buildInfoPath.value;
        if path in emittedFiles && emittedFiles[path] != "" {
          if dir.None? {
            assert step == Bundle([], true);
            b := Bundle(assets, true);
            return;
          }
          assert step.assets == [Asset(NormalizePath(host.relative(dir.value, path)), emittedFiles[path])];
          b := Bundle(assets + [Asset(NormalizePath(host.relative(dir.value, path)), emittedFiles[path])], false);
        } else {
          assert step == Bundle([], false);
        }
      } else {
        assert step == Bundle([], false);
      }
    }
  }

  /**
   * Error recovery over one watch cycle: a fatal diagnostic for `file` in
   * recoverable mode arms it, the next `load(file)` serves the persisted entry
   * and clears the flag, and the load after that goes through normal
   * extraction.
   */
  method RecoverFromFatal(host: Host, file: string, d: Emit.Diagnostic, toWarning: Emit.Diagnostic -> LogProps,
                          configFileNames: seq<string>, persisted: map<string, string>)
    returns (calls: seq<ContextCall>, first: Option<Served>, second: Option<Served>)
    requires host.filter(file) && WinSep !in file
    requires d.code != Emit.CannotCompileEsm && d.category == Emit.Error && toWarning(d).file == Some(file)
    ensures calls == [ContextWarn(toWarning(d))]
    ensures first == Some(Fallback(host.getCached(persisted, file)))
    ensures second == Extracted(host.findOutput(AddOnce(Filter(configFileNames, host.filter), file), file, map[], persisted))
  {
    var plugin := new TypescriptPlugin(host, false, false, TslibId, None, configFileNames, persisted, Some(false));
    calls := Emit.ReportDiagnostic(d, true, toWarning, plugin.logError);
    NormalizeKeepsPosixPath(file);
    first := plugin.Load(file);
    second := plugin.Load(file);
  }
}
