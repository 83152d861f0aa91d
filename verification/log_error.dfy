/**
 * The per-file error flags of src/diagnostics/custom-log-error.ts.
 *
 * `LogError` keeps a map from a file to "has an unserved fatal error" and a
 * mode flag. In strict mode a fatal diagnostic goes to Rollup's `this.error`,
 * which throws; otherwise it is downgraded to a warning and the file's entry
 * is armed, so that the next `load` of the file serves the persisted output.
 */
module LogErrors {
  import opened Wrappers

  /** The parts of a Rollup log record (`RollupLogProps`) the plugin reads; `file` is `loc.file`. */
  datatype LogProps = LogProps(code: int, message: string, file: Option<string>)

  /** A call made on Rollup's plugin context. `ContextError` throws: nothing runs after it. */
  datatype ContextCall = ContextError(props: LogProps) | ContextWarn(props: LogProps)

  /** The `errorMap`; `None` is the key `undefined`, used when a record has no `loc.file`. */
  type ErrorMap = map<Option<string>, bool>

  /** `errorMap.get(key) || false` */
  predicate Flagged(m: ErrorMap, key: Option<string>)
  {
    key in m && m[key]
  }

  /**
   * What `error` does to the map (custom-log-error.ts:24-29): an absent key is
   * armed; a key already present keeps its value, so a cleared (`false`) entry
   * is not re-armed.
   */
  function Arm(m: ErrorMap, key: Option<string>): (m': ErrorMap)
    ensures m'.Keys == m.Keys + {key}
    ensures key !in m ==> Flagged(m', key)
    ensures key in m ==> m'[key] == m[key]
    ensures forall k :: k in m && k != key ==> m'[k] == m[k]
  {
    if key in m then m else m[key := true]
  }

  /**
   * What `clearError` does to the map (custom-log-error.ts:38-44): `undefined`
   * replaces the map by an empty one; a file is disarmed and nothing else changes.
   */
  function Clear(m: ErrorMap, id: Option<string>): (m': ErrorMap)
    ensures id.None? ==> m' == map[] && forall k :: !Flagged(m', k)
    ensures id.Some? ==> m'.Keys == m.Keys + {id} && !Flagged(m', id)
    ensures id.Some? ==> forall k :: k in m && k != id ==> m'[k] == m[k]
  {
    match id
    case None => map[]
    case Some(_) => m[id := false]
  }

  /** Arming a file twice is arming it once. */
  lemma ArmIdempotent(m: ErrorMap, key: Option<string>)
    ensures Arm(Arm(m, key), key) == Arm(m, key)
  {
  }

  /** A file cleared by `load` stays disarmed through any number of later fatal errors. */
  lemma {:induction false} ClearedStaysCleared(m: ErrorMap, file: string, later: seq<Option<string>>)
    ensures !Flagged(ArmAll(Clear(m, Some(file)), later), Some(file))
  {
    ClearedStaysClearedFrom(Clear(m, Some(file)), Some(file), later);
  }

  /** After `clearError(undefined)` the next fatal error for any file arms it again. */
  lemma ResetAllowsRearm(m: ErrorMap, key: Option<string>)
    ensures Flagged(Arm(Clear(m, None), key), key)
  {
  }

  /** The map after a run of non-strict `error` calls for the files `keys`, in order. */
  function ArmAll(m: ErrorMap, keys: seq<Option<string>>): ErrorMap
    decreases |keys|
  {
    if keys == [] then m else ArmAll(Arm(m, keys[0]), keys[1..])
  }

  lemma {:induction false} ClearedStaysClearedFrom(m: ErrorMap, key: Option<string>, keys: seq<Option<string>>)
    requires key in m && !m[key]
    ensures key in ArmAll(m, keys) && !ArmAll(m, keys)[key]
    decreases |keys|
  {
    if keys != [] {
      ClearedStaysClearedFrom(Arm(m, keys[0]), key, keys[1..]);
    }
  }

  /** The class `LogError` of custom-log-error.ts. */
  class LogError {
    var errorMap: ErrorMap
    var enableRollupErrorFlag: Option<bool>

    /** A fresh instance: no file flagged, strict mode on (custom-log-error.ts:4-10). */
    constructor ()
      ensures errorMap == map[]
      ensures enableRollupErrorFlag == Some(true)
      ensures forall id :: !HasError(id)
    {
      errorMap := map[];
      enableRollupErrorFlag := Some(true);
    }

    /** `if (this.enableRollupErrorFlag)`: only `true` is truthy among `boolean | undefined`. */
    predicate Strict()
      reads this
    {
      enableRollupErrorFlag == Some(true)
    }

    /** `enableRollupError(v)` sets the mode flag to exactly `v`. */
    method EnableRollupError(v: Option<bool>)
      modifies this
      ensures enableRollupErrorFlag == v
      ensures errorMap == old(errorMap)
    {
      enableRollupErrorFlag := v;
    }

    /**
     * `error(msg)`. Strict: Rollup's `this.error(msg)` throws, so the map is not
     * touched and no warning follows. Otherwise the file of `msg` is armed if it
     * is absent and `msg` is reported once as a warning.
     */
    method Error(msg: LogProps) returns (calls: seq<ContextCall>)
      modifies this
      ensures enableRollupErrorFlag == old(enableRollupErrorFlag)
      ensures old(Strict()) ==> calls == [ContextError(msg)] && errorMap == old(errorMap)
      ensures !old(Strict()) ==> calls == [ContextWarn(msg)] && errorMap == Arm(old(errorMap), msg.file)
    {
      if Strict() {
        calls := [ContextError(msg)];
        return;
      }
      var id := msg.file;
      if id !in errorMap {
        errorMap := errorMap[id := true];
      }
      calls := [ContextWarn(msg)];
    }

    /** `hasError(id)`: a boolean, and `false` for a file never recorded. */
    function HasError(id: string): (b: bool)
      reads this
      ensures b ==> Some(id) in errorMap
    {
      Some(id) in errorMap && errorMap[Some(id)]
    }

    /** `clearError(id)`: `undefined` empties the map; a file is set to `false`. */
    method ClearError(id: Option<string>)
      modifies this
      ensures enableRollupErrorFlag == old(enableRollupErrorFlag)
      ensures errorMap == Clear(old(errorMap), id)
    {
      if id.None? {
        errorMap := map[];
        return;
      }
      errorMap := errorMap[id := false];
    }
  }
}
