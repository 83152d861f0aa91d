/**
 * Diagnostic classification of src/diagnostics/emit.ts.
 *
 * Each TypeScript diagnostic is either discarded (code 1204), fatal (the
 * project sets `noEmitOnError` and the diagnostic is an error; it goes to
 * `logError.error`) or a warning (it goes to `context.warn`). The decision is
 * a value, `Emission`; `ReportDiagnostic` carries it out against a `LogError`.
 */
module Emit {
  import opened Wrappers
  import opened LogErrors

  /** "Cannot compile modules into 'es6' when targeting 'ES5' or lower." */
  const CannotCompileEsm: int := 1204

  /** TypeScript's `DiagnosticCategory`. */
  datatype Category = Warning | Error | Suggestion | Message

  datatype Diagnostic = Diagnostic(code: int, category: Category, messageText: string, file: Option<string>)

  /** What `emitDiagnostic` does with one diagnostic; the record is `diagnosticToWarning`'s. */
  datatype Emission = Discard | Fatal(warning: LogProps) | Warn(warning: LogProps)

  /**
   * `emitDiagnostic` (emit.ts:13-33): exactly one of three outcomes, decided by
   * the code, the category and `noEmitOnError` alone; the record passed on is
   * the converted diagnostic.
   */
  function EmitDiagnostic(d: Diagnostic, noEmitOnError: bool, toWarning: Diagnostic -> LogProps): (e: Emission)
    ensures e.Discard? <==> d.code == CannotCompileEsm
    ensures e.Fatal? <==> d.code != CannotCompileEsm && noEmitOnError && d.category == Error
    ensures e.Warn? <==> d.code != CannotCompileEsm && !(noEmitOnError && d.category == Error)
    ensures !e.Discard? ==> e.warning == toWarning(d)
  {
    if d.code == CannotCompileEsm then Discard
    else
      var warning := toWarning(d);
      if noEmitOnError && d.category == Error then Fatal(warning) else Warn(warning)
  }

  /** The outcome does not depend on the text or the file of a diagnostic. */
  lemma OutcomeIgnoresMessage(d1: Diagnostic, d2: Diagnostic, noEmitOnError: bool, toWarning: Diagnostic -> LogProps)
    requires d1.code == d2.code && d1.category == d2.category
    ensures EmitDiagnostic(d1, noEmitOnError, toWarning).Discard? == EmitDiagnostic(d2, noEmitOnError, toWarning).Discard?
    ensures EmitDiagnostic(d1, noEmitOnError, toWarning).Fatal? == EmitDiagnostic(d2, noEmitOnError, toWarning).Fatal?
    ensures EmitDiagnostic(d1, noEmitOnError, toWarning).Warn? == EmitDiagnostic(d2, noEmitOnError, toWarning).Warn?
  {
  }

  /**
   * What one call of a reporter does: it delivers the outcome of
   * `emitDiagnostic`, or it crashes with a TypeError because a fatal outcome
   * was sent to a `logError` that is `undefined`.
   */
  datatype Reported = Delivered(emission: Emission) | Crash

  /**
   * `buildDiagnosticReporter` (emit.ts:35-44) with or without its optional
   * `logError`: every diagnostic gets the outcome of `emitDiagnostic`, except
   * that without a `logError` a fatal one crashes the reporter.
   */
  function BuildDiagnosticReporter(noEmitOnError: bool, toWarning: Diagnostic -> LogProps, hasLogError: bool)
    : (reporter: Diagnostic -> Reported)
    ensures forall d :: reporter(d).Crash? <==> !hasLogError && EmitDiagnostic(d, noEmitOnError, toWarning).Fatal?
    ensures forall d :: reporter(d).Delivered? ==> reporter(d).emission == EmitDiagnostic(d, noEmitOnError, toWarning)
    ensures forall d :: reporter(d).Delivered? ==> (reporter(d).emission.Discard? <==> d.code == CannotCompileEsm)
  {
    d =>
      var e := EmitDiagnostic(d, noEmitOnError, toWarning);
      if e.Fatal? && !hasLogError then Crash else Delivered(e)
  }

  /**
   * `emitDiagnostic` called with a `logError`: a fatal diagnostic goes to
   * `logError.error` only, a warning to `context.warn` only, code 1204 nowhere.
   */
  method ReportDiagnostic(d: Diagnostic, noEmitOnError: bool, toWarning: Diagnostic -> LogProps, logError: LogError)
    returns (calls: seq<ContextCall>)
    modifies logError
    ensures logError.enableRollupErrorFlag == old(logError.enableRollupErrorFlag)
    ensures d.code == CannotCompileEsm ==> calls == [] && logError.errorMap == old(logError.errorMap)
    ensures EmitDiagnostic(d, noEmitOnError, toWarning).Warn? ==>
              calls == [ContextWarn(toWarning(d))] && logError.errorMap == old(logError.errorMap)
    ensures EmitDiagnostic(d, noEmitOnError, toWarning).Fatal? && old(logError.Strict()) ==>
              calls == [ContextError(toWarning(d))] && logError.errorMap == old(logError.errorMap)
    ensures EmitDiagnostic(d, noEmitOnError, toWarning).Fatal? && !old(logError.Strict()) ==>
              calls == [ContextWarn(toWarning(d))] && logError.errorMap == Arm(old(logError.errorMap), toWarning(d).file)
  {
    var reporter := BuildDiagnosticReporter(noEmitOnError, toWarning, true);
    match reporter(d)
    case Delivered(Fatal(warning)) =>
      calls := logError.Error(warning);
    case Delivered(Warn(warning)) =>
      calls := [ContextWarn(warning)];
    case _ =>
      calls := [];
  }

  /** `diagnostics.forEach(reporter)` with a reporter that can deliver fatal diagnostics. */
  function EmitAll(ds: seq<Diagnostic>, noEmitOnError: bool, toWarning: Diagnostic -> LogProps): (es: seq<Emission>)
    ensures |es| == |ds|
    ensures forall i :: 0 <= i < |ds| ==> es[i] == EmitDiagnostic(ds[i], noEmitOnError, toWarning)
  {
    if ds == [] then []
    else [EmitDiagnostic(ds[0], noEmitOnError, toWarning)] + EmitAll(ds[1..], noEmitOnError, toWarning)
  }

  /**
   * `emitDiagnostics` as evidently intended (emit.ts:49-57): `undefined` emits
   * nothing; otherwise every diagnostic is classified on its own, in list order.
   */
  function EmitDiagnostics(diagnostics: Option<seq<Diagnostic>>, noEmitOnError: bool, toWarning: Diagnostic -> LogProps)
    : (es: seq<Emission>)
    ensures diagnostics.None? ==> es == []
    ensures diagnostics.Some? ==> |es| == |diagnostics.value|
    ensures diagnostics.Some? ==>
              forall i :: 0 <= i < |es| ==> es[i] == EmitDiagnostic(diagnostics.value[i], noEmitOnError, toWarning)
  {
    match diagnostics
    case None => []
    case Some(ds) => EmitAll(ds, noEmitOnError, toWarning)
  }

  /** Classifying a list is classifying its parts. */
  lemma EmitAllAppend(a: seq<Diagnostic>, b: seq<Diagnostic>, noEmitOnError: bool, toWarning: Diagnostic -> LogProps)
    ensures EmitAll(a + b, noEmitOnError, toWarning) == EmitAll(a, noEmitOnError, toWarning) + EmitAll(b, noEmitOnError, toWarning)
  {
  }

  /** A run of `forEach` that may stop at an exception: what was delivered before it, and whether it threw. */
  datatype Run = Run(delivered: seq<Emission>, crashed: bool)

  /**
   * `diagnostics.forEach(buildDiagnosticReporter(ts, context, host))` as
   * written: the reporter is built without a `logError`, so it crashes at the
   * first fatal diagnostic and the TypeError ends the loop. Everything
   * before it is delivered as the intended `EmitAll` would.
   */
  function ReportWithoutLogError(ds: seq<Diagnostic>, noEmitOnError: bool, toWarning: Diagnostic -> LogProps): (r: Run)
    ensures |r.delivered| <= |ds|
    ensures r.delivered == EmitAll(ds[..|r.delivered|], noEmitOnError, toWarning)
    ensures forall i :: 0 <= i < |r.delivered| ==> !r.delivered[i].Fatal?
    ensures r.crashed ==> |r.delivered| < |ds| && EmitDiagnostic(ds[|r.delivered|], noEmitOnError, toWarning).Fatal?
    ensures !r.crashed ==> r.delivered == EmitAll(ds, noEmitOnError, toWarning)
  {
    if ds == [] then Run([], false)
    else
      var reported := BuildDiagnosticReporter(noEmitOnError, toWarning, false)(ds[0]);
      match reported
      case Crash => Run([], true)
      case Delivered(e) =>
        var rest := ReportWithoutLogError(ds[1..], noEmitOnError, toWarning);
        assert ds[..|rest.delivered| + 1] == [ds[0]] + ds[1..][..|rest.delivered|];
        Run([e] + rest.delivered, rest.crashed)
  }

  /** `emitDiagnostics` (emit.ts:49-57) as written. */
  function EmitDiagnosticsAsWritten(diagnostics: Option<seq<Diagnostic>>, noEmitOnError: bool, toWarning: Diagnostic -> LogProps)
    : (r: Run)
    ensures diagnostics.None? ==> r == Run([], false)
    ensures diagnostics.Some? ==> r == ReportWithoutLogError(diagnostics.value, noEmitOnError, toWarning)
  {
    match diagnostics
    case None => Run([], false)
    case Some(ds) => ReportWithoutLogError(ds, noEmitOnError, toWarning)
  }

  /**
   * The as-written `emitDiagnostics` throws exactly when the intended one
   * would deliver a fatal diagnostic, and otherwise agrees with it.
   */
  lemma {:induction false} AsWrittenCrashesExactlyOnFatal(ds: seq<Diagnostic>, noEmitOnError: bool, toWarning: Diagnostic -> LogProps)
    ensures var r := EmitDiagnosticsAsWritten(Some(ds), noEmitOnError, toWarning);
            r.crashed <==> exists i :: 0 <= i < |ds| && EmitDiagnostics(Some(ds), noEmitOnError, toWarning)[i].Fatal?
  {
    var r := ReportWithoutLogError(ds, noEmitOnError, toWarning);
    var es := EmitAll(ds, noEmitOnError, toWarning);
    assert EmitDiagnostics(Some(ds), noEmitOnError, toWarning) == es;
    if r.crashed {
      var k := |r.delivered|;
      assert EmitDiagnostics(Some(ds), noEmitOnError, toWarning)[k].Fatal?;
    } else {
      assert forall i :: 0 <= i < |ds| ==> !es[i].Fatal? by {
        assert es == r.delivered;
      }
    }
  }

  /** The input that shows it: one type error in a project with `noEmitOnError`. */
  lemma OneTypeErrorCrashes(toWarning: Diagnostic -> LogProps)
    ensures EmitDiagnosticsAsWritten(Some([Diagnostic(2322, Error, "type mismatch", None)]), true, toWarning).crashed
    ensures EmitDiagnostics(Some([Diagnostic(2322, Error, "type mismatch", None)]), true, toWarning)
            == [Fatal(toWarning(Diagnostic(2322, Error, "type mismatch", None)))]
  {
  }
}
