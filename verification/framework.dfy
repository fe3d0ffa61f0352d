/** The few provider-framework values the resource code touches: optional
    string attributes and diagnostics. */
module Framework {

  /** A string attribute as the framework hands it over: null when the
      configuration leaves an optional attribute unset, else a known value. */
  datatype TfString = Null | Known(text: string) {

    /** The framework's ValueString(): the empty string for null. */
    function ValueString(): string {
      if Null? then "" else text
    }
  }

  datatype Severity = Warning | Error

  /** One entry of a response's diagnostics. */
  datatype Diagnostic = Diagnostic(severity: Severity, summary: string, detail: string)

  /** Number of error diagnostics in `ds`. */
  function CountErrors(ds: seq<Diagnostic>): (n: nat)
    ensures n <= |ds|
    ensures n == 0 <==> forall i :: 0 <= i < |ds| ==> ds[i].severity != Error
  {
    if ds == [] then 0
    else (if ds[0].severity == Error then 1 else 0) + CountErrors(ds[1..])
  }

  /** The framework's HasError(). */
  predicate HasError(ds: seq<Diagnostic>) {
    CountErrors(ds) > 0
  }

  /** True when some diagnostic is a warning. */
  predicate HasWarning(ds: seq<Diagnostic>) {
    exists i :: 0 <= i < |ds| && ds[i].severity == Warning
  }

  /** A concatenation holds a warning exactly when one of its parts does. */
  lemma HasWarningAppend(a: seq<Diagnostic>, b: seq<Diagnostic>)
    ensures HasWarning(a + b) <==> HasWarning(a) || HasWarning(b)
  {
    if HasWarning(a + b) {
      var i :| 0 <= i < |a + b| && (a + b)[i].severity == Warning;
      if i >= |a| {
        assert b[i - |a|] == (a + b)[i];
      }
    }
    if HasWarning(a) {
      var i :| 0 <= i < |a| && a[i].severity == Warning;
      assert (a + b)[i] == a[i];
    }
    if HasWarning(b) {
      var i :| 0 <= i < |b| && b[i].severity == Warning;
      assert (a + b)[|a| + i] == b[i];
    }
  }
}
