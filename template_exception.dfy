/** `TemplateException`: the error the LG library throws, carrying the diagnostics that caused it. */
module LgTemplateException {
  /** One finding of the LG checker; its structure is not part of this model. */
  type Diagnostic

  class TemplateException {
    /** The `Error` message, set by the superclass constructor. */
    const message: string
    /** Private and assigned only by the constructor, so it never changes afterwards. */
    const diagnostics: seq<Diagnostic>

    constructor (m: string, diagnostics: seq<Diagnostic>)
      ensures message == m
      ensures this.diagnostics == diagnostics
    {
      message := m;
      this.diagnostics := diagnostics;
    }

    /** `getDiagnostic`: the diagnostics passed to the constructor.  It changes nothing. */
    method GetDiagnostic() returns (r: seq<Diagnostic>)
      ensures r == diagnostics
    {
      r := diagnostics;
    }
  }

  /** Throwing an exception and asking it for its diagnostics, twice, gives back the constructor's
      message and list each time. */
  method ThrowAndInspect(m: string, ds: seq<Diagnostic>) returns (message: string, first: seq<Diagnostic>, second: seq<Diagnostic>)
    ensures message == m && first == ds && second == ds
  {
    var e := new TemplateException(m, ds);
    first := e.GetDiagnostic();
    second := e.GetDiagnostic();
    message := e.message;
  }
}
