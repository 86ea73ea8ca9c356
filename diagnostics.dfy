/** The diagnostics a provider hands back to Terraform instead of raising errors. */
module Diagnostics {
  import opened Wrappers

  datatype Severity = Error | Warning

  datatype Diagnostic = Diagnostic(severity: Severity, summary: string, detail: string)

  /** diag.FromErr: one error diagnostic whose summary is the error's message. */
  function FromErr(e: Err): seq<Diagnostic> {
    [Diagnostic(Error, e.message, "")]
  }
}
