/** What the agent tools return: a result string, or the reason they raised. */
module ToolResult {
  /** Why a tool call raised (each is a `ValueError` the agent sees). */
  datatype ToolError =
    | InvalidPayload             // the payload failed validation
    | NotFound(id: int)          // no listing with this id belongs to the employer
    | TitleAndDescriptionRequired
    | InvalidListing             // the listing failed model validation
    | RejectedProfile            // a serializer refused the data

  /** The result string: the outcome, with the saved data appended only in debug mode. */
  function Report(outcome: string, debug: bool, saved: string): (r: string)
    ensures |outcome| <= |r| && r[..|outcome|] == outcome
    ensures !debug ==> r == outcome
  {
    if debug then outcome + " | saved=" + saved else outcome
  }

  /** A debug report still starts with the outcome, so the two listing outcomes are never confused. */
  lemma ReportsDiffer(debug1: bool, saved1: string, debug2: bool, saved2: string)
    ensures Report("listing_created", debug1, saved1) != Report("listing_updated", debug2, saved2)
  {
    var a, b := Report("listing_created", debug1, saved1), Report("listing_updated", debug2, saved2);
    assert a[8] != b[8];
  }
}
