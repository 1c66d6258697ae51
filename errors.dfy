/** `SimpleSolutionError` of judge/error.go: an error an adapter can return that carries
    a status `S`, a message `M` and a detail text `D`. */
module Errors {
  import opened Base
  import opened Common

  datatype SimpleSolutionError = SimpleSolutionError(s: string, m: string, d: string)

  const DetailsOpening := "An Error has occurred:\n\n```"
  const DetailsClosing := "```"

  /** `Error()`: the text of the error is the message alone. */
  function ErrorText(e: SimpleSolutionError): string {
    e.m
  }

  /** `Info()`: a zero score, no metrics, the error's status and message. */
  function Info(e: SimpleSolutionError): (r: SolutionInfo)
    ensures r.score == 0.0 && r.metrics.None?
    ensures r.status == e.s && r.message == e.m
  {
    SolutionInfo(0.0, None, e.s, e.m)
  }

  /** `Details()`: version 1, no jobs, and `D` fenced after a fixed heading. */
  function Details(e: SimpleSolutionError): (r: SolutionDetails)
    ensures r.version == Some(1) && r.jobs.None?
    ensures HasPrefix(r.summary, DetailsOpening) && HasSuffix(r.summary, DetailsClosing)
    ensures |r.summary| == |DetailsOpening| + |e.d| + |DetailsClosing|
  {
    var summary := DetailsOpening + e.d + DetailsClosing;
    assert summary[..|DetailsOpening|] == DetailsOpening;
    assert summary[|summary| - |DetailsClosing|..] == DetailsClosing;
    SolutionDetails(Some(1), None, summary)
  }

  /** The detail text fenced inside a summary built by `Details`, if it is one. */
  function DetailText(summary: string): (r: Option<string>)
    ensures r.Some? ==> DetailsOpening + r.value + DetailsClosing == summary
  {
    if |DetailsOpening| + |DetailsClosing| <= |summary|
       && HasPrefix(summary, DetailsOpening) && HasSuffix(summary, DetailsClosing)
    then
      var d := summary[|DetailsOpening|..|summary| - |DetailsClosing|];
      assert summary == summary[..|DetailsOpening|] + d + summary[|summary| - |DetailsClosing|..];
      Some(d)
    else None
  }

  /** `D` can be read back from the summary: nothing of it is lost or altered. */
  lemma DetailsRoundTrip(e: SimpleSolutionError)
    ensures DetailText(Details(e).summary) == Some(e.d)
  {
    var summary := Details(e).summary;
    assert summary[|DetailsOpening|..|summary| - |DetailsClosing|] == e.d;
  }

  /** `Info` depends on S and M only, `Details` on D only; two errors give the same pair
      exactly when they agree on all three. */
  lemma ReportsDetermineError(e1: SimpleSolutionError, e2: SimpleSolutionError)
    ensures Info(e1) == Info(e2) && Details(e1) == Details(e2) <==> e1 == e2
  {
    if Details(e1) == Details(e2) {
      DetailsRoundTrip(e1);
      DetailsRoundTrip(e2);
    }
  }
}
