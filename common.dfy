/** The records exchanged with the control server: a solution's result snapshot, its
    final details tree, and the problem configuration that names the adapters. */
module Common {
  import opened Base

  /** One test of a job in the final report. */
  datatype Test = Test(name: string, score: real, status: string, summary: string)

  /** One group or subtask of the final report. */
  datatype Job = Job(
    name: string,
    score: real,
    scoreScale: real,
    status: string,
    tests: seq<Test>,
    summary: string)

  /** The final structured report. `jobs` is `None` where the source leaves the slice nil
      (serialised as `null`) and `Some([])` where it builds an empty slice. The adapters
      set a `Version: 1` that the shared record does not declare, hence the option. */
  datatype SolutionDetails = SolutionDetails(version: Option<int>, jobs: Option<seq<Job>>, summary: string)

  /** A full result snapshot; every update replaces the previous one. */
  datatype SolutionInfo = SolutionInfo(
    score: real,
    metrics: Option<map<string, real>>,
    status: string,
    message: string)

  /** The `judge` or `instance` section of a problem configuration: the adapter name
      and the adapter's own configuration, kept as raw JSON text. */
  datatype AdapterSection = AdapterSection(adapter: string, config: string)

  datatype ProblemConfig = ProblemConfig(
    problemLabel: string,
    judge: AdapterSection,
    instanceLabel: Option<string>,
    instance: Option<AdapterSection>,
    variables: map<string, string>)

  /** `{Version: 1, Jobs: [], Summary: ""}`, the details the sandboxed adapters start from. */
  const EmptyDetails := SolutionDetails(Some(1), Some([]), "")
}
