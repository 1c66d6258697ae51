/** The control server's RPC surface, seen as the calls the runner makes. The transport
    is not modelled: a call is an event in a trace, and whether it returns an error is
    decided by the caller's oracle. */
module Client {
  import opened Base
  import opened Common

  /** The task identity a call carries in its context (`client.WithSolutionTask`);
      `NoTask` is a context that never had one attached. */
  datatype Ctx = NoTask | SolutionTask(solutionId: string, taskId: string)

  /** Calls about a judge task. */
  datatype SolutionCall =
    | PatchSolutionTask(info: SolutionInfo)
    | SaveSolutionDetails(details: SolutionDetails)
    | CompleteSolutionTask

  /** A solution-task call as sent, with the context it was sent under. */
  datatype Sent = Sent(ctx: Ctx, call: SolutionCall)

  /** Whether the call at position `i` of a run's trace returns an error, and its text:
      the transport is an oracle that fails exactly at the positions in `failures`. */
  function FailureAt(failures: map<nat, string>, i: nat): Option<string> {
    if i in failures then Some(failures[i]) else None
  }

  /** A score-0 snapshot with the given status and message, as the dispatcher sends. */
  function Progress(status: string, message: string): SolutionInfo {
    SolutionInfo(0.0, None, status, message)
  }

  /** Calls about an instance task. */
  datatype InstanceCall =
    | PatchInstanceTask(message: string)
    | CompleteTask(succeeded: bool, message: string)

  /** What `PollSolution` returns; an empty `taskId` means there is no work. */
  datatype PollSolutionResponse = PollSolutionResponse(
    taskId: string,
    solutionId: string,
    problemConfig: ProblemConfig,
    problemDataUrl: string,
    problemDataHash: string,
    solutionDataUrl: string,
    solutionDataHash: string,
    errMsg: string)

  /** What `PollInstance` returns; `state` is one of the instance states below. */
  datatype PollInstanceResponse = PollInstanceResponse(
    taskId: string,
    instanceId: string,
    state: int,
    problemConfig: ProblemConfig,
    problemDataUrl: string,
    problemDataHash: string,
    errMsg: string)

  const InstanceStateDestroyed := 0
  const InstanceStateDestroying := 1
  const InstanceStateAllocated := 2
  const InstanceStateAllocating := 3
  const InstanceStateError := 4
}
