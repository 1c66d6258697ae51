/** The serial dispatcher of judge/judge.go: claim one solution task, prepare its two
    archives, run the adapter the problem names, shape any error into a report, and
    complete the task. The adapters themselves are an oracle `run` from the adapter and
    the task it is handed to the calls it makes and the error it returns. */
module Judge {
  import opened Base
  import opened Common
  import opened Client
  import opened Registry
  import Storage

  /** The details saved for a task whose judging failed with `err`. */
  function ErrorSummary(err: string): string {
    "An Error has occurred:\n\n```\n" + err + "\n```"
  }

  /** The context every call about a claimed task carries. */
  function TaskCtx(res: PollSolutionResponse): Ctx {
    SolutionTask(res.solutionId, res.taskId)
  }

  /** A poll that claimed a task: it succeeded and named one. */
  predicate Claimed(poll: Result<PollSolutionResponse>) {
    poll.Ok? && poll.value.taskId != ""
  }

  /** The task the serial dispatcher hands to the adapter: the problem configuration
      and the two cache paths, with no solution or task id and no environment. */
  function SerialTask(res: PollSolutionResponse, root: string): RemoteJudgeTask {
    RemoteJudgeTask(res.problemConfig, Storage.CacheFile(root, res.problemDataHash),
                    Storage.CacheFile(root, res.solutionDataHash), "", "", map[])
  }

  /** What `judge` leaves behind: the calls it made and the error it returned. */
  datatype Judged = Judged(trace: seq<Sent>, err: Option<string>)

  /** `judge`: two "Running" patches around the preparation of the archives, then the
      adapter. A failing patch ends it with that patch's error. An unknown adapter sends
      an "Error" patch and ends with that patch's result; the adapter never runs. The
      archives come from the cache, whose preparation never fails. */
  function Judging(adapters: map<string, JudgeAdapter>, ctx: Ctx, res: PollSolutionResponse, root: string,
                   run: (JudgeAdapter, RemoteJudgeTask) -> AdapterRun, failures: map<nat, string>): (r: Judged)
    ensures |r.trace| >= 1 && r.trace[0] == Sent(ctx, PatchSolutionTask(Progress("Running", "Preparing solution")))
    ensures 0 in failures ==> |r.trace| == 1 && r.err == Some(failures[0])
    ensures 0 !in failures ==>
      |r.trace| >= 2 && r.trace[1] == Sent(ctx, PatchSolutionTask(Progress("Running", "Judging")))
    ensures 0 !in failures && 1 in failures ==> |r.trace| == 2 && r.err == Some(failures[1])
    ensures 0 !in failures && 1 !in failures && res.problemConfig.judge.adapter !in adapters ==>
      |r.trace| == 3 && r.trace[2] == Sent(ctx, PatchSolutionTask(Progress("Error", "Judge adapter not found")))
      && r.err == FailureAt(failures, 2)
    ensures 0 !in failures && 1 !in failures && res.problemConfig.judge.adapter in adapters ==>
      var a := run(adapters[res.problemConfig.judge.adapter], SerialTask(res, root));
      r.trace[2..] == SendAll(ctx, a.calls) && r.err == a.err
    ensures forall i :: 0 <= i < |r.trace| ==> r.trace[i].ctx == ctx && !r.trace[i].call.CompleteSolutionTask?
  {
    var prepared := [Sent(ctx, PatchSolutionTask(Progress("Running", "Preparing solution")))];
    if 0 in failures then Judged(prepared, Some(failures[0]))
    else
      var judging := prepared + [Sent(ctx, PatchSolutionTask(Progress("Running", "Judging")))];
      if 1 in failures then Judged(judging, Some(failures[1]))
      else if res.problemConfig.judge.adapter !in adapters then
        Judged(judging + [Sent(ctx, PatchSolutionTask(Progress("Error", "Judge adapter not found")))],
               FailureAt(failures, 2))
      else
        var a := run(adapters[res.problemConfig.judge.adapter], SerialTask(res, root));
        Judged(judging + SendAll(ctx, a.calls), a.err)
  }

  /** `judge` as the dispatcher runs it, step by step. */
  method JudgeSolution(reg: JudgeRegistry, ctx: Ctx, res: PollSolutionResponse, root: string,
                       run: (JudgeAdapter, RemoteJudgeTask) -> AdapterRun, failures: map<nat, string>)
    returns (trace: seq<Sent>, err: Option<string>)
    requires reg.Valid()
    ensures Judged(trace, err) == Judging(reg.adapters, ctx, res, root, run, failures)
  {
    trace := [Sent(ctx, PatchSolutionTask(Progress("Running", "Preparing solution")))];
    err := FailureAt(failures, 0);
    if err.Some? {
      return;
    }
    var problemData := Storage.CacheFile(root, res.problemDataHash);
    var solutionData := Storage.CacheFile(root, res.solutionDataHash);
    trace := trace + [Sent(ctx, PatchSolutionTask(Progress("Running", "Judging")))];
    err := FailureAt(failures, 1);
    if err.Some? {
      return;
    }
    var adapter := reg.GetAdapter(res.problemConfig.judge.adapter);
    if adapter.None? {
      trace := trace + [Sent(ctx, PatchSolutionTask(Progress("Error", "Judge adapter not found")))];
      err := FailureAt(failures, 2);
      return;
    }
    var task := RemoteJudgeTask(res.problemConfig, problemData, solutionData, "", "", map[]);
    var r := run(adapter.value, task);
    trace := trace + SendAll(ctx, r.calls);
    err := r.err;
  }

  /** The report `Poll` files for a judging that failed with `err`: the error summary
      under details version 1, then an "Error" patch. Nothing when it succeeded. */
  function ErrorReport(ctx: Ctx, err: Option<string>): seq<Sent> {
    if err.Some? then
      [Sent(ctx, SaveSolutionDetails(SolutionDetails(Some(1), Some([]), ErrorSummary(err.value)))),
       Sent(ctx, PatchSolutionTask(Progress("Error", "Judge error")))]
    else []
  }

  /** `Poll`: one claim. A transport error or an empty task id makes no call. A claimed
      task gets calls under its own context only and exactly one completion, last, and
      the poll reports that work was done. */
  method Poll(reg: JudgeRegistry, poll: Result<PollSolutionResponse>, root: string,
              run: (JudgeAdapter, RemoteJudgeTask) -> AdapterRun, failures: map<nat, string>)
    returns (trace: seq<Sent>, cont: bool, err: Option<string>, judgeErr: Option<string>)
    requires reg.Valid()
    ensures poll.Err? ==> trace == [] && !cont && err == Some(poll.error)
    ensures poll.Ok? && poll.value.taskId == "" ==> trace == [] && !cont && err.None?
    ensures Claimed(poll) ==>
      cont && err.None? && |trace| >= 2
      && (forall i :: 0 <= i < |trace| ==> trace[i].ctx == TaskCtx(poll.value))
      && trace[|trace| - 1].call.CompleteSolutionTask?
      && (forall i :: 0 <= i < |trace| - 1 ==> !trace[i].call.CompleteSolutionTask?)
    ensures Claimed(poll) && poll.value.errMsg != "" ==>
      judgeErr.None? && trace == [Sent(TaskCtx(poll.value), PatchSolutionTask(Progress("Error", "Server side error occurred"))),
                                  Sent(TaskCtx(poll.value), CompleteSolutionTask)]
    ensures Claimed(poll) && poll.value.errMsg == "" ==>
      trace[0] == Sent(TaskCtx(poll.value), PatchSolutionTask(Progress("Running", "Preparing solution")))
    ensures Claimed(poll) && poll.value.errMsg == "" && judgeErr.Some? ==>
      |trace| >= 4
      && trace[|trace| - 3] == Sent(TaskCtx(poll.value), SaveSolutionDetails(
           SolutionDetails(Some(1), Some([]), ErrorSummary(judgeErr.value))))
      && trace[|trace| - 2] == Sent(TaskCtx(poll.value), PatchSolutionTask(Progress("Error", "Judge error")))
    ensures Claimed(poll) && poll.value.errMsg == "" ==>
      var j := Judging(reg.adapters, TaskCtx(poll.value), poll.value, root, run, failures);
      judgeErr == j.err
      && trace == j.trace + ErrorReport(TaskCtx(poll.value), j.err) + [Sent(TaskCtx(poll.value), CompleteSolutionTask)]
  {
    trace, judgeErr := [], None;
    if poll.Err? {
      return [], false, Some(poll.error), None;
    }
    var res := poll.value;
    if res.taskId == "" {
      return [], false, None, None;
    }
    var ctx := TaskCtx(res);
    if res.errMsg != "" {
      trace := [Sent(ctx, PatchSolutionTask(Progress("Error", "Server side error occurred"))),
                Sent(ctx, CompleteSolutionTask)];
      return trace, true, None, None;
    }
    trace, judgeErr := JudgeSolution(reg, ctx, res, root, run, failures);
    trace := trace + ErrorReport(ctx, judgeErr) + [Sent(ctx, CompleteSolutionTask)];
    cont, err := true, None;
  }
}
