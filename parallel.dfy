/** The parallel dispatcher of judge/parallel.go: a poller claims and prepares tasks and
    puts them on a queue; a judger takes them off the queue in order, runs each, and
    completes it. The channel is a FIFO sequence; the poller's loop runs over a finite
    script of poll results, and a cancellation is observed only while it waits. */
module Parallel {
  import opened Base
  import opened Common
  import opened Client
  import opened Registry
  import opened Judge
  import Storage

  /** The result of one `parallelPoll`: the task to enqueue (if any), whether to poll
      again at once, the error (if any) and the calls it made. */
  datatype PollStep = PollStep(task: Option<RemoteJudgeTask>, cont: bool, err: Option<string>, trace: seq<Sent>)

  /** The task the parallel dispatcher enqueues: unlike the serial one, it carries the
      solution and task ids, so the judger can send calls about it. */
  function QueuedTask(res: PollSolutionResponse, root: string): RemoteJudgeTask {
    RemoteJudgeTask(res.problemConfig, Storage.CacheFile(root, res.problemDataHash),
                    Storage.CacheFile(root, res.solutionDataHash), res.solutionId, res.taskId, map[])
  }

  /** The context of a queued task. */
  function QueuedCtx(t: RemoteJudgeTask): Ctx {
    SolutionTask(t.solutionId, t.taskId)
  }

  /** `parallelPoll` as written. The adapter lookup comes before the server error check;
      an unknown adapter sends one "Error" patch and returns its result as the error, so
      a successful patch leaves the task claimed with no error and no task. `base` is
      the position of the first call in the whole run. */
  function PollSpec(adapters: map<string, JudgeAdapter>, poll: Result<PollSolutionResponse>,
                    root: string, failures: map<nat, string>, base: nat): (s: PollStep)
    ensures !Claimed(poll) ==> s.task.None? && !s.cont && s.trace == []
                               && (s.err.Some? <==> poll.Err?)
    ensures Claimed(poll) ==> s.cont && forall i :: 0 <= i < |s.trace| ==> s.trace[i].ctx == TaskCtx(poll.value)
    ensures s.task.Some? ==>
      Claimed(poll) && s.err.None? && s.task.value == QueuedTask(poll.value, root)
      && poll.value.problemConfig.judge.adapter in adapters && poll.value.errMsg == ""
      && s.trace == [Sent(TaskCtx(poll.value), PatchSolutionTask(Progress("Queued", "Preparing solution"))),
                     Sent(TaskCtx(poll.value), PatchSolutionTask(Progress("Queued", "Waiting for judge")))]
    ensures forall i :: 0 <= i < |s.trace| ==> s.trace[i].call.PatchSolutionTask?
  {
    if poll.Err? then PollStep(None, false, Some(poll.error), [])
    else if poll.value.taskId == "" then PollStep(None, false, None, [])
    else
      var res := poll.value;
      var ctx := TaskCtx(res);
      if res.problemConfig.judge.adapter !in adapters then
        PollStep(None, true, FailureAt(failures, base),
                 [Sent(ctx, PatchSolutionTask(Progress("Error", "Judge adapter not found")))])
      else if res.errMsg != "" then
        PollStep(None, true, Some("server side error occurred: " + res.errMsg), [])
      else
        var p1 := Sent(ctx, PatchSolutionTask(Progress("Queued", "Preparing solution")));
        var p2 := Sent(ctx, PatchSolutionTask(Progress("Queued", "Waiting for judge")));
        if base in failures then PollStep(None, true, Some(failures[base]), [p1])
        else if base + 1 in failures then PollStep(None, true, Some(failures[base + 1]), [p1, p2])
        else PollStep(Some(QueuedTask(res, root)), true, None, [p1, p2])
  }

  /** `parallelPoll`, step by step. */
  method ParallelPoll(reg: JudgeRegistry, poll: Result<PollSolutionResponse>, root: string,
                      failures: map<nat, string>, base: nat)
    returns (step: PollStep)
    requires reg.Valid()
    ensures step == PollSpec(reg.adapters, poll, root, failures, base)
  {
    if poll.Err? {
      return PollStep(None, false, Some(poll.error), []);
    }
    var res := poll.value;
    if res.taskId == "" {
      return PollStep(None, false, None, []);
    }
    var ctx := TaskCtx(res);
    var adapter := reg.GetAdapter(res.problemConfig.judge.adapter);
    if adapter.None? {
      var trace := [Sent(ctx, PatchSolutionTask(Progress("Error", "Judge adapter not found")))];
      return PollStep(None, true, FailureAt(failures, base), trace);
    }
    if res.errMsg != "" {
      return PollStep(None, true, Some("server side error occurred: " + res.errMsg), []);
    }
    var trace := [Sent(ctx, PatchSolutionTask(Progress("Queued", "Preparing solution")))];
    var err := FailureAt(failures, base);
    if err.Some? {
      return PollStep(None, true, err, trace);
    }
    var problemData := Storage.CacheFile(root, res.problemDataHash);
    var solutionData := Storage.CacheFile(root, res.solutionDataHash);
    trace := trace + [Sent(ctx, PatchSolutionTask(Progress("Queued", "Waiting for judge")))];
    err := FailureAt(failures, base + 1);
    if err.Some? {
      return PollStep(None, true, err, trace);
    }
    var task := RemoteJudgeTask(res.problemConfig, problemData, solutionData, res.solutionId, res.taskId, map[]);
    step := PollStep(Some(task), true, None, trace);
  }

  /** The details the poller and the judger save for a failed task: no version. */
  function FailureDetails(err: string): SolutionDetails {
    SolutionDetails(None, Some([]), ErrorSummary(err))
  }

  /** The three calls that settle a failed task: details, an "Error" patch, completion. */
  function Settle(ctx: Ctx, err: string): seq<Sent> {
    [Sent(ctx, SaveSolutionDetails(FailureDetails(err))),
     Sent(ctx, PatchSolutionTask(Progress("Error", "Judge error"))),
     Sent(ctx, CompleteSolutionTask)]
  }

  /** One round of the poller: its calls, what it enqueued, and whether it stopped. */
  datatype Round = Round(events: seq<Sent>, enqueued: seq<RemoteJudgeTask>, stop: bool)

  /** One round of `ParallelPoller` as written: an error is settled under the poller's
      own context, which carries no task; a task is enqueued; when there is nothing more
      to do at once the poller waits and stops if cancelled meanwhile. */
  function PollerRound(adapters: map<string, JudgeAdapter>, poll: Result<PollSolutionResponse>,
                       cancel: bool, root: string, failures: map<nat, string>, base: nat): Round
  {
    var s := PollSpec(adapters, poll, root, failures, base);
    Round(s.trace + (if s.err.Some? then Settle(NoTask, s.err.value) else []),
          if s.task.Some? then [s.task.value] else [],
          !s.cont && cancel)
  }

  /** The poller's calls, queue and closing, from round `i` on. */
  datatype PollerState = PollerState(trace: seq<Sent>, queue: seq<RemoteJudgeTask>, closed: bool)

  function PollerFrom(adapters: map<string, JudgeAdapter>, polls: seq<Result<PollSolutionResponse>>,
                      cancels: seq<bool>, root: string, failures: map<nat, string>,
                      i: nat, trace: seq<Sent>, queue: seq<RemoteJudgeTask>): PollerState
    requires |cancels| == |polls|
    decreases |polls| - i
  {
    if i >= |polls| then PollerState(trace, queue, false)
    else
      var r := PollerRound(adapters, polls[i], cancels[i], root, failures, |trace|);
      if r.stop then PollerState(trace + r.events, queue + r.enqueued, true)
      else PollerFrom(adapters, polls, cancels, root, failures, i + 1, trace + r.events, queue + r.enqueued)
  }

  /** `ParallelPoller` over a script of poll results; `cancels[i]` says whether a stop
      signal is pending when the `i`th wait ends. Only a cancelled wait closes the queue
      and returns; running out of script stands for the loop going on. */
  method ParallelPoller(reg: JudgeRegistry, polls: seq<Result<PollSolutionResponse>>, cancels: seq<bool>,
                        root: string, failures: map<nat, string>)
    returns (trace: seq<Sent>, queue: seq<RemoteJudgeTask>, closed: bool)
    requires reg.Valid() && |cancels| == |polls|
    ensures PollerState(trace, queue, closed) == PollerFrom(reg.adapters, polls, cancels, root, failures, 0, [], [])
  {
    trace, queue, closed := [], [], false;
    var i := 0;
    while i < |polls|
      invariant 0 <= i <= |polls|
      invariant PollerFrom(reg.adapters, polls, cancels, root, failures, i, trace, queue)
             == PollerFrom(reg.adapters, polls, cancels, root, failures, 0, [], [])
    {
      ghost var r := PollerRound(reg.adapters, polls[i], cancels[i], root, failures, |trace|);
      ghost var rest := PollerFrom(reg.adapters, polls, cancels, root, failures, i, trace, queue);
      var step := ParallelPoll(reg, polls[i], root, failures, |trace|);
      var events := step.trace;
      if step.err.Some? {
        events := events + Settle(NoTask, step.err.value);
      }
      var enqueued: seq<RemoteJudgeTask> := if step.task.Some? then [step.task.value] else [];
      assert r == Round(events, enqueued, !step.cont && cancels[i]);
      trace := trace + events;
      queue := queue + enqueued;
      if !step.cont && cancels[i] {
        assert rest == PollerState(trace, queue, true);
        closed := true;
        return;
      }
      assert rest == PollerFrom(reg.adapters, polls, cancels, root, failures, i + 1, trace, queue);
      i := i + 1;
    }
  }

  /** Every task of `q` names a registered adapter and carries a task id. */
  predicate Routable(adapters: map<string, JudgeAdapter>, q: seq<RemoteJudgeTask>) {
    forall k :: 0 <= k < |q| ==> q[k].config.judge.adapter in adapters && q[k].taskId != ""
  }

  /** One round keeps the queue routable. */
  lemma RoundRoutable(adapters: map<string, JudgeAdapter>, poll: Result<PollSolutionResponse>,
                      cancel: bool, root: string, failures: map<nat, string>, base: nat,
                      queue: seq<RemoteJudgeTask>)
    requires Routable(adapters, queue)
    ensures Routable(adapters, queue + PollerRound(adapters, poll, cancel, root, failures, base).enqueued)
  {
    var s := PollSpec(adapters, poll, root, failures, base);
    var q := queue + PollerRound(adapters, poll, cancel, root, failures, base).enqueued;
    if s.task.Some? {
      assert q == queue + [s.task.value];
      assert s.task.value.config.judge.adapter in adapters && s.task.value.taskId != "";
    } else {
      assert q == queue;
    }
  }

  /** Only tasks whose adapter is registered, claimed with a task id, reach the queue. */
  lemma {:induction false} QueuedTasksHaveAdapters(adapters: map<string, JudgeAdapter>,
      polls: seq<Result<PollSolutionResponse>>, cancels: seq<bool>, root: string,
      failures: map<nat, string>, i: nat, trace: seq<Sent>, queue: seq<RemoteJudgeTask>)
    requires |cancels| == |polls|
    requires Routable(adapters, queue)
    ensures Routable(adapters, PollerFrom(adapters, polls, cancels, root, failures, i, trace, queue).queue)
    decreases |polls| - i
  {
    if i < |polls| {
      var r := PollerRound(adapters, polls[i], cancels[i], root, failures, |trace|);
      var q := queue + r.enqueued;
      RoundRoutable(adapters, polls[i], cancels[i], root, failures, |trace|, queue);
      var next := PollerFrom(adapters, polls, cancels, root, failures, i, trace, queue);
      if r.stop {
        assert next.queue == q;
      } else {
        assert next == PollerFrom(adapters, polls, cancels, root, failures, i + 1, trace + r.events, q);
        QueuedTasksHaveAdapters(adapters, polls, cancels, root, failures, i + 1, trace + r.events, q);
      }
    }
  }

  /** The queue is closed only after a round that had nothing more to do and was
      cancelled while waiting. */
  lemma {:induction false} ClosedOnlyOnCancel(adapters: map<string, JudgeAdapter>,
      polls: seq<Result<PollSolutionResponse>>, cancels: seq<bool>, root: string,
      failures: map<nat, string>, i: nat, trace: seq<Sent>, queue: seq<RemoteJudgeTask>)
    requires |cancels| == |polls|
    ensures PollerFrom(adapters, polls, cancels, root, failures, i, trace, queue).closed ==>
      exists k :: i <= k < |polls| && cancels[k] && !Claimed(polls[k])
    decreases |polls| - i
  {
    if i < |polls| {
      var r := PollerRound(adapters, polls[i], cancels[i], root, failures, |trace|);
      if !r.stop {
        ClosedOnlyOnCancel(adapters, polls, cancels, root, failures, i + 1, trace + r.events, queue + r.enqueued);
      }
    }
  }

  // ---------------------------------------------------------------------------------
  // The judger

  /** `parallelJudge`: the adapter's calls under the task's context, or one "Error" patch
      (whose result is the error) when the adapter is unknown; then the error. */
  method ParallelJudge(reg: JudgeRegistry, task: RemoteJudgeTask,
                       run: (JudgeAdapter, RemoteJudgeTask) -> AdapterRun,
                       failures: map<nat, string>, base: nat)
    returns (calls: seq<Sent>, err: Option<string>)
    requires reg.Valid()
    ensures (calls, err) == JudgeSpec(reg.adapters, task, run, failures, base)
  {
    var ctx := QueuedCtx(task);
    var adapter := reg.GetAdapter(task.config.judge.adapter);
    if adapter.None? {
      calls := [Sent(ctx, PatchSolutionTask(Progress("Error", "Judge adapter not found")))];
      err := FailureAt(failures, base);
      return;
    }
    var r := run(adapter.value, task);
    calls := SendAll(ctx, r.calls);
    err := r.err;
  }

  function JudgeSpec(adapters: map<string, JudgeAdapter>, task: RemoteJudgeTask,
                     run: (JudgeAdapter, RemoteJudgeTask) -> AdapterRun,
                     failures: map<nat, string>, base: nat): (r: (seq<Sent>, Option<string>))
    ensures forall i :: 0 <= i < |r.0| ==> r.0[i].ctx == QueuedCtx(task) && !r.0[i].call.CompleteSolutionTask?
    ensures task.config.judge.adapter in adapters ==>
      r.0 == SendAll(QueuedCtx(task), run(adapters[task.config.judge.adapter], task).calls)
      && r.1 == run(adapters[task.config.judge.adapter], task).err
  {
    if task.config.judge.adapter !in adapters then
      ([Sent(QueuedCtx(task), PatchSolutionTask(Progress("Error", "Judge adapter not found")))], FailureAt(failures, base))
    else
      var r := run(adapters[task.config.judge.adapter], task);
      (SendAll(QueuedCtx(task), r.calls), r.err)
  }

  /** All calls about one dequeued task: the judging, the details and "Error" patch
      when it failed, and the completion. */
  function JudgerRound(adapters: map<string, JudgeAdapter>, task: RemoteJudgeTask,
                       run: (JudgeAdapter, RemoteJudgeTask) -> AdapterRun,
                       failures: map<nat, string>, base: nat): seq<Sent>
  {
    var (calls, err) := JudgeSpec(adapters, task, run, failures, base);
    var ctx := QueuedCtx(task);
    calls
    + (if err.Some? then [Sent(ctx, SaveSolutionDetails(FailureDetails(err.value))),
                          Sent(ctx, PatchSolutionTask(Progress("Error", "Judge error")))] else [])
    + [Sent(ctx, CompleteSolutionTask)]
  }

  function JudgerFrom(adapters: map<string, JudgeAdapter>, queue: seq<RemoteJudgeTask>,
                      run: (JudgeAdapter, RemoteJudgeTask) -> AdapterRun,
                      failures: map<nat, string>, i: nat, trace: seq<Sent>): seq<Sent>
    decreases |queue| - i
  {
    if i >= |queue| then trace
    else JudgerFrom(adapters, queue, run, failures, i + 1, trace + JudgerRound(adapters, queue[i], run, failures, |trace|))
  }

  /** `ParallelJudger`: every task taken off the queue, in order, until it is closed and
      empty. */
  method ParallelJudger(reg: JudgeRegistry, queue: seq<RemoteJudgeTask>,
                        run: (JudgeAdapter, RemoteJudgeTask) -> AdapterRun, failures: map<nat, string>)
    returns (trace: seq<Sent>)
    requires reg.Valid()
    ensures trace == JudgerFrom(reg.adapters, queue, run, failures, 0, [])
  {
    trace := [];
    var i := 0;
    while i < |queue|
      invariant 0 <= i <= |queue|
      invariant JudgerFrom(reg.adapters, queue, run, failures, i, trace)
             == JudgerFrom(reg.adapters, queue, run, failures, 0, [])
    {
      var task := queue[i];
      var ctx := QueuedCtx(task);
      var calls, err := ParallelJudge(reg, task, run, failures, |trace|);
      var round := calls;
      if err.Some? {
        round := round + [Sent(ctx, SaveSolutionDetails(FailureDetails(err.value))),
                          Sent(ctx, PatchSolutionTask(Progress("Error", "Judge error")))];
      }
      round := round + [Sent(ctx, CompleteSolutionTask)];
      assert round == JudgerRound(reg.adapters, task, run, failures, |trace|);
      trace := trace + round;
      i := i + 1;
    }
  }

  /** The contexts of the completions in a trace, in order. */
  function Completions(trace: seq<Sent>): seq<Ctx> {
    if |trace| == 0 then []
    else (if trace[0].call.CompleteSolutionTask? then [trace[0].ctx] else []) + Completions(trace[1..])
  }

  lemma {:induction false} CompletionsAppend(a: seq<Sent>, b: seq<Sent>)
    ensures Completions(a + b) == Completions(a) + Completions(b)
  {
    if |a| == 0 {
      assert a + b == b;
    } else {
      var h := if a[0].call.CompleteSolutionTask? then [a[0].ctx] else [];
      assert (a + b)[0] == a[0] && (a + b)[1..] == a[1..] + b;
      assert Completions(a + b) == h + Completions(a[1..] + b);
      CompletionsAppend(a[1..], b);
      assert Completions(a) == h + Completions(a[1..]);
    }
  }

  lemma {:induction false} NoCompletions(s: seq<Sent>)
    requires forall i :: 0 <= i < |s| ==> !s[i].call.CompleteSolutionTask?
    ensures Completions(s) == []
  {
    if |s| > 0 {
      NoCompletions(s[1..]);
    }
  }

  /** Settling a failed task completes it once, under the context it is settled with. */
  lemma SettleCompletesOnce(ctx: Ctx, err: string)
    ensures Completions(Settle(ctx, err)) == [ctx]
  {
    var s := Settle(ctx, err);
    assert Completions(s[2..]) == [ctx] by {
      assert s[2..][1..] == [];
    }
    assert s[1..][1..] == s[2..];
    assert Completions(s[1..]) == [ctx];
  }

  /** One round completes its task exactly once. */
  lemma RoundCompletesOnce(adapters: map<string, JudgeAdapter>, task: RemoteJudgeTask,
                           run: (JudgeAdapter, RemoteJudgeTask) -> AdapterRun,
                           failures: map<nat, string>, base: nat)
    ensures Completions(JudgerRound(adapters, task, run, failures, base)) == [QueuedCtx(task)]
  {
    var (calls, err) := JudgeSpec(adapters, task, run, failures, base);
    var ctx := QueuedCtx(task);
    var mid: seq<Sent> := if err.Some? then [Sent(ctx, SaveSolutionDetails(FailureDetails(err.value))),
                                             Sent(ctx, PatchSolutionTask(Progress("Error", "Judge error")))] else [];
    NoCompletions(calls);
    NoCompletions(mid);
    CompletionsAppend(calls, mid);
    CompletionsAppend(calls + mid, [Sent(ctx, CompleteSolutionTask)]);
  }

  /** The contexts of a run of queued tasks. */
  function QueueCtxs(queue: seq<RemoteJudgeTask>): (r: seq<Ctx>)
    ensures |r| == |queue| && forall k :: 0 <= k < |queue| ==> r[k] == QueuedCtx(queue[k])
  {
    seq(|queue|, k requires 0 <= k < |queue| => QueuedCtx(queue[k]))
  }

  /** The trace after round `i`, which completes exactly the `i`th task. */
  lemma JudgerAfterRound(adapters: map<string, JudgeAdapter>, queue: seq<RemoteJudgeTask>,
                         run: (JudgeAdapter, RemoteJudgeTask) -> AdapterRun,
                         failures: map<nat, string>, i: nat, trace: seq<Sent>)
    returns (next: seq<Sent>)
    requires i < |queue|
    ensures JudgerFrom(adapters, queue, run, failures, i, trace) == JudgerFrom(adapters, queue, run, failures, i + 1, next)
    ensures Completions(next) == Completions(trace) + [QueuedCtx(queue[i])]
  {
    var round := JudgerRound(adapters, queue[i], run, failures, |trace|);
    next := trace + round;
    RoundCompletesOnce(adapters, queue[i], run, failures, |trace|);
    CompletionsAppend(trace, round);
  }

  lemma QueueCtxsStep(queue: seq<RemoteJudgeTask>, i: nat)
    requires i < |queue|
    ensures QueueCtxs(queue[i..]) == [QueuedCtx(queue[i])] + QueueCtxs(queue[i + 1..])
  {
    var a := QueueCtxs(queue[i..]);
    var b := [QueuedCtx(queue[i])] + QueueCtxs(queue[i + 1..]);
    assert |a| == |b|;
    forall k | 0 <= k < |a| ensures a[k] == b[k] {
      if k > 0 {
        assert queue[i..][k] == queue[i + 1..][k - 1];
      }
    }
  }

  lemma ChainStep(total: seq<Ctx>, mid: seq<Ctx>, c: seq<Ctx>, x: Ctx, rest: seq<Ctx>)
    requires mid == c + [x] && total == mid + rest
    ensures total == c + ([x] + rest)
  {
  }

  /** The judger completes every dequeued task exactly once, in queue order, under the
      task's own context. */
  lemma {:induction false} JudgerCompletesEachOnce(adapters: map<string, JudgeAdapter>, queue: seq<RemoteJudgeTask>,
                                                   run: (JudgeAdapter, RemoteJudgeTask) -> AdapterRun,
                                                   failures: map<nat, string>, i: nat, trace: seq<Sent>)
    requires i <= |queue|
    ensures Completions(JudgerFrom(adapters, queue, run, failures, i, trace)) == Completions(trace) + QueueCtxs(queue[i..])
    decreases |queue| - i
  {
    if i == |queue| {
      assert QueueCtxs(queue[i..]) == [];
    } else {
      var next := JudgerAfterRound(adapters, queue, run, failures, i, trace);
      JudgerCompletesEachOnce(adapters, queue, run, failures, i + 1, next);
      QueueCtxsStep(queue, i);
      ChainStep(Completions(JudgerFrom(adapters, queue, run, failures, i + 1, next)), Completions(next),
                Completions(trace), QueuedCtx(queue[i]), QueueCtxs(queue[i + 1..]));
    }
  }

  // ---------------------------------------------------------------------------------
  // A claimed task that is neither enqueued nor completed

  /** As written, a claimed task whose adapter is unknown, once the "Error" patch goes
      through, is neither enqueued nor completed by anyone. */
  lemma UnknownAdapterClaimLost(adapters: map<string, JudgeAdapter>, poll: Result<PollSolutionResponse>,
                                cancel: bool, root: string, failures: map<nat, string>, base: nat)
    requires Claimed(poll) && poll.value.problemConfig.judge.adapter !in adapters && base !in failures
    ensures PollerRound(adapters, poll, cancel, root, failures, base).enqueued == []
    ensures Completions(PollerRound(adapters, poll, cancel, root, failures, base).events) == []
  {
    var r := PollerRound(adapters, poll, cancel, root, failures, base);
    assert r.events == [Sent(TaskCtx(poll.value), PatchSolutionTask(Progress("Error", "Judge adapter not found")))];
  }

  /** As written, a claim that fails after the claim (a server error, a failed patch)
      is completed under the poller's context, which names no task. */
  lemma FailedClaimCompletedWithoutTask(adapters: map<string, JudgeAdapter>, poll: Result<PollSolutionResponse>,
                                        cancel: bool, root: string, failures: map<nat, string>, base: nat)
    requires Claimed(poll) && poll.value.problemConfig.judge.adapter in adapters && poll.value.errMsg != ""
    ensures Completions(PollerRound(adapters, poll, cancel, root, failures, base).events) == [NoTask]
  {
    var s := PollSpec(adapters, poll, root, failures, base);
    assert s.trace == [];
    SettleCompletesOnce(NoTask, s.err.value);
    assert PollerRound(adapters, poll, cancel, root, failures, base).events == [] + Settle(NoTask, s.err.value);
    assert [] + Settle(NoTask, s.err.value) == Settle(NoTask, s.err.value);
  }

  /** The corrected `parallelPoll`: an unknown adapter is an error whatever the patch
      returned, and every error travels with the context of the task it is about. */
  function PollSpecFixed(adapters: map<string, JudgeAdapter>, poll: Result<PollSolutionResponse>,
                         root: string, failures: map<nat, string>, base: nat): (r: (PollStep, Ctx))
  {
    var s := PollSpec(adapters, poll, root, failures, base);
    if Claimed(poll) && poll.value.problemConfig.judge.adapter !in adapters then
      (s.(err := Some("judge adapter not found")), TaskCtx(poll.value))
    else if Claimed(poll) then (s, TaskCtx(poll.value))
    else (s, NoTask)
  }

  /** One corrected round: errors are settled under the task's own context. */
  function PollerRoundFixed(adapters: map<string, JudgeAdapter>, poll: Result<PollSolutionResponse>,
                            cancel: bool, root: string, failures: map<nat, string>, base: nat): Round
  {
    var (s, ctx) := PollSpecFixed(adapters, poll, root, failures, base);
    Round(s.trace + (if s.err.Some? && Claimed(poll) then Settle(ctx, s.err.value) else []),
          if s.task.Some? then [s.task.value] else [],
          !s.cont && cancel)
  }

  /** With the correction, every claimed task is settled exactly once: either it is
      enqueued (and the judger completes it) or the poller completes it under its own
      context; a round that claimed nothing sends nothing. */
  lemma EachClaimSettledOnce(adapters: map<string, JudgeAdapter>, poll: Result<PollSolutionResponse>,
                             cancel: bool, root: string, failures: map<nat, string>, base: nat)
    ensures var r := PollerRoundFixed(adapters, poll, cancel, root, failures, base);
            !Claimed(poll) ==> r.events == [] && r.enqueued == []
    ensures var r := PollerRoundFixed(adapters, poll, cancel, root, failures, base);
            Claimed(poll) ==>
              (|r.enqueued| == 1 && QueuedCtx(r.enqueued[0]) == TaskCtx(poll.value) && Completions(r.events) == [])
              || (r.enqueued == [] && Completions(r.events) == [TaskCtx(poll.value)])
  {
    var (s, ctx) := PollSpecFixed(adapters, poll, root, failures, base);
    var r := PollerRoundFixed(adapters, poll, cancel, root, failures, base);
    NoCompletions(s.trace);
    if Claimed(poll) && s.err.Some? {
      SettleCompletesOnce(ctx, s.err.value);
      CompletionsAppend(s.trace, Settle(ctx, s.err.value));
    } else {
      assert r.events == s.trace;
    }
  }
}
