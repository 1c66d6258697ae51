/** The instance dispatcher of instancer/instancer.go: claim one instance task, and
    start or destroy the instance through the adapter its problem names. Progress is one
    message that only ever grows: each finished step appends a tick and is sent as a
    patch, a failed step appends a cross with the error and completes the task as failed.
    The adapters are an oracle `run` from the adapter and the task to the calls the
    adapter makes through the task and the error it returns. */
module Instancer {
  import opened Base
  import opened Common
  import opened Client
  import opened Registry

  /** What running an instance adapter amounts to. */
  datatype InstanceRun = InstanceRun(calls: seq<InstanceCall>, err: Option<string>)

  /** A call about an instance task, with the instance and task ids it is sent for. */
  datatype InstanceSent = InstanceSent(instanceId: string, taskId: string, call: InstanceCall)

  /** Appended when a step succeeds. */
  const Tick := " ✅\n"

  /** Appended when a step fails with `err`. */
  function Cross(err: string): string {
    " ❌\n\nError:\n\n```" + err + "```\n"
  }

  /** The problem names both an instance label and an instance section. */
  predicate Configured(c: ProblemConfig) {
    c.instanceLabel.Some? && c.instance.Some?
  }

  /** What one start or destroy sent: the instancer's own patches (each the whole message
      so far), the adapter's calls, and the completion that ends it. */
  datatype Log = Log(patches: seq<string>, adapterCalls: seq<InstanceCall>, succeeded: bool, final: string)

  /** One patch per message. */
  function Patches(messages: seq<string>): (r: seq<InstanceCall>)
    ensures |r| == |messages| && forall i :: 0 <= i < |messages| ==> r[i] == PatchInstanceTask(messages[i])
  {
    seq(|messages|, i requires 0 <= i < |messages| => PatchInstanceTask(messages[i]))
  }

  /** The calls of a log, in the order they are sent. */
  function Calls(log: Log): (r: seq<InstanceCall>)
    ensures |r| == |log.patches| + |log.adapterCalls| + 1
    ensures r[|r| - 1] == CompleteTask(log.succeeded, log.final)
  {
    Patches(log.patches) + log.adapterCalls + [CompleteTask(log.succeeded, log.final)]
  }

  /** Every message the instancer sends extends the one it sent before. */
  predicate AppendOnly(log: Log) {
    (forall i :: 0 <= i < |log.patches| ==> HasPrefix(log.final, log.patches[i]))
    && (forall i, j :: 0 <= i <= j < |log.patches| ==> HasPrefix(log.patches[j], log.patches[i]))
  }

  /** The adapter section's lookup, with the error the instancer reports when it fails. */
  function Lookup(adapters: map<string, InstanceAdapter>, c: ProblemConfig): (r: Result<InstanceAdapter>)
    ensures r.Ok? <==> Configured(c) && c.instanceLabel.value in adapters
    ensures r.Ok? ==> r.value == adapters[c.instanceLabel.value]
  {
    if !Configured(c) then Err("instance not configured")
    else if c.instanceLabel.value !in adapters then Err("adapter not found for label: " + c.instanceLabel.value)
    else Ok(adapters[c.instanceLabel.value])
  }

  /** A message log in which each patch extends the one before and the final message
      extends the last patch sends only ever-growing messages. */
  lemma {:induction false} ChainAppendOnly(log: Log)
    requires forall i :: 0 < i < |log.patches| ==> HasPrefix(log.patches[i], log.patches[i - 1])
    requires |log.patches| > 0 ==> HasPrefix(log.final, log.patches[|log.patches| - 1])
    ensures AppendOnly(log)
    decreases |log.patches|
  {
    if |log.patches| > 0 {
      var n := |log.patches|;
      var shorter := log.(patches := log.patches[..n - 1], final := log.patches[n - 1]);
      ChainAppendOnly(shorter);
      forall i | 0 <= i < n ensures HasPrefix(log.final, log.patches[i]) {
        if i < n - 1 {
          PrefixTransitive(log.final, log.patches[n - 1], log.patches[i]);
        }
      }
      forall i, j | 0 <= i <= j < n ensures HasPrefix(log.patches[j], log.patches[i]) {
        if j == n - 1 && i < j {
          PrefixTransitive(log.patches[j], log.patches[n - 2], log.patches[i]);
        } else if j < n - 1 {
          assert HasPrefix(shorter.patches[j], shorter.patches[i]);
        }
      }
    }
  }

  lemma PrefixTransitive(a: string, b: string, c: string)
    requires HasPrefix(a, b) && HasPrefix(b, c)
    ensures HasPrefix(a, c)
  {
    assert a[..|c|] == a[..|b|][..|c|];
  }

  lemma PrefixOfAppend(s: string, t: string)
    ensures HasPrefix(s + t, s)
  {
    assert (s + t)[..|s|] == s;
  }

  /** The three messages of a start grow one from the other. */
  lemma GrowingMessages(m0: string, a: string, b: string)
    ensures HasPrefix(m0 + a + Tick, m0)
    ensures HasPrefix(m0 + a + Tick + b + Tick, m0 + a + Tick)
  {
    PrefixOfAppend(m0, a + Tick);
    assert m0 + a + Tick == m0 + (a + Tick);
    PrefixOfAppend(m0 + a + Tick, b + Tick);
    assert m0 + a + Tick + b + Tick == (m0 + a + Tick) + (b + Tick);
  }

  /** The log that ends a run: `final` is the last message, `current`, followed by
      `tail`; every patch extends the one before it and `current` extends the last. */
  function Settled(patches: seq<string>, current: string, tail: string,
                   adapterCalls: seq<InstanceCall>, succeeded: bool): (log: Log)
    requires |patches| > 0 && HasPrefix(current, patches[|patches| - 1])
    requires forall i :: 0 < i < |patches| ==> HasPrefix(patches[i], patches[i - 1])
    ensures AppendOnly(log)
    ensures log == Log(patches, adapterCalls, succeeded, current + tail)
  {
    PrefixOfAppend(current, tail);
    PrefixTransitive(current + tail, current, patches[|patches| - 1]);
    var log := Log(patches, adapterCalls, succeeded, current + tail);
    ChainAppendOnly(log);
    log
  }

  /** `startInstance`: prepare the problem data, find the adapter, run it. The task
      completes as succeeded exactly when every step and the adapter succeeded; a
      failure's error is the tail of the final message. */
  function StartLog(adapters: map<string, InstanceAdapter>, res: PollInstanceResponse, prepared: Result<string>,
                    run: (InstanceAdapter, RemoteInstanceTask) -> InstanceRun): (log: Log)
    ensures AppendOnly(log)
    ensures |log.patches| >= 1 && log.patches[0] == "Starting instance\n"
    ensures log.succeeded <==>
      prepared.Ok? && Lookup(adapters, res.problemConfig).Ok?
      && run(Lookup(adapters, res.problemConfig).value,
             RemoteInstanceTask(TaskTypeStart, res.problemConfig, prepared.value, res.instanceId)).err.None?
    ensures log.succeeded ==> HasSuffix(log.final, "✅\nInstance started successfully\n")
    ensures prepared.Err? ==> HasSuffix(log.final, Cross(prepared.error)) && log.adapterCalls == []
    ensures prepared.Ok? && Lookup(adapters, res.problemConfig).Err? ==>
      HasSuffix(log.final, Cross(Lookup(adapters, res.problemConfig).error)) && log.adapterCalls == []
  {
    var m0 := "Starting instance\n";
    var m1 := m0 + "- Prepare problem data";
    var m2 := m1 + Tick;
    var m3 := m2 + "- Prepare adapter";
    var m4 := m3 + Tick;
    GrowingMessages(m0, "- Prepare problem data", "- Prepare adapter");
    if prepared.Err? then Settled([m0], m1, Cross(prepared.error), [], false)
    else
      var adapter := Lookup(adapters, res.problemConfig);
      if adapter.Err? then Settled([m0, m2], m3, Cross(adapter.error), [], false)
      else
        var r := run(adapter.value, RemoteInstanceTask(TaskTypeStart, res.problemConfig, prepared.value, res.instanceId));
        if r.err.Some? then Settled([m0, m2, m4], m4, Cross(r.err.value), r.calls, false)
        else Settled([m0, m2, m4], m4, "✅\nInstance started successfully\n", r.calls, true)
  }

  /** `destroyInstance`: as `startInstance` without the problem data, which the adapter
      is handed as "". */
  function DestroyLog(adapters: map<string, InstanceAdapter>, res: PollInstanceResponse,
                      run: (InstanceAdapter, RemoteInstanceTask) -> InstanceRun): (log: Log)
    ensures AppendOnly(log)
    ensures |log.patches| >= 1 && log.patches[0] == "Destroying instance\n"
    ensures log.succeeded <==>
      Lookup(adapters, res.problemConfig).Ok?
      && run(Lookup(adapters, res.problemConfig).value,
             RemoteInstanceTask(TaskTypeDestroy, res.problemConfig, "", res.instanceId)).err.None?
    ensures log.succeeded ==> HasSuffix(log.final, "✅\nInstance destroyed successfully\n")
    ensures Lookup(adapters, res.problemConfig).Err? ==>
      HasSuffix(log.final, Cross(Lookup(adapters, res.problemConfig).error)) && log.adapterCalls == []
  {
    var m0 := "Destroying instance\n";
    var m1 := m0 + "- Prepare adapter";
    var m2 := m1 + Tick;
    PrefixOfAppend(m0, "- Prepare adapter" + Tick);
    assert m2 == m0 + ("- Prepare adapter" + Tick);
    var adapter := Lookup(adapters, res.problemConfig);
    if adapter.Err? then Settled([m0], m1, Cross(adapter.error), [], false)
    else
      var r := run(adapter.value, RemoteInstanceTask(TaskTypeDestroy, res.problemConfig, "", res.instanceId));
      if r.err.Some? then Settled([m0, m2], m2, Cross(r.err.value), r.calls, false)
      else Settled([m0, m2], m2, "✅\nInstance destroyed successfully\n", r.calls, true)
  }

  /** `startInstance`, step by step. `prepared` is what preparing the problem data
      returned; the cache's `PrepareFile` never fails, but the instancer handles it. */
  method StartInstance(reg: InstanceRegistry, res: PollInstanceResponse, prepared: Result<string>,
                       run: (InstanceAdapter, RemoteInstanceTask) -> InstanceRun)
    returns (calls: seq<InstanceCall>)
    requires reg.Valid()
    ensures calls == Calls(StartLog(reg.adapters, res, prepared, run))
  {
    var message := "Starting instance\n";
    calls := [PatchInstanceTask(message)];
    message := message + "- Prepare problem data";
    if prepared.Err? {
      message := message + Cross(prepared.error);
      calls := calls + [CompleteTask(false, message)];
      return;
    }
    message := message + Tick;
    calls := calls + [PatchInstanceTask(message)];
    message := message + "- Prepare adapter";
    var c := res.problemConfig;
    if c.instanceLabel.None? || c.instance.None? {
      message := message + Cross("instance not configured");
      calls := calls + [CompleteTask(false, message)];
      return;
    }
    var adapter := reg.GetAdapter(c.instanceLabel.value);
    if adapter.None? {
      message := message + Cross("adapter not found for label: " + c.instanceLabel.value);
      calls := calls + [CompleteTask(false, message)];
      return;
    }
    message := message + Tick;
    calls := calls + [PatchInstanceTask(message)];
    var r := run(adapter.value, RemoteInstanceTask(TaskTypeStart, c, prepared.value, res.instanceId));
    calls := calls + r.calls;
    if r.err.Some? {
      message := message + Cross(r.err.value);
      calls := calls + [CompleteTask(false, message)];
      return;
    }
    calls := calls + [CompleteTask(true, message + "✅\nInstance started successfully\n")];
  }

  /** `destroyInstance`, step by step. */
  method DestroyInstance(reg: InstanceRegistry, res: PollInstanceResponse,
                         run: (InstanceAdapter, RemoteInstanceTask) -> InstanceRun)
    returns (calls: seq<InstanceCall>)
    requires reg.Valid()
    ensures calls == Calls(DestroyLog(reg.adapters, res, run))
  {
    var message := "Destroying instance\n";
    calls := [PatchInstanceTask(message)];
    message := message + "- Prepare adapter";
    var c := res.problemConfig;
    if c.instanceLabel.None? || c.instance.None? {
      message := message + Cross("instance not configured");
      calls := calls + [CompleteTask(false, message)];
      return;
    }
    var adapter := reg.GetAdapter(c.instanceLabel.value);
    if adapter.None? {
      message := message + Cross("adapter not found for label: " + c.instanceLabel.value);
      calls := calls + [CompleteTask(false, message)];
      return;
    }
    message := message + Tick;
    calls := calls + [PatchInstanceTask(message)];
    var r := run(adapter.value, RemoteInstanceTask(TaskTypeDestroy, c, "", res.instanceId));
    calls := calls + r.calls;
    if r.err.Some? {
      message := message + Cross(r.err.value);
      calls := calls + [CompleteTask(false, message)];
      return;
    }
    calls := calls + [CompleteTask(true, message + "✅\nInstance destroyed successfully\n")];
  }

  /** The message a task in any other state is completed with. */
  function UnexpectedState(state: int): string {
    "Task error:\n```unexpected instance state: " + IntToString(state) + "```"
  }

  /** Every call sent under the ids of one task. */
  function Under(res: PollInstanceResponse, calls: seq<InstanceCall>): (r: seq<InstanceSent>)
    ensures |r| == |calls|
    ensures forall i :: 0 <= i < |calls| ==> r[i] == InstanceSent(res.instanceId, res.taskId, calls[i])
  {
    seq(|calls|, i requires 0 <= i < |calls| => InstanceSent(res.instanceId, res.taskId, calls[i]))
  }

  /** `Poll`: one round of the instance dispatcher. A failed poll is returned; no task
      means no work; a claimed task with a server error is completed as failed; otherwise
      the instance state decides: allocating starts, destroying destroys, anything else
      is completed as failed. Every claimed task ends with a completion, sent under its
      own ids, and the caller is told to poll again at once. */
  method Poll(reg: InstanceRegistry, poll: Result<PollInstanceResponse>, prepared: Result<string>,
              run: (InstanceAdapter, RemoteInstanceTask) -> InstanceRun)
    returns (trace: seq<InstanceSent>, cont: bool, err: Option<string>)
    requires reg.Valid()
    ensures poll.Err? ==> trace == [] && !cont && err == Some(poll.error)
    ensures poll.Ok? && poll.value.taskId == "" ==> trace == [] && !cont && err.None?
    ensures poll.Ok? && poll.value.taskId != "" ==>
      cont && err.None? && |trace| >= 1
      && (forall i :: 0 <= i < |trace| ==>
            trace[i].instanceId == poll.value.instanceId && trace[i].taskId == poll.value.taskId)
      && trace[|trace| - 1].call.CompleteTask?
    ensures poll.Ok? && poll.value.taskId != "" && poll.value.errMsg != "" ==>
      trace == Under(poll.value, [CompleteTask(false, "Server side error occurred")])
    ensures poll.Ok? && poll.value.taskId != "" && poll.value.errMsg == "" ==>
      (poll.value.state == InstanceStateAllocating ==>
         trace == Under(poll.value, Calls(StartLog(reg.adapters, poll.value, prepared, run))))
      && (poll.value.state == InstanceStateDestroying ==>
         trace == Under(poll.value, Calls(DestroyLog(reg.adapters, poll.value, run))))
      && (poll.value.state != InstanceStateAllocating && poll.value.state != InstanceStateDestroying ==>
         trace == Under(poll.value, [CompleteTask(false, UnexpectedState(poll.value.state))]))
  {
    if poll.Err? {
      return [], false, Some(poll.error);
    }
    var res := poll.value;
    if res.taskId == "" {
      return [], false, None;
    }
    if res.errMsg != "" {
      return Under(res, [CompleteTask(false, "Server side error occurred")]), true, None;
    }
    var calls: seq<InstanceCall>;
    if res.state == InstanceStateAllocating {
      calls := StartInstance(reg, res, prepared, run);
    } else if res.state == InstanceStateDestroying {
      calls := DestroyInstance(reg, res, run);
    } else {
      calls := [CompleteTask(false, UnexpectedState(res.state))];
    }
    return Under(res, calls), true, None;
  }

  /** The number of completions among some calls. */
  function CountCompletes(calls: seq<InstanceCall>): nat {
    if |calls| == 0 then 0
    else (if calls[0].CompleteTask? then 1 else 0) + CountCompletes(calls[1..])
  }

  lemma {:induction false} CountCompletesAppend(a: seq<InstanceCall>, b: seq<InstanceCall>)
    ensures CountCompletes(a + b) == CountCompletes(a) + CountCompletes(b)
  {
    if |a| == 0 {
      assert a + b == b;
    } else {
      assert (a + b)[1..] == a[1..] + b;
      CountCompletesAppend(a[1..], b);
    }
  }

  lemma {:induction false} NoPatchCompletes(messages: seq<string>)
    ensures CountCompletes(Patches(messages)) == 0
  {
    if |messages| > 0 {
      assert Patches(messages)[1..] == Patches(messages[1..]);
      NoPatchCompletes(messages[1..]);
    }
  }

  /** The completions a log sends: its own, and whatever the adapter sent. */
  lemma LogCompletions(log: Log)
    ensures CountCompletes(Calls(log)) == CountCompletes(log.adapterCalls) + 1
  {
    var p := Patches(log.patches);
    NoPatchCompletes(log.patches);
    CountCompletesAppend(p, log.adapterCalls);
    CountCompletesAppend(p + log.adapterCalls, [CompleteTask(log.succeeded, log.final)]);
    assert [CompleteTask(log.succeeded, log.final)][1..] == [];
  }
}
