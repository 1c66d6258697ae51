/** The Docker instance adapter of adapters/instancers/docker: a start runs a fixed
    sequence of steps and a destroy another, each keeping one message that only grows.
    A finished step appends a tick and patches the whole message; the first failed step
    appends a cross with its error, completes the task as failed, and ends the run.
    The adapter completes the task itself and always returns no error. What each step
    does (unpacking, loading and writing the compose project, running `docker compose`,
    removing directories) is an oracle: only whether it failed, and with what error. */
module Docker {
  import opened Base
  import opened Common
  import opened Client
  import opened Registry
  import opened Instancer

  /** The adapter's configuration; the daemon's defaults are 30 seconds,
      ".inst.localhost" and "caddy". */
  datatype DockerConfig = DockerConfig(startTimeout: int, domainSuffix: string, networkName: string)

  const DefaultConfig := DockerConfig(30, ".inst.localhost", "caddy")

  /** `getProjectNameForTask`. */
  function ProjectName(instanceId: string, config: DockerConfig): string {
    "inst-" + instanceId
  }

  /** `getProjectDomainForTask`. */
  function ProjectDomain(instanceId: string, config: DockerConfig): string {
    instanceId + config.domainSuffix
  }

  /** Distinct instances get distinct projects, whatever the configuration. */
  lemma ProjectNameInjective(a: string, b: string, c1: DockerConfig, c2: DockerConfig)
    ensures ProjectName(a, c1) == ProjectName(b, c2) <==> a == b
  {
    if ProjectName(a, c1) == ProjectName(b, c2) {
      assert a == ProjectName(a, c1)[5..] && b == ProjectName(b, c2)[5..];
    }
  }

  /** The domain depends on the configuration only through its suffix, and under one
      suffix distinct instances get distinct domains. */
  lemma ProjectDomainInjective(a: string, b: string, c1: DockerConfig, c2: DockerConfig)
    requires c1.domainSuffix == c2.domainSuffix
    ensures ProjectDomain(a, c1) == ProjectDomain(b, c2) <==> a == b
  {
    if ProjectDomain(a, c1) == ProjectDomain(b, c2) {
      assert |a| == |b|;
      assert a == ProjectDomain(a, c1)[..|a|] && b == ProjectDomain(b, c2)[..|b|];
    }
  }

  /** One named step and the error it failed with, if any. */
  datatype Step = Step(name: string, err: Option<string>)

  /** What a run of steps sent, the message it ended with, and whether a step failed. */
  datatype Ran = Ran(calls: seq<InstanceCall>, message: string, failed: bool)

  /** The steps from `message` on: each appends its name, then a tick and a patch, or
      a cross with its error and a failed completion that ends the run. */
  function Steps(message: string, steps: seq<Step>): Ran
    decreases |steps|
  {
    if |steps| == 0 then Ran([], message, false)
    else
      var m := message + steps[0].name;
      if steps[0].err.Some? then Ran([CompleteTask(false, m + Cross(steps[0].err.value))], m + Cross(steps[0].err.value), true)
      else
        var rest := Steps(m + Tick, steps[1..]);
        Ran([PatchInstanceTask(m + Tick)] + rest.calls, rest.message, rest.failed)
  }

  /** The message a call carries. */
  function Message(c: InstanceCall): string {
    match c
    case PatchInstanceTask(m) => m
    case CompleteTask(_, m) => m
  }

  /** Some step failed. */
  predicate AnyFailed(steps: seq<Step>) {
    exists k :: 0 <= k < |steps| && steps[k].err.Some?
  }

  /** The index of the first failed step, when one failed. */
  function FirstFailed(steps: seq<Step>): (k: nat)
    requires AnyFailed(steps)
    ensures k < |steps| && steps[k].err.Some?
    ensures forall j :: 0 <= j < k ==> steps[j].err.None?
  {
    if steps[0].err.Some? then 0
    else
      assert AnyFailed(steps[1..]) by {
        var k :| 0 <= k < |steps| && steps[k].err.Some?;
        assert steps[1..][k - 1] == steps[k];
      }
      1 + FirstFailed(steps[1..])
  }

  /** Past a step that passed, some step fails exactly when a later one does, and the
      first failure is one further on. */
  lemma AnyFailedTail(steps: seq<Step>)
    requires |steps| > 0 && steps[0].err.None?
    ensures AnyFailed(steps) <==> AnyFailed(steps[1..])
    ensures AnyFailed(steps) ==> FirstFailed(steps) == 1 + FirstFailed(steps[1..])
  {
    if AnyFailed(steps) {
      var k :| 0 <= k < |steps| && steps[k].err.Some?;
      assert steps[1..][k - 1] == steps[k];
    }
    if AnyFailed(steps[1..]) {
      var k :| 0 <= k < |steps[1..]| && steps[1..][k].err.Some?;
      assert steps[k + 1] == steps[1..][k];
    }
  }

  /** The calls of a run of steps: one patch per step before the first failure and one
      failed completion, whose message ends with that step's error, when a step fails;
      one patch per step otherwise. */
  lemma {:induction false} StepsShape(message: string, steps: seq<Step>)
    ensures var r := Steps(message, steps);
      && (r.failed <==> AnyFailed(steps))
      && (r.failed ==>
            |r.calls| == FirstFailed(steps) + 1
            && r.calls[|r.calls| - 1] == CompleteTask(false, r.message)
            && HasSuffix(r.message, Cross(steps[FirstFailed(steps)].err.value)))
      && (!r.failed ==> |r.calls| == |steps|)
      && (forall i :: 0 <= i < |r.calls| - 1 ==> r.calls[i].PatchInstanceTask?)
      && (!r.failed && |r.calls| > 0 ==> r.calls[|r.calls| - 1].PatchInstanceTask?)
      && CountCompletes(r.calls) == (if r.failed then 1 else 0)
    decreases |steps|
  {
    var r := Steps(message, steps);
    if |steps| == 0 {
      assert !AnyFailed(steps);
    } else if steps[0].err.Some? {
      assert AnyFailed(steps);
      assert FirstFailed(steps) == 0;
      assert r.calls[1..] == [];
    } else {
      var m := message + steps[0].name + Tick;
      var rest := Steps(m, steps[1..]);
      StepsShape(m, steps[1..]);
      AnyFailedTail(steps);
      assert r.calls == [PatchInstanceTask(m)] + rest.calls;
      assert r.calls[1..] == rest.calls;
    }
  }

  /** Every message a run of steps sends extends `message`, and the final message
      extends each of them. */
  lemma {:induction false} StepsMessages(message: string, steps: seq<Step>)
    ensures var r := Steps(message, steps);
      && HasPrefix(r.message, message)
      && (forall i :: 0 <= i < |r.calls| ==> HasPrefix(r.message, Message(r.calls[i])) && HasPrefix(Message(r.calls[i]), message))
    decreases |steps|
  {
    var r := Steps(message, steps);
    if |steps| == 0 {
      assert HasPrefix(r.message, message);
    } else {
      var m := message + steps[0].name;
      PrefixOfAppend(message, steps[0].name);
      if steps[0].err.Some? {
        var c := Cross(steps[0].err.value);
        PrefixOfAppend(m, c);
        PrefixTransitive(m + c, m, message);
      } else {
        PrefixOfAppend(m, Tick);
        PrefixTransitive(m + Tick, m, message);
        var rest := Steps(m + Tick, steps[1..]);
        StepsMessages(m + Tick, steps[1..]);
        assert r.calls == [PatchInstanceTask(m + Tick)] + rest.calls;
        PrefixTransitive(rest.message, m + Tick, message);
        forall i | 0 <= i < |r.calls|
          ensures HasPrefix(r.message, Message(r.calls[i])) && HasPrefix(Message(r.calls[i]), message)
        {
          if i > 0 {
            assert r.calls[i] == rest.calls[i - 1];
            PrefixTransitive(Message(r.calls[i]), m + Tick, message);
          }
        }
      }
    }
  }

  /** A run of steps fails exactly when one of them fails; it then sends one patch per
      step before the first failure and one failed completion, whose message ends with
      that step's error; otherwise one patch per step and no completion. Every message
      it sends extends `message` and each later one extends the earlier ones. */
  lemma StepsFacts(message: string, steps: seq<Step>)
    ensures var r := Steps(message, steps);
      && (r.failed <==> AnyFailed(steps))
      && (r.failed ==>
            |r.calls| == FirstFailed(steps) + 1
            && r.calls[|r.calls| - 1] == CompleteTask(false, r.message)
            && HasSuffix(r.message, Cross(steps[FirstFailed(steps)].err.value)))
      && (!r.failed ==> |r.calls| == |steps|)
      && (forall i :: 0 <= i < |r.calls| - 1 ==> r.calls[i].PatchInstanceTask?)
      && (!r.failed && |r.calls| > 0 ==> r.calls[|r.calls| - 1].PatchInstanceTask?)
      && CountCompletes(r.calls) == (if r.failed then 1 else 0)
      && HasPrefix(r.message, message)
      && (forall i :: 0 <= i < |r.calls| ==> HasPrefix(r.message, Message(r.calls[i])) && HasPrefix(Message(r.calls[i]), message))
  {
    StepsShape(message, steps);
    StepsMessages(message, steps);
  }

  /** The outcomes of the six start steps after the configuration, which cannot fail. */
  datatype StartErrors = StartErrors(
    extract: Option<string>,
    load: Option<string>,
    init: Option<string>,
    transform: Option<string>,
    write: Option<string>,
    start: Option<string>)

  /** The steps of a start, in order. */
  function StartSteps(e: StartErrors): seq<Step> {
    [Step("- Parse problem config", None),
     Step("- Extract problem data", e.extract),
     Step("- Load Docker Compose Project", e.load),
     Step("- Initialize Docker Compose Instance", e.init),
     Step("- Transform Docker Compose Project", e.transform),
     Step("- Write Docker Compose Project", e.write),
     Step("- Start Docker Compose Project", e.start)]
  }

  /** The lines appended to a started instance's message. */
  function InstanceInfo(domain: string): string {
    "\nInstance info:\n" + "- Domain: [" + domain + "](http://" + domain + ")\n"
  }

  /** What a start sends: the opening patch, the steps, and when every step succeeded a
      completion with the instance's domain. */
  function StartCalls(instanceId: string, config: DockerConfig, e: StartErrors): seq<InstanceCall> {
    var m0 := "Starting docker instance\n";
    var r := Steps(m0, StartSteps(e));
    [PatchInstanceTask(m0)] + r.calls
    + (if r.failed then [] else [CompleteTask(true, r.message + InstanceInfo(ProjectDomain(instanceId, config)))])
  }

  /** After the first `k` steps succeeded with `calls` sent (the opening patch first)
      and `message` built, the run of all steps is what the steps sent so far followed
      by the run of the others. */
  ghost predicate Passed(opening: string, calls: seq<InstanceCall>, message: string, steps: seq<Step>, k: nat, whole: Ran)
    requires k <= |steps|
  {
    var r := Steps(message, steps[k..]);
    [PatchInstanceTask(opening)] + whole.calls == calls + r.calls
    && whole.failed == r.failed && whole.message == r.message
  }

  /** Before any step, nothing but the opening patch has been sent. */
  lemma PassedNone(opening: string, steps: seq<Step>)
    ensures Passed(opening, [PatchInstanceTask(opening)], opening, steps, 0, Steps(opening, steps))
  {
    assert steps[0..] == steps;
  }

  /** After every step, the run is over and did not fail. */
  lemma PassedAll(opening: string, calls: seq<InstanceCall>, message: string, steps: seq<Step>, whole: Ran)
    requires Passed(opening, calls, message, steps, |steps|, whole)
    ensures !whole.failed && whole.message == message && [PatchInstanceTask(opening)] + whole.calls == calls
  {
    assert steps[|steps|..] == [];
  }

  /** The next step either fails, ending the whole run, or passes. */
  lemma StepCase(opening: string, calls: seq<InstanceCall>, message: string, steps: seq<Step>, k: nat, whole: Ran)
    requires k < |steps| && Passed(opening, calls, message, steps, k, whole)
    ensures steps[k].err.Some? ==>
      whole.failed && [PatchInstanceTask(opening)] + whole.calls
                      == calls + [CompleteTask(false, message + steps[k].name + Cross(steps[k].err.value))]
    ensures steps[k].err.None? ==>
      Passed(opening, calls + [PatchInstanceTask(message + steps[k].name + Tick)], message + steps[k].name + Tick, steps, k + 1, whole)
  {
    assert steps[k..][0] == steps[k] && steps[k..][1..] == steps[k + 1..];
    if steps[k].err.None? {
      var m := message + steps[k].name + Tick;
      assert calls + Steps(message, steps[k..]).calls == (calls + [PatchInstanceTask(m)]) + Steps(m, steps[k + 1..]).calls;
    }
  }

  /** The steps after the opening patch, as `StartInstance` and `DestroyInstance` run
      them: each appends its name, then a failed step completes the task as failed with a
      cross and the error, and a passed one gains a tick and sends the whole message. The source writes each step out in turn; here they
      are taken in the same order from a list. */
  method RunSteps(opening: string, steps: seq<Step>) returns (calls: seq<InstanceCall>, message: string, failed: bool)
    ensures var r := Steps(opening, steps);
            calls == [PatchInstanceTask(opening)] + r.calls && message == r.message && failed == r.failed
  {
    message := opening;
    calls := [PatchInstanceTask(message)];
    ghost var whole := Steps(opening, steps);
    PassedNone(opening, steps);
    var i := 0;
    while i < |steps|
      invariant 0 <= i <= |steps|
      invariant Passed(opening, calls, message, steps, i, whole)
    {
      StepCase(opening, calls, message, steps, i, whole);
      message := message + steps[i].name;
      if steps[i].err.Some? {
        message := message + Cross(steps[i].err.value);
        calls := calls + [CompleteTask(false, message)];
        return calls, message, true;
      }
      message := message + Tick;
      calls := calls + [PatchInstanceTask(message)];
      i := i + 1;
    }
    PassedAll(opening, calls, message, steps, whole);
    failed := false;
  }

  /** `StartInstance`: the opening patch, the steps, and on success a completion with
      the instance's domain. The adapter always returns no error. */
  method StartInstance(task: RemoteInstanceTask, config: DockerConfig, e: StartErrors) returns (run: InstanceRun)
    ensures run == InstanceRun(StartCalls(task.instanceId, config, e), None)
  {
    var projectDomain := ProjectDomain(task.instanceId, config);
    var calls, message, failed := RunSteps("Starting docker instance\n", StartSteps(e));
    if failed {
      return InstanceRun(calls, None);
    }
    message := message + InstanceInfo(projectDomain);
    calls := calls + [CompleteTask(true, message)];
    run := InstanceRun(calls, None);
  }

  /** Whether the instance directory could be looked at. */
  datatype Stat = Present | Absent | StatFailed(err: string)

  /** The outcomes of the directory check and the three destroy steps. */
  datatype DestroyErrors = DestroyErrors(stat: Stat, stop: Option<string>, remove: Option<string>, cleanup: Option<string>)

  /** The steps of a destroy, in order. */
  function DestroySteps(e: DestroyErrors): seq<Step> {
    [Step("- Stop Docker Compose Project", e.stop),
     Step("- Remove Docker Compose Project", e.remove),
     Step("- Clean up instance directory", e.cleanup)]
  }

  /** The note a destroy of a missing instance completes with. */
  const AlreadyCleaned := "Instance directory does not exist, already cleaned up\n"

  /** What a destroy sends. A missing instance directory means there is nothing to do:
      the task completes as succeeded at once. Any other failure to look at it completes
      the task as failed. Otherwise the steps run, and a destroy that finishes them
      completes as succeeded with the message as it stands. */
  function DestroyCalls(e: DestroyErrors): seq<InstanceCall> {
    var m0 := "Destroying docker instance\n";
    match e.stat
    case Absent => [PatchInstanceTask(m0), CompleteTask(true, m0 + AlreadyCleaned)]
    case StatFailed(err) => [PatchInstanceTask(m0), CompleteTask(false, m0 + Cross("failed to check instance directory: " + err))]
    case Present =>
      var r := Steps(m0, DestroySteps(e));
      [PatchInstanceTask(m0)] + r.calls + (if r.failed then [] else [CompleteTask(true, r.message)])
  }

  /** `DestroyInstance`. */
  method DestroyInstance(task: RemoteInstanceTask, e: DestroyErrors) returns (run: InstanceRun)
    ensures run == InstanceRun(DestroyCalls(e), None)
  {
    var message := "Destroying docker instance\n";
    if e.stat.Absent? {
      message := message + AlreadyCleaned;
      return InstanceRun([PatchInstanceTask("Destroying docker instance\n"), CompleteTask(true, message)], None);
    }
    if e.stat.StatFailed? {
      var calls := [PatchInstanceTask(message), CompleteTask(false, message + Cross("failed to check instance directory: " + e.stat.err))];
      return InstanceRun(calls, None);
    }
    var calls, failed;
    calls, message, failed := RunSteps(message, DestroySteps(e));
    if failed {
      return InstanceRun(calls, None);
    }
    calls := calls + [CompleteTask(true, message)];
    run := InstanceRun(calls, None);
  }

  // ---------------------------------------------------------------------------------
  // What the two pipelines promise

  /** Every message sent extends the opening one, and the last extends every other. */
  predicate Grows(calls: seq<InstanceCall>, opening: string)
    requires |calls| > 0
  {
    forall i :: 0 <= i < |calls| ==>
      HasPrefix(Message(calls[i]), opening) && HasPrefix(Message(calls[|calls| - 1]), Message(calls[i]))
  }

  /** Calls that are all patches complete nothing. */
  lemma {:induction false} PatchesCompleteNothing(calls: seq<InstanceCall>)
    requires forall i :: 0 <= i < |calls| ==> calls[i].PatchInstanceTask?
    ensures CountCompletes(calls) == 0
  {
    if |calls| > 0 {
      PatchesCompleteNothing(calls[1..]);
    }
  }

  /** A start sends its opening patch first, completes the task exactly once and last,
      as succeeded exactly when no step failed; a failure's message ends with the first
      failed step's error, a success's with the instance's domain; the message only grows. */
  lemma StartCompletesOnce(instanceId: string, config: DockerConfig, e: StartErrors)
    ensures var c := StartCalls(instanceId, config, e);
      && |c| >= 2 && c[0] == PatchInstanceTask("Starting docker instance\n")
      && CountCompletes(c) == 1
      && c[|c| - 1].CompleteTask?
      && (c[|c| - 1].succeeded <==> !AnyFailed(StartSteps(e)))
      && (AnyFailed(StartSteps(e)) ==>
            HasSuffix(c[|c| - 1].message, Cross(StartSteps(e)[FirstFailed(StartSteps(e))].err.value)))
      && (!AnyFailed(StartSteps(e)) ==>
            HasSuffix(c[|c| - 1].message, InstanceInfo(ProjectDomain(instanceId, config))))
      && Grows(c, "Starting docker instance\n")
  {
    var m0 := "Starting docker instance\n";
    var steps := StartSteps(e);
    var r := Steps(m0, steps);
    StepsFacts(m0, steps);
    PipelineShape(m0, steps, if r.failed then [] else [CompleteTask(true, r.message + InstanceInfo(ProjectDomain(instanceId, config)))]);
    if !r.failed {
      PrefixOfAppend(r.message, InstanceInfo(ProjectDomain(instanceId, config)));
    }
  }

  /** The common shape of both pipelines: the opening patch, the steps, then `tail`,
      which is empty after a failure and one completion whose message extends the
      run's otherwise. */
  lemma PipelineShape(opening: string, steps: seq<Step>, tail: seq<InstanceCall>)
    requires var r := Steps(opening, steps);
      && (r.failed ==> tail == [])
      && (!r.failed ==> |tail| == 1 && tail[0].CompleteTask? && HasPrefix(tail[0].message, r.message))
    ensures var r := Steps(opening, steps);
      var c := [PatchInstanceTask(opening)] + r.calls + tail;
      && |c| >= 2 && CountCompletes(c) == 1 && c[|c| - 1].CompleteTask?
      && (r.failed ==> c[|c| - 1] == CompleteTask(false, r.message))
      && Grows(c, opening)
  {
    var r := Steps(opening, steps);
    StepsFacts(opening, steps);
    PipelineCount(opening, r.calls, tail);
    PipelineGrows(opening, r, tail);
  }

  /** The opening patch, then `calls`, then `tail` complete as often as `calls` and
      `tail` together. */
  lemma PipelineCount(opening: string, calls: seq<InstanceCall>, tail: seq<InstanceCall>)
    ensures CountCompletes([PatchInstanceTask(opening)] + calls + tail) == CountCompletes(calls) + CountCompletes(tail)
  {
    CountCompletesAppend([PatchInstanceTask(opening)] + calls, tail);
    CountCompletesAppend([PatchInstanceTask(opening)], calls);
    assert [PatchInstanceTask(opening)][1..] == [];
    if |tail| == 1 {
      assert tail[1..] == [];
    }
  }

  /** Every message of a pipeline extends the opening one, and the last extends all. */
  lemma PipelineGrows(opening: string, r: Ran, tail: seq<InstanceCall>)
    requires HasPrefix(r.message, opening)
    requires forall i :: 0 <= i < |r.calls| ==> HasPrefix(r.message, Message(r.calls[i])) && HasPrefix(Message(r.calls[i]), opening)
    requires r.failed ==> tail == [] && |r.calls| > 0 && Message(r.calls[|r.calls| - 1]) == r.message
    requires !r.failed ==> |tail| == 1 && HasPrefix(Message(tail[0]), r.message)
    ensures Grows([PatchInstanceTask(opening)] + r.calls + tail, opening)
  {
    var c := [PatchInstanceTask(opening)] + r.calls + tail;
    var last := Message(c[|c| - 1]);
    assert HasPrefix(last, r.message) by {
      if !r.failed {
        assert c[|c| - 1] == tail[0];
      } else {
        assert c[|c| - 1] == r.calls[|r.calls| - 1];
      }
    }
    assert HasPrefix(opening, opening) by { PrefixOfAppend(opening, ""); assert opening + "" == opening; }
    forall i | 0 <= i < |c|
      ensures HasPrefix(Message(c[i]), opening) && HasPrefix(last, Message(c[i]))
    {
      if i == 0 {
        PrefixTransitive(last, r.message, opening);
      } else if i <= |r.calls| {
        assert c[i] == r.calls[i - 1];
        PrefixTransitive(last, r.message, Message(c[i]));
      } else {
        assert c[i] == tail[0];
        PrefixTransitive(last, r.message, opening);
      }
    }
  }

  /** A destroy sends its opening patch first and completes the task exactly once, last.
      With the instance directory missing it succeeds at once, whatever the steps would
      have done; with a present one it succeeds exactly when no step failed. */
  lemma DestroyCompletesOnce(e: DestroyErrors)
    ensures var c := DestroyCalls(e);
      && |c| >= 2 && c[0] == PatchInstanceTask("Destroying docker instance\n")
      && CountCompletes(c) == 1 && c[|c| - 1].CompleteTask?
      && (e.stat.Absent? ==> |c| == 2 && c[1] == CompleteTask(true, c[0].message + AlreadyCleaned))
      && (e.stat.StatFailed? ==> !c[|c| - 1].succeeded)
      && (e.stat.Present? ==> (c[|c| - 1].succeeded <==> !AnyFailed(DestroySteps(e))))
      && Grows(c, "Destroying docker instance\n")
  {
    var m0 := "Destroying docker instance\n";
    var c := DestroyCalls(e);
    if e.stat.Present? {
      var r := Steps(m0, DestroySteps(e));
      StepsFacts(m0, DestroySteps(e));
      PrefixOfAppend(r.message, "");
      assert r.message + "" == r.message;
      PipelineShape(m0, DestroySteps(e), if r.failed then [] else [CompleteTask(true, r.message)]);
    } else {
      var tail := if e.stat.Absent? then AlreadyCleaned
                  else Cross("failed to check instance directory: " + e.stat.err);
      PrefixOfAppend(m0, tail);
      PrefixOfAppend(m0, "");
      assert m0 + "" == m0;
      assert c == [PatchInstanceTask(m0), CompleteTask(e.stat.Absent?, m0 + tail)];
      assert c[1..] == [CompleteTask(e.stat.Absent?, m0 + tail)];
      assert c[1..][1..] == [];
      assert CountCompletes(c[1..][1..]) == 0;
      assert CountCompletes(c[1..]) == 1;
    }
  }

  /** A destroy that gets through its steps has cleaned up the instance directory, so
      destroying the instance again finds no directory and completes as succeeded too,
      with the "already cleaned up" note: destroying twice is harmless. */
  lemma DestroyAgainSucceeds(first: DestroyErrors, again: DestroyErrors)
    requires first.stat.Present? && !AnyFailed(DestroySteps(first))
    requires again.stat.Absent?
    ensures var c := DestroyCalls(first);
            |c| > 0 && c[|c| - 1].CompleteTask? && c[|c| - 1].succeeded
    ensures DestroyCalls(again) == [PatchInstanceTask("Destroying docker instance\n"),
                                    CompleteTask(true, "Destroying docker instance\n" + AlreadyCleaned)]
  {
    DestroyCompletesOnce(first);
  }

  // ---------------------------------------------------------------------------------
  // The adapter as the instancer calls it

  /** What the docker adapter meets: its configuration, and what each start and each
      destroy step would return. */
  datatype DockerEnv = DockerEnv(config: DockerConfig, start: StartErrors, destroy: DestroyErrors)

  /** The docker adapter run on a task: a start task starts the instance, any other
      destroys it. Either way the adapter itself completes the task exactly once, last,
      and hands the instancer no error. */
  function DockerRun(env: DockerEnv, task: RemoteInstanceTask): (r: InstanceRun)
    ensures r.err.None? && |r.calls| >= 2
    ensures CountCompletes(r.calls) == 1 && r.calls[|r.calls| - 1].CompleteTask?
  {
    if task.taskType == TaskTypeStart then
      var calls := StartCalls(task.instanceId, env.config, env.start);
      StartCompletesOnce(task.instanceId, env.config, env.start);
      InstanceRun(calls, None)
    else
      var calls := DestroyCalls(env.destroy);
      DestroyCompletesOnce(env.destroy);
      InstanceRun(calls, None)
  }

  /** The instancer's start with the docker adapter, as written: the instancer completes
      the task a second time, and as succeeded even when a docker step failed and docker
      completed it as failed. */
  lemma StartCompletedTwice(adapters: map<string, InstanceAdapter>, res: PollInstanceResponse, data: string, env: DockerEnv)
    requires Configured(res.problemConfig) && res.problemConfig.instanceLabel.value in adapters
    ensures var log := StartLog(adapters, res, Ok(data), (a: InstanceAdapter, t: RemoteInstanceTask) => DockerRun(env, t));
      && CountCompletes(Calls(log)) == 2
      && log.succeeded
      && (AnyFailed(StartSteps(env.start)) ==> log.adapterCalls[|log.adapterCalls| - 1].CompleteTask?
                                               && !log.adapterCalls[|log.adapterCalls| - 1].succeeded)
  {
    var run := (a: InstanceAdapter, t: RemoteInstanceTask) => DockerRun(env, t);
    var log := StartLog(adapters, res, Ok(data), run);
    var task := RemoteInstanceTask(TaskTypeStart, res.problemConfig, data, res.instanceId);
    assert log.adapterCalls == DockerRun(env, task).calls;
    LogCompletions(log);
    StartCompletesOnce(res.instanceId, env.config, env.start);
  }

  /** The same for a destroy: the instancer completes the task a second time, as
      succeeded, even when docker completed it as failed. */
  lemma DestroyCompletedTwice(adapters: map<string, InstanceAdapter>, res: PollInstanceResponse, env: DockerEnv)
    requires Configured(res.problemConfig) && res.problemConfig.instanceLabel.value in adapters
    ensures var log := DestroyLog(adapters, res, (a: InstanceAdapter, t: RemoteInstanceTask) => DockerRun(env, t));
      && CountCompletes(Calls(log)) == 2
      && log.succeeded
  {
    var run := (a: InstanceAdapter, t: RemoteInstanceTask) => DockerRun(env, t);
    var log := DestroyLog(adapters, res, run);
    var task := RemoteInstanceTask(TaskTypeDestroy, res.problemConfig, "", res.instanceId);
    assert log.adapterCalls == DockerRun(env, task).calls;
    LogCompletions(log);
  }

  /** A start as the instancer expects of an adapter: the same progress patches, but a
      failed step is returned as the error instead of completing the task, and a start
      that succeeds patches its final message and leaves the completion to the instancer. */
  function StartFixed(instanceId: string, config: DockerConfig, e: StartErrors): (r: InstanceRun)
    ensures CountCompletes(r.calls) == 0
    ensures r.err.None? <==> !AnyFailed(StartSteps(e))
    ensures r.err.Some? ==> r.err.value == StartSteps(e)[FirstFailed(StartSteps(e))].err.value
    ensures r.err.None? ==> |r.calls| > 0 && HasSuffix(Message(r.calls[|r.calls| - 1]), InstanceInfo(ProjectDomain(instanceId, config)))
  {
    FixedRun("Starting docker instance\n", StartSteps(e), InstanceInfo(ProjectDomain(instanceId, config)))
  }

  /** The steps of a corrected start, run after the opening message `m0`; `info` is
      appended to the final message of a start that succeeds. */
  function FixedRun(m0: string, steps: seq<Step>, info: string): (r: InstanceRun)
    ensures CountCompletes(r.calls) == 0
    ensures r.err.None? <==> !AnyFailed(steps)
    ensures r.err.Some? ==> r.err.value == steps[FirstFailed(steps)].err.value
    ensures r.err.None? ==> |r.calls| > 0 && HasSuffix(Message(r.calls[|r.calls| - 1]), info)
  {
    var r := Steps(m0, steps);
    FixedRunCalls(m0, steps, info);
    if r.failed then
      InstanceRun([PatchInstanceTask(m0)] + r.calls[..|r.calls| - 1], Some(steps[FirstFailed(steps)].err.value))
    else
      SuffixOfAppend(r.message, info);
      InstanceRun([PatchInstanceTask(m0)] + r.calls + [PatchInstanceTask(r.message + info)], None)
  }

  /** The calls of a corrected run: the opening patch, the patches of the steps (without
      the failed completion, when a step failed), and possibly a final patch complete
      nothing. */
  lemma FixedRunCalls(m0: string, steps: seq<Step>, info: string)
    ensures var r := Steps(m0, steps);
      && (r.failed <==> AnyFailed(steps))
      && (r.failed ==> |r.calls| > 0 && CountCompletes([PatchInstanceTask(m0)] + r.calls[..|r.calls| - 1]) == 0)
      && (!r.failed ==> CountCompletes([PatchInstanceTask(m0)] + r.calls) == 0)
      && (!r.failed ==> CountCompletes([PatchInstanceTask(m0)] + r.calls + [PatchInstanceTask(r.message + info)]) == 0)
  {
    var r := Steps(m0, steps);
    StepsFacts(m0, steps);
    if r.failed {
      PatchesCompleteNothing([PatchInstanceTask(m0)] + r.calls[..|r.calls| - 1]);
    } else {
      PatchesCompleteNothing([PatchInstanceTask(m0)] + r.calls);
      PatchesCompleteNothing([PatchInstanceTask(m0)] + r.calls + [PatchInstanceTask(r.message + info)]);
    }
  }

  lemma SuffixOfAppend(a: string, b: string)
    ensures HasSuffix(a + b, b)
  {
    assert (a + b)[|a + b| - |b|..] == b;
  }

  /** A destroy as the instancer expects of an adapter: a missing directory is patched as
      already cleaned up, and any failure is returned as the error. */
  function DestroyFixed(e: DestroyErrors): (r: InstanceRun)
    ensures CountCompletes(r.calls) == 0
    ensures r.err.None? <==> e.stat.Absent? || (e.stat.Present? && !AnyFailed(DestroySteps(e)))
  {
    var m0 := "Destroying docker instance\n";
    match e.stat
    case Absent =>
      PatchesCompleteNothing([PatchInstanceTask(m0), PatchInstanceTask(m0 + AlreadyCleaned)]);
      InstanceRun([PatchInstanceTask(m0), PatchInstanceTask(m0 + AlreadyCleaned)], None)
    case StatFailed(err) =>
      PatchesCompleteNothing([PatchInstanceTask(m0)]);
      InstanceRun([PatchInstanceTask(m0)], Some("failed to check instance directory: " + err))
    case Present =>
      var steps := DestroySteps(e);
      var r := Steps(m0, steps);
      FixedRunCalls(m0, steps, "");
      if r.failed then
        InstanceRun([PatchInstanceTask(m0)] + r.calls[..|r.calls| - 1], Some(steps[FirstFailed(steps)].err.value))
      else
        InstanceRun([PatchInstanceTask(m0)] + r.calls, None)
  }

  /** The corrected adapter, dispatched as `DockerRun`. */
  function DockerRunFixed(env: DockerEnv, task: RemoteInstanceTask): InstanceRun {
    if task.taskType == TaskTypeStart then StartFixed(task.instanceId, env.config, env.start)
    else DestroyFixed(env.destroy)
  }

  /** With the corrected adapter every start the instancer runs completes the task
      exactly once, as succeeded exactly when every docker step succeeded. */
  lemma FixedStartCompletesOnce(adapters: map<string, InstanceAdapter>, res: PollInstanceResponse, data: string, env: DockerEnv)
    requires Configured(res.problemConfig) && res.problemConfig.instanceLabel.value in adapters
    ensures var log := StartLog(adapters, res, Ok(data), (a: InstanceAdapter, t: RemoteInstanceTask) => DockerRunFixed(env, t));
      CountCompletes(Calls(log)) == 1 && (log.succeeded <==> !AnyFailed(StartSteps(env.start)))
  {
    var run := (a: InstanceAdapter, t: RemoteInstanceTask) => DockerRunFixed(env, t);
    var start := StartLog(adapters, res, Ok(data), run);
    assert start.adapterCalls == StartFixed(res.instanceId, env.config, env.start).calls;
    LogCompletions(start);
  }

  /** The same for a destroy task: one completion, successful when nothing is running
      or when every destroy step succeeds. */
  lemma FixedDestroyCompletesOnce(adapters: map<string, InstanceAdapter>, res: PollInstanceResponse, env: DockerEnv)
    requires Configured(res.problemConfig) && res.problemConfig.instanceLabel.value in adapters
    ensures var log := DestroyLog(adapters, res, (a: InstanceAdapter, t: RemoteInstanceTask) => DockerRunFixed(env, t));
      CountCompletes(Calls(log)) == 1
      && (log.succeeded <==> env.destroy.stat.Absent? || (env.destroy.stat.Present? && !AnyFailed(DestroySteps(env.destroy))))
  {
    var run := (a: InstanceAdapter, t: RemoteInstanceTask) => DockerRunFixed(env, t);
    var destroy := DestroyLog(adapters, res, run);
    assert destroy.adapterCalls == DestroyFixed(env.destroy).calls;
    LogCompletions(destroy);
  }
}
