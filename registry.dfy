/** The adapter registries: the judge registry (judge/adapter.go) and the instance
    registry (instancer/adapter.go) refuse a second adapter under a taken name with a
    panic, while the legacy judge registry (judge/adapter/adapter.go) overwrites. Each
    registry is a package-level map, modelled as the one field of a class. */
module Registry {
  import opened Base
  import opened Common
  import opened Client

  /** The judge adapters that register themselves, identified by their implementation. */
  datatype JudgeAdapter = Deno | Glue | Dummy | Flag | Uoj | Vjudge {
    function Name(): string {
      match this
      case Deno => "deno"
      case Glue => "glue"
      case Dummy => "dummy"
      case Flag => "flag"
      case Uoj => "uoj"
      case Vjudge => "vjudge"
    }
  }

  /** The instance adapters that register themselves. */
  datatype InstanceAdapter = Docker {
    function Name(): string {
      "docker"
    }
  }

  /** The adapters of the legacy registry; its `init` registers the first two. */
  datatype LegacyAdapter = LegacyDummy | LegacyUoj | LegacyGlue {
    function Name(): string {
      match this
      case LegacyDummy => "dummy"
      case LegacyUoj => "uoj"
      case LegacyGlue => "glue"
    }
  }

  /** No two built-in judge adapters share a name, so registering all of them, in any
      order, never panics. */
  lemma JudgeNamesDistinct(a: JudgeAdapter, b: JudgeAdapter)
    ensures a.Name() == b.Name() <==> a == b
  {
    if a != b {
      assert a.Name()[0] != b.Name()[0] || |a.Name()| != |b.Name()|;
    }
  }

  /** The judge registry of judge/adapter.go. */
  class JudgeRegistry {
    var adapters: map<string, JudgeAdapter>

    /** Every entry is stored under its adapter's own name. */
    predicate Valid()
      reads this
    {
      forall n :: n in adapters ==> adapters[n].Name() == n
    }

    constructor ()
      ensures Valid() && adapters == map[]
    {
      adapters := map[];
    }

    /** Registering a taken name panics and leaves the registry as it was; otherwise
        the adapter is added under its name and nothing else changes. */
    method RegisterAdapter(a: JudgeAdapter) returns (panicked: bool)
      requires Valid()
      modifies this
      ensures Valid()
      ensures panicked <==> a.Name() in old(adapters)
      ensures panicked ==> adapters == old(adapters)
      ensures !panicked ==> adapters == old(adapters)[a.Name() := a]
    {
      if a.Name() in adapters {
        panicked := true;
        return;
      }
      panicked := false;
      adapters := adapters[a.Name() := a];
    }

    /** The adapter registered under `name`, if any. */
    method GetAdapter(name: string) returns (a: Option<JudgeAdapter>)
      requires Valid()
      ensures a.Some? <==> name in adapters
      ensures a.Some? ==> a.value == adapters[name] && a.value.Name() == name
    {
      if name in adapters {
        a := Some(adapters[name]);
      } else {
        a := None;
      }
    }
  }

  /** The instance registry of instancer/adapter.go. */
  class InstanceRegistry {
    var adapters: map<string, InstanceAdapter>

    predicate Valid()
      reads this
    {
      forall n :: n in adapters ==> adapters[n].Name() == n
    }

    constructor ()
      ensures Valid() && adapters == map[]
    {
      adapters := map[];
    }

    /** First registration wins: a taken name panics and changes nothing. */
    method RegisterAdapter(a: InstanceAdapter) returns (panicked: bool)
      requires Valid()
      modifies this
      ensures Valid()
      ensures panicked <==> a.Name() in old(adapters)
      ensures panicked ==> adapters == old(adapters)
      ensures !panicked ==> adapters == old(adapters)[a.Name() := a]
    {
      if a.Name() in adapters {
        panicked := true;
        return;
      }
      panicked := false;
      adapters := adapters[a.Name() := a];
    }

    method GetAdapter(name: string) returns (a: Option<InstanceAdapter>)
      requires Valid()
      ensures a.Some? <==> name in adapters
      ensures a.Some? ==> a.value == adapters[name] && a.value.Name() == name
    {
      if name in adapters {
        a := Some(adapters[name]);
      } else {
        a := None;
      }
    }

    /** The registered names, each exactly once, in the map's iteration order (which
        the model leaves open). */
    method GetAdapterNames() returns (names: seq<string>)
      ensures |names| == |adapters|
      ensures forall i, j :: 0 <= i < j < |names| ==> names[i] != names[j]
      ensures forall n :: n in names <==> n in adapters
    {
      names := [];
      var remaining := adapters.Keys;
      while remaining != {}
        invariant remaining <= adapters.Keys
        invariant forall n :: n in names ==> n in adapters && n !in remaining
        invariant forall n :: n in adapters ==> n in names || n in remaining
        invariant forall i, j :: 0 <= i < j < |names| ==> names[i] != names[j]
        invariant |names| + |remaining| == |adapters.Keys|
        decreases |remaining|
      {
        var n :| n in remaining;
        names := names + [n];
        remaining := remaining - {n};
      }
    }
  }

  /** The legacy judge registry of judge/adapter/adapter.go. */
  class LegacyRegistry {
    var adapters: map<string, LegacyAdapter>

    predicate Valid()
      reads this
    {
      forall n :: n in adapters ==> adapters[n].Name() == n
    }

    /** The package `init`: the dummy and uoj adapters are registered. */
    constructor ()
      ensures Valid()
      ensures adapters == map[LegacyDummy.Name() := LegacyDummy, LegacyUoj.Name() := LegacyUoj]
    {
      adapters := map[];
      new;
      Register(LegacyDummy);
      Register(LegacyUoj);
    }

    /** Never fails: a later adapter under the same name replaces the earlier one and
        every other name keeps its adapter. */
    method Register(a: LegacyAdapter)
      requires Valid()
      modifies this
      ensures Valid()
      ensures adapters == old(adapters)[a.Name() := a]
    {
      adapters := adapters[a.Name() := a];
    }

    /** The adapter last registered under `name`, if any. */
    method Get(name: string) returns (a: Option<LegacyAdapter>)
      requires Valid()
      ensures a.Some? <==> name in adapters
      ensures a.Some? ==> a.value == adapters[name] && a.value.Name() == name
    {
      if name in adapters {
        a := Some(adapters[name]);
      } else {
        a := None;
      }
    }
  }

  /** On a fresh judge registry, the first registration of an adapter succeeds, a second
      one under the same name panics, and the first adapter stays retrievable. */
  method RegisterTwice(a: JudgeAdapter, b: JudgeAdapter)
    returns (first: bool, second: bool, got: Option<JudgeAdapter>)
    requires a.Name() == b.Name()
    ensures !first && second && got == Some(a)
  {
    var r := new JudgeRegistry();
    first := r.RegisterAdapter(a);
    second := r.RegisterAdapter(b);
    got := r.GetAdapter(a.Name());
  }

  /** After the legacy `init`, both of its adapters can be found by name. */
  method LegacyInit() returns (dummy: Option<LegacyAdapter>, uoj: Option<LegacyAdapter>)
    ensures dummy == Some(LegacyDummy) && uoj == Some(LegacyUoj)
  {
    var r := new LegacyRegistry();
    dummy := r.Get("dummy");
    uoj := r.Get("uoj");
  }

  /** The two kinds of instance task (`TaskTypeStart = 0`, `TaskTypeDestroy = 1`). */
  const TaskTypeStart := 0
  const TaskTypeDestroy := 1

  /** The judge task handed to an adapter. Its accessors return the constructed
      fields; `Update` is the solution-task patch and `UploadDetails` the details save,
      sent with the context the task was judged under. */
  datatype RemoteJudgeTask = RemoteJudgeTask(
    config: ProblemConfig,
    problemData: string,
    solutionData: string,
    solutionId: string,
    taskId: string,
    env: map<string, string>)

  /** A call an adapter makes through its judge task. */
  datatype TaskCall = Update(info: SolutionInfo) | UploadDetails(details: SolutionDetails)

  /** `Update` is the solution-task patch and `UploadDetails` the details save; an
      adapter has no way to complete the task itself. */
  function Delegate(c: TaskCall): (r: SolutionCall)
    ensures !r.CompleteSolutionTask?
    ensures c.Update? <==> r.PatchSolutionTask?
    ensures c.Update? ==> r.info == c.info
    ensures c.UploadDetails? ==> r.details == c.details
  {
    match c
    case Update(info) => PatchSolutionTask(info)
    case UploadDetails(details) => SaveSolutionDetails(details)
  }

  /** An adapter's calls, each sent under the context the adapter was given. */
  function SendAll(ctx: Ctx, calls: seq<TaskCall>): (r: seq<Sent>)
    ensures |r| == |calls|
    ensures forall i :: 0 <= i < |calls| ==> r[i] == Sent(ctx, Delegate(calls[i]))
  {
    seq(|calls|, i requires 0 <= i < |calls| => Sent(ctx, Delegate(calls[i])))
  }

  /** What running an adapter on a task amounts to: the calls it makes through the task,
      in order, and the error `Judge` returns. */
  datatype AdapterRun = AdapterRun(calls: seq<TaskCall>, err: Option<string>)

  /** The instance task handed to an adapter; `Patch` and `Complete` are the two
      instance-task calls. */
  datatype RemoteInstanceTask = RemoteInstanceTask(
    taskType: int,
    config: ProblemConfig,
    problemData: string,
    instanceId: string)
}
