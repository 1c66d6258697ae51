/** The three adapters that run a judging program in a child process and read its
    progress from a named pipe: `deno` (adapters/judgers/deno), the build-tagged `glue`
    (adapters/judgers/glue) and the legacy `glue` of judge/adapter/glue, which talks to
    the client directly. The child itself, the file system and the pipe are outside the
    model: a `RunResult` says what the child left behind. */
module Sandbox {
  import opened Base
  import opened Common
  import opened KVLine
  import opened Report
  import opened Client

  /** What a finished child leaves behind: the lines it wrote to the report pipe, the
      details file as decoded after exit (`None` when it could not be read or decoded)
      and the error `cmd.Run` returned, if any. */
  datatype RunResult = RunResult(
    reportLines: seq<string>,
    detailsFile: Option<SolutionDetails>,
    exitError: Option<string>)

  /** How a `Judge` call ends: it returns (with or without an error) or panics. */
  datatype Outcome = Returned(err: Option<string>) | Panicked

  /** The program, arguments, environment and working directory handed to the child. */
  datatype Launch = Launch(program: string, args: seq<string>, env: seq<string>, dir: string)

  // ---------------------------------------------------------------------------------
  // Environment

  function EnvEntry(k: string, v: string): string {
    k + "=" + v
  }

  /** The value a child sees for `k`: `os/exec` keeps the last entry of a repeated key. */
  function Getenv(env: seq<string>, k: string): Option<string>
    decreases |env|
  {
    if |env| == 0 then None
    else
      var p := ParseKVLine(env[|env| - 1]);
      if !p.failed && p.key == k then Some(p.value) else Getenv(env[..|env| - 1], k)
  }

  /** An entry appended last decides its key. */
  lemma GetenvLast(env: seq<string>, k: string, v: string)
    requires '=' !in k
    ensures Getenv(env + [EnvEntry(k, v)], k) == Some(v)
  {
    FormatParseRoundTrip(k, v);
    var e := env + [EnvEntry(k, v)];
    assert e[|e| - 1] == EnvEntry(k, v);
  }

  /** An entry for another key does not change what `k` looks up to. */
  lemma GetenvSkip(env: seq<string>, k: string, k2: string, v: string)
    requires '=' !in k2 && k2 != k
    ensures Getenv(env + [EnvEntry(k2, v)], k) == Getenv(env, k)
  {
    FormatParseRoundTrip(k2, v);
    var e := env + [EnvEntry(k2, v)];
    assert e[|e| - 1] == EnvEntry(k2, v) && e[..|e| - 1] == env;
  }

  /** The four entries every child gets, appended after `base`. */
  function WithFour(base: seq<string>, keys: seq<string>, values: seq<string>): (r: seq<string>)
    requires |keys| == 4 && |values| == 4
  {
    base + [EnvEntry(keys[0], values[0]), EnvEntry(keys[1], values[1]),
            EnvEntry(keys[2], values[2]), EnvEntry(keys[3], values[3])]
  }

  /** Whatever `base` holds, each of four distinct `=`-free keys looks up to its own
      value once the four entries are appended. */
  lemma WithFourLookup(base: seq<string>, keys: seq<string>, values: seq<string>, i: nat)
    requires |keys| == 4 && |values| == 4 && i < 4
    requires forall j :: 0 <= j < 4 ==> '=' !in keys[j]
    requires forall j, k :: 0 <= j < k < 4 ==> keys[j] != keys[k]
    ensures Getenv(WithFour(base, keys, values), keys[i]) == Some(values[i])
  {
    var e0 := base;
    var e1 := e0 + [EnvEntry(keys[0], values[0])];
    var e2 := e1 + [EnvEntry(keys[1], values[1])];
    var e3 := e2 + [EnvEntry(keys[2], values[2])];
    var e4 := e3 + [EnvEntry(keys[3], values[3])];
    assert e4 == WithFour(base, keys, values);
    var k := keys[i];
    if i == 3 {
      GetenvLast(e3, k, values[3]);
    } else {
      GetenvSkip(e3, k, keys[3], values[3]);
      if i == 2 {
        GetenvLast(e2, k, values[2]);
      } else {
        GetenvSkip(e2, k, keys[2], values[2]);
        if i == 1 {
          GetenvLast(e1, k, values[1]);
        } else {
          GetenvSkip(e1, k, keys[1], values[1]);
          GetenvLast(e0, k, values[0]);
        }
      }
    }
  }

  /** A key that is none of the four keeps the lookup it had in `base`. */
  lemma WithFourOther(base: seq<string>, keys: seq<string>, values: seq<string>, k: string)
    requires |keys| == 4 && |values| == 4
    requires forall j :: 0 <= j < 4 ==> '=' !in keys[j] && keys[j] != k
    ensures Getenv(WithFour(base, keys, values), k) == Getenv(base, k)
  {
    var e1 := base + [EnvEntry(keys[0], values[0])];
    var e2 := e1 + [EnvEntry(keys[1], values[1])];
    var e3 := e2 + [EnvEntry(keys[2], values[2])];
    assert e3 + [EnvEntry(keys[3], values[3])] == WithFour(base, keys, values);
    GetenvSkip(e3, k, keys[3], values[3]);
    GetenvSkip(e2, k, keys[2], values[2]);
    GetenvSkip(e1, k, keys[1], values[1]);
    GetenvSkip(base, k, keys[0], values[0]);
  }

  const DenoKeys := ["AZUKIIRO_PROBLEM_DATA_DIR", "AZUKIIRO_SOLUTION_DATA_DIR", "AZUKIIRO_REPORT", "AZUKIIRO_DETAILS"]
  const GlueKeys := ["GLUE_PROBLEM_DATA", "GLUE_SOLUTION_DATA", "GLUE_REPORT", "GLUE_DETAILS"]

  lemma KeysWellFormed()
    ensures forall j :: 0 <= j < 4 ==> '=' !in DenoKeys[j] && '=' !in GlueKeys[j]
    ensures forall j, k :: 0 <= j < k < 4 ==> DenoKeys[j] != DenoKeys[k] && GlueKeys[j] != GlueKeys[k]
  {
    assert DenoKeys[2] == "AZUKIIRO_REPORT" && DenoKeys[3] == "AZUKIIRO_DETAILS";
    assert |DenoKeys[2]| != |DenoKeys[3]|;
    assert GlueKeys[2] == "GLUE_REPORT" && GlueKeys[3] == "GLUE_DETAILS";
    assert |GlueKeys[2]| != |GlueKeys[3]|;
    assert |GlueKeys[0]| != |GlueKeys[1]| && |DenoKeys[0]| != |DenoKeys[1]|;
  }

  /** The deno child inherits the runner's environment and gets the four `AZUKIIRO_`
      entries after it. */
  function DenoEnv(inherited: seq<string>, paths: seq<string>): seq<string>
    requires |paths| == 4
  {
    WithFour(inherited, DenoKeys, paths)
  }

  /** The build-tagged glue child inherits the runner's environment and gets the four
      `GLUE_` entries after it. */
  function GlueEnv(inherited: seq<string>, values: seq<string>): seq<string>
    requires |values| == 4
  {
    WithFour(inherited, GlueKeys, values)
  }

  /** The legacy glue child gets the four `GLUE_` entries and nothing else. */
  function LegacyGlueEnv(values: seq<string>): seq<string>
    requires |values| == 4
  {
    WithFour([], GlueKeys, values)
  }

  /** Each `AZUKIIRO_` variable holds its path whatever the runner's environment holds,
      and every other variable is inherited unchanged. */
  lemma DenoEnvLookup(inherited: seq<string>, paths: seq<string>)
    requires |paths| == 4
    ensures forall i :: 0 <= i < 4 ==> Getenv(DenoEnv(inherited, paths), DenoKeys[i]) == Some(paths[i])
    ensures forall k :: k !in DenoKeys ==> Getenv(DenoEnv(inherited, paths), k) == Getenv(inherited, k)
  {
    KeysWellFormed();
    forall i | 0 <= i < 4 ensures Getenv(DenoEnv(inherited, paths), DenoKeys[i]) == Some(paths[i]) {
      WithFourLookup(inherited, DenoKeys, paths, i);
    }
    forall k | k !in DenoKeys ensures Getenv(DenoEnv(inherited, paths), k) == Getenv(inherited, k) {
      WithFourOther(inherited, DenoKeys, paths, k);
    }
  }

  /** Each `GLUE_` variable holds its value whatever the runner's environment holds, and
      every other variable is inherited unchanged. */
  lemma GlueEnvLookup(inherited: seq<string>, values: seq<string>)
    requires |values| == 4
    ensures forall i :: 0 <= i < 4 ==> Getenv(GlueEnv(inherited, values), GlueKeys[i]) == Some(values[i])
    ensures forall k :: k !in GlueKeys ==> Getenv(GlueEnv(inherited, values), k) == Getenv(inherited, k)
  {
    KeysWellFormed();
    forall i | 0 <= i < 4 ensures Getenv(GlueEnv(inherited, values), GlueKeys[i]) == Some(values[i]) {
      WithFourLookup(inherited, GlueKeys, values, i);
    }
    forall k | k !in GlueKeys ensures Getenv(GlueEnv(inherited, values), k) == Getenv(inherited, k) {
      WithFourOther(inherited, GlueKeys, values, k);
    }
  }

  /** The legacy child's environment has exactly four entries: the `GLUE_` variables hold
      their values and no other variable is set at all. */
  lemma LegacyGlueEnvLookup(values: seq<string>)
    requires |values| == 4
    ensures |LegacyGlueEnv(values)| == 4
    ensures forall i :: 0 <= i < 4 ==> Getenv(LegacyGlueEnv(values), GlueKeys[i]) == Some(values[i])
    ensures forall k :: k !in GlueKeys ==> Getenv(LegacyGlueEnv(values), k) == None
  {
    GlueEnvLookup([], values);
  }

  // ---------------------------------------------------------------------------------
  // Launch

  /** The deno adapter's configuration. */
  datatype DenoConfig = DenoConfig(script: string, timeout: int)

  /** The deno command line: read access to the two data directories, write access to
      the report pipe and the details file, no prompts, the platform's extra flags, and
      the script last. */
  function DenoArgs(problemDir: string, solutionDir: string, reportPath: string, detailsPath: string,
                    extra: seq<string>, scriptPath: string): (r: seq<string>)
    ensures |r| == 5 + |extra|
    ensures r[0] == "run" && r[|r| - 1] == scriptPath
    ensures r[1] == "--allow-read=" + problemDir + "," + solutionDir
    ensures r[2] == "--allow-write=" + reportPath + "," + detailsPath
    ensures r[3] == "--no-prompt" && r[4..|r| - 1] == extra
  {
    ["run", "--allow-read=" + problemDir + "," + solutionDir,
     "--allow-write=" + reportPath + "," + detailsPath, "--no-prompt"] + extra + [scriptPath]
  }

  /** The glue adapters' configuration. */
  datatype GlueConfig = GlueConfig(command: seq<string>, run: string, timeout: int)

  const ScriptHeader := "#!/bin/bash\n\nset -ex\n\n"

  /** The script written to `run.sh` (if any) and the command actually used. */
  datatype Selection = Selection(script: Option<string>, command: seq<string>)

  /** A `run` script is written whenever `run` is non-empty, but it is executed only
      when no `command` is configured; with neither, the command stays empty. */
  function SelectCommand(c: GlueConfig, scriptPath: string): (r: Selection)
    ensures r.script.Some? <==> c.run != ""
    ensures r.script.Some? ==>
              HasPrefix(r.script.value, ScriptHeader) && r.script.value[|ScriptHeader|..] == c.run
    ensures |c.command| > 0 ==> r.command == c.command
    ensures |c.command| == 0 && c.run != "" ==> r.command == [scriptPath]
    ensures |r.command| == 0 <==> |c.command| == 0 && c.run == ""
  {
    if c.run != "" then
      var script := ScriptHeader + c.run;
      assert script[..|ScriptHeader|] == ScriptHeader;
      Selection(Some(script), if |c.command| > 0 then c.command else [scriptPath])
    else Selection(None, c.command)
  }

  // ---------------------------------------------------------------------------------
  // Shaping after the child exits

  /** The update sent when the child exits abnormally. */
  const AbnormalExitInfo := SolutionInfo(0.0, None, "Judge Error", "Judge process exited abnormally")

  /** The details to upload: the file the child left, or the initial details when it
      could not be read back. */
  function ReadBack(initial: SolutionDetails, file: Option<SolutionDetails>): SolutionDetails {
    if file.Some? then file.value else initial
  }

  /** The calls made after the child exits: an abnormal exit adds one "Judge Error"
      update and a note after the summary; the details are uploaded exactly once, last,
      and a failed upload is only logged. */
  function FinishCalls(initial: SolutionDetails, run: RunResult): (calls: seq<SolutionCall>)
    ensures |calls| == if run.exitError.Some? then 2 else 1
    ensures run.exitError.Some? ==> calls[0] == PatchSolutionTask(AbnormalExitInfo)
    ensures calls[|calls| - 1].SaveSolutionDetails?
    ensures var d := ReadBack(initial, run.detailsFile);
            var up := calls[|calls| - 1].details;
            up.jobs == d.jobs && up.version == d.version
            && up.summary == d.summary + (if run.exitError.Some?
                 then "\n\n" + "Judge process exited abnormally: " + run.exitError.value else "")
  {
    var d := ReadBack(initial, run.detailsFile);
    if run.exitError.Some? then
      [PatchSolutionTask(AbnormalExitInfo),
       SaveSolutionDetails(d.(summary := d.summary + "\n\n" + "Judge process exited abnormally: " + run.exitError.value))]
    else [SaveSolutionDetails(d)]
  }

  /** The shaping after exit as the adapters run it, step by step. */
  method FinishRun(initial: SolutionDetails, run: RunResult) returns (calls: seq<SolutionCall>)
    ensures calls == FinishCalls(initial, run)
  {
    var details := ReadBack(initial, run.detailsFile);
    calls := [];
    if run.exitError.Some? {
      calls := calls + [PatchSolutionTask(AbnormalExitInfo)];
      details := details.(summary := details.summary + "\n\n");
      details := details.(summary := details.summary + "Judge process exited abnormally: " + run.exitError.value);
    }
    calls := calls + [SaveSolutionDetails(details)];
  }

  /** Every committed snapshot becomes one patch of the solution task, in order. */
  function AsPatches(us: seq<SolutionInfo>): (r: seq<SolutionCall>)
    ensures |r| == |us|
    ensures forall i :: 0 <= i < |us| ==> r[i] == PatchSolutionTask(us[i])
  {
    seq(|us|, i requires 0 <= i < |us| => PatchSolutionTask(us[i]))
  }

  /** The calls of a run that got as far as launching the child: the committed
      snapshots in stream order, then the shaping after exit. The report reader runs
      beside the child; the model orders every report before the shaping. */
  method ReportAndFinish(initial: SolutionDetails, run: RunResult, dec: Decoders)
    returns (calls: seq<SolutionCall>)
    ensures |calls| > 0 && calls[|calls| - 1].SaveSolutionDetails?
    ensures CommitCount(run.reportLines) < |calls| && calls[..CommitCount(run.reportLines)] == AsPatches(Committed(Initial, run.reportLines, dec))
    ensures calls == AsPatches(Committed(Initial, run.reportLines, dec)) + FinishCalls(initial, run)
  {
    var updates := ReportHandler(run.reportLines, dec);
    CommittedLength(Initial, run.reportLines, dec);
    var tail := FinishRun(initial, run);
    calls := AsPatches(updates) + tail;
    assert calls[..|updates|] == AsPatches(updates);
  }

  // ---------------------------------------------------------------------------------
  // The three Judge entry points

  /** The deno adapter. A config that does not decode, or a failing setup step
      (unpacking, the script check, the work directory, the details file, the pipe),
      returns that error before any call. Otherwise deno runs the script with the
      environment above, and `Judge` returns nil whatever the child did. */
  method DenoJudge(config: Result<DenoConfig>, setupError: Option<string>,
                   problemDir: string, solutionDir: string, workDir: string,
                   inherited: seq<string>, extraArgs: seq<string>,
                   run: RunResult, dec: Decoders)
    returns (calls: seq<SolutionCall>, launch: Option<Launch>, outcome: Outcome)
    ensures config.Err? ==> calls == [] && launch.None? && outcome == Returned(Some(config.error))
    ensures config.Ok? && setupError.Some? ==> calls == [] && launch.None? && outcome == Returned(setupError)
    ensures config.Ok? && setupError.None? ==>
      outcome == Returned(None)
      && launch == Some(Launch("deno",
           DenoArgs(problemDir, solutionDir, Join(workDir, "report"), Join(workDir, "details.json"),
                    extraArgs, Join(problemDir, config.value.script)),
           DenoEnv(inherited, [problemDir, solutionDir, Join(workDir, "report"), Join(workDir, "details.json")]),
           workDir))
      && |calls| > 0 && calls[|calls| - 1].SaveSolutionDetails?
      && CommitCount(run.reportLines) < |calls| && calls[..CommitCount(run.reportLines)] == AsPatches(Committed(Initial, run.reportLines, dec))
      && calls == AsPatches(Committed(Initial, run.reportLines, dec)) + FinishCalls(EmptyDetails, run)
  {
    calls, launch := [], None;
    if config.Err? {
      outcome := Returned(Some(config.error));
      return;
    }
    if setupError.Some? {
      outcome := Returned(setupError);
      return;
    }
    var scriptPath := Join(problemDir, config.value.script);
    var detailsPath := Join(workDir, "details.json");
    var reportPath := Join(workDir, "report");
    var args := DenoArgs(problemDir, solutionDir, reportPath, detailsPath, extraArgs, scriptPath);
    var env := DenoEnv(inherited, [problemDir, solutionDir, reportPath, detailsPath]);
    launch := Some(Launch("deno", args, env, workDir));
    calls := ReportAndFinish(EmptyDetails, run, dec);
    outcome := Returned(None);
  }

  /** The build-tagged glue adapter. Like deno, but the command comes from the config
      (or the `run` script), and `Command[0]` is taken at launch, so a config with
      neither a command nor a script panics there, after the setup succeeded and before
      any call. */
  method GlueJudge(config: Result<GlueConfig>, setupError: Option<string>, dir: string,
                   problemData: string, solutionData: string, inherited: seq<string>,
                   run: RunResult, dec: Decoders)
    returns (calls: seq<SolutionCall>, launch: Option<Launch>, outcome: Outcome)
    ensures config.Err? ==> calls == [] && launch.None? && outcome == Returned(Some(config.error))
    ensures config.Ok? && setupError.Some? ==> calls == [] && launch.None? && outcome == Returned(setupError)
    ensures config.Ok? && setupError.None? ==>
      var sel := SelectCommand(config.value, Join(dir, "run.sh"));
      (outcome == Panicked <==> |sel.command| == 0)
      && (outcome == Panicked ==> calls == [] && launch.None?)
      && (outcome != Panicked ==>
            outcome == Returned(None)
            && launch == Some(Launch(sel.command[0], sel.command[1..],
                 GlueEnv(inherited, [problemData, solutionData, Join(dir, "report"), Join(dir, "details.json")]), dir))
            && |calls| > 0 && calls[|calls| - 1].SaveSolutionDetails?
            && CommitCount(run.reportLines) < |calls| && calls[..CommitCount(run.reportLines)] == AsPatches(Committed(Initial, run.reportLines, dec))
            && calls == AsPatches(Committed(Initial, run.reportLines, dec)) + FinishCalls(EmptyDetails, run))
  {
    calls, launch := [], None;
    if config.Err? {
      outcome := Returned(Some(config.error));
      return;
    }
    if setupError.Some? {
      outcome := Returned(setupError);
      return;
    }
    var sel := SelectCommand(config.value, Join(dir, "run.sh"));
    if |sel.command| == 0 {
      outcome := Panicked;
      return;
    }
    var env := GlueEnv(inherited, [problemData, solutionData, Join(dir, "report"), Join(dir, "details.json")]);
    launch := Some(Launch(sel.command[0], sel.command[1..], env, dir));
    calls := ReportAndFinish(EmptyDetails, run, dec);
    outcome := Returned(None);
  }

  /** The details the legacy glue adapter starts from: no version. */
  const LegacyInitialDetails := SolutionDetails(None, Some([]), "")

  /** The legacy glue adapter: the same flow, with the client called directly, initial
      details without a version, and a child environment holding only the four `GLUE_`
      entries. */
  method LegacyGlueJudge(config: Result<GlueConfig>, setupError: Option<string>, dir: string,
                         problemData: string, solutionData: string,
                         run: RunResult, dec: Decoders)
    returns (calls: seq<SolutionCall>, launch: Option<Launch>, outcome: Outcome)
    ensures config.Err? ==> calls == [] && launch.None? && outcome == Returned(Some(config.error))
    ensures config.Ok? && setupError.Some? ==> calls == [] && launch.None? && outcome == Returned(setupError)
    ensures config.Ok? && setupError.None? ==>
      var sel := SelectCommand(config.value, Join(dir, "run.sh"));
      (outcome == Panicked <==> |sel.command| == 0)
      && (outcome == Panicked ==> calls == [] && launch.None?)
      && (outcome != Panicked ==>
            outcome == Returned(None)
            && launch == Some(Launch(sel.command[0], sel.command[1..],
                 LegacyGlueEnv([problemData, solutionData, Join(dir, "report"), Join(dir, "details.json")]), dir))
            && |calls| > 0 && calls[|calls| - 1].SaveSolutionDetails?
            && (run.detailsFile.None? ==> calls[|calls| - 1].details.version.None?)
            && CommitCount(run.reportLines) < |calls| && calls[..CommitCount(run.reportLines)] == AsPatches(Committed(Initial, run.reportLines, dec))
            && calls == AsPatches(Committed(Initial, run.reportLines, dec)) + FinishCalls(LegacyInitialDetails, run))
  {
    calls, launch := [], None;
    if config.Err? {
      outcome := Returned(Some(config.error));
      return;
    }
    if setupError.Some? {
      outcome := Returned(setupError);
      return;
    }
    var sel := SelectCommand(config.value, Join(dir, "run.sh"));
    if |sel.command| == 0 {
      outcome := Panicked;
      return;
    }
    var env := LegacyGlueEnv([problemData, solutionData, Join(dir, "report"), Join(dir, "details.json")]);
    launch := Some(Launch(sel.command[0], sel.command[1..], env, dir));
    var updates := ReportHandler(run.reportLines, dec);
    CommittedLength(Initial, run.reportLines, dec);
    var tail := FinishRun(LegacyInitialDetails, run);
    calls := AsPatches(updates) + tail;
    assert calls[..|updates|] == AsPatches(updates);
    outcome := Returned(None);
  }
}
