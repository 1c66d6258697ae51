/** The dummy judger adapter (adapters/judgers/dummy/dummy.go): it accepts every
    solution with a fixed report whose summary echoes the `ping` of its configuration.
    Decoding the configuration is an input; its error is ignored. */
module Dummy {
  import opened Base
  import opened Common
  import opened Registry

  /** The `ping` of the decoded configuration: "" when absent or when the configuration
      does not decode, since the decoding error is not looked at. */
  function Ping(decodeConfig: string -> Result<string>, config: string): string {
    match decodeConfig(config)
    case Ok(ping) => ping
    case Err(_) => ""
  }

  /** `Judge`: one result snapshot, then one details record, and no error. */
  function Judge(task: RemoteJudgeTask, decodeConfig: string -> Result<string>): (r: AdapterRun)
    ensures r.err.None? && |r.calls| == 2 && r.calls[0].Update? && r.calls[1].UploadDetails?
    ensures var info := r.calls[0].info;
      info.score == 100.0 && info.status == "AC" && info.message == "Well Done! Accepted"
      && info.metrics == Some(map["cpu" := 0.0, "mem" := 0.0])
    ensures var d := r.calls[1].details;
      d.version == Some(1) && d.jobs.Some? && |d.jobs.value| == 1
      && d.jobs.value[0].name == "Group 1" && d.jobs.value[0].score == d.jobs.value[0].scoreScale == 100.0
      && |d.jobs.value[0].tests| == 1 && d.jobs.value[0].tests[0].name == "Test 1"
      && d.jobs.value[0].tests[0].status == "AC"
  {
    var ping := Ping(decodeConfig, task.config.judge.config);
    var test := Test("Test 1", 100.0, "AC", "Accepted");
    var job := Job("Group 1", 100.0, 100.0, "AC", [test], "Accepted");
    AdapterRun([Update(SolutionInfo(100.0, Some(map["cpu" := 0.0, "mem" := 0.0]), "AC", "Well Done! Accepted")),
                UploadDetails(SolutionDetails(Some(1), Some([job]), "Accepted\nPing is: `" + ping + "`"))],
               None)
  }

  /** The summary echoes the ping: it can be read back from between the backquotes, and
      a configuration that does not decode shows an empty ping. */
  lemma PingEchoed(task: RemoteJudgeTask, decodeConfig: string -> Result<string>)
    ensures var summary := Judge(task, decodeConfig).calls[1].details.summary;
      var ping := Ping(decodeConfig, task.config.judge.config);
      HasPrefix(summary, "Accepted\nPing is: `") && HasSuffix(summary, "`")
      && summary[19..|summary| - 1] == ping
    ensures decodeConfig(task.config.judge.config).Err? ==>
      Judge(task, decodeConfig).calls[1].details.summary == "Accepted\nPing is: ``"
  {
  }

  /** Two tasks get the same report exactly when their pings agree: nothing else of the
      task shows in it. */
  lemma ReportDependsOnPingOnly(t1: RemoteJudgeTask, d1: string -> Result<string>,
                                t2: RemoteJudgeTask, d2: string -> Result<string>)
    ensures Judge(t1, d1) == Judge(t2, d2) <==> Ping(d1, t1.config.judge.config) == Ping(d2, t2.config.judge.config)
  {
    var p1 := Ping(d1, t1.config.judge.config);
    var p2 := Ping(d2, t2.config.judge.config);
    if Judge(t1, d1) == Judge(t2, d2) {
      var s1 := Judge(t1, d1).calls[1].details.summary;
      assert s1[19..|s1| - 1] == p1;
    }
  }
}
