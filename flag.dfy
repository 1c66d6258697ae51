/** The flag judger adapter (adapters/judgers/flag/flag.go): the solution archive holds
    an `answer.json` whose `flag` field is compared with the flag of the adapter's
    configuration. Decoding the configuration, extracting the archive, reading the
    answer file and decoding it are inputs; the reports go out as calls through the
    judge task. */
module Flag {
  import opened Base
  import opened Common
  import opened Registry

  /** What `json.Unmarshal` leaves in an answer record, and the error it returns. A
      failed decoding leaves the flag it had, "" for a fresh record. */
  datatype Decoded = Decoded(flag: string, error: Option<string>)

  /** What the adapter gets from outside: the configured flag or the decoding error,
      the archive extraction, the content of `answer.json` (none when it cannot be
      read) and the decoding of that content. */
  datatype Inputs = Inputs(
    decodeConfig: string -> Result<string>,
    unzip: string -> Option<string>,
    answerFile: Option<string>,
    decodeAnswer: string -> Decoded)

  const WrongAnswer := "Wrong Answer"
  const Accepted := "Accepted"

  /** One report: the result snapshot, with no metrics and no message, and details of
      version 1 with no jobs and the given summary. */
  function Report(score: real, status: string, summary: string): (r: seq<TaskCall>)
    ensures |r| == 2 && r[0].Update? && r[1].UploadDetails?
    ensures r[0].info.status == status && r[0].info.score == score && r[1].details.summary == summary
  {
    [Update(SolutionInfo(score, None, status, "")), UploadDetails(SolutionDetails(Some(1), None, summary))]
  }

  /** The status the server is left with after a sequence of calls: each update
      replaces the previous one, so the last update decides. */
  function LastStatus(calls: seq<TaskCall>): (s: Option<string>)
    ensures s.None? <==> forall i :: 0 <= i < |calls| ==> !calls[i].Update?
  {
    if |calls| == 0 then None
    else if calls[|calls| - 1].Update? then Some(calls[|calls| - 1].info.status)
    else LastStatus(calls[..|calls| - 1])
  }

  /** The report of a comparison of the answer's flag with the configured one. */
  function Verdict(answer: string, flag: string): seq<TaskCall> {
    if answer == flag then Report(100.0, Accepted, Accepted) else Report(0.0, WrongAnswer, WrongAnswer)
  }

  /** `Judge` as written: after reporting an answer file that does not decode, it goes
      on to compare whatever flag the decoding left, and reports again. */
  method JudgeAsWritten(task: RemoteJudgeTask, w: Inputs) returns (calls: seq<TaskCall>, err: Option<string>)
    ensures w.decodeConfig(task.config.judge.config).Err? ==>
      calls == [] && err == Some(w.decodeConfig(task.config.judge.config).error)
    ensures w.decodeConfig(task.config.judge.config).Ok? && w.unzip(task.solutionData).Some? ==>
      calls == [] && err == w.unzip(task.solutionData)
    ensures (w.decodeConfig(task.config.judge.config).Ok? && w.unzip(task.solutionData).None?) ==> (
      err.None?
      && (w.answerFile.None? ==> calls == Report(0.0, WrongAnswer, "answer.json not found"))
      && (w.answerFile.Some? ==> (
        var d := w.decodeAnswer(w.answerFile.value);
        var expected := w.decodeConfig(task.config.judge.config).value;
        (d.error.None? ==> calls == Verdict(d.flag, expected))
        && (d.error.Some? ==>
              calls == Report(0.0, WrongAnswer, "answer.json is not valid") + Verdict(d.flag, expected)))))
    ensures LastStatus(calls) == Some(Accepted) <==> (
      w.decodeConfig(task.config.judge.config).Ok? && w.unzip(task.solutionData).None?
      && w.answerFile.Some? && w.decodeAnswer(w.answerFile.value).flag == w.decodeConfig(task.config.judge.config).value)
  {
    calls := [];
    var config := w.decodeConfig(task.config.judge.config);
    if config.Err? {
      return calls, Some(config.error);
    }
    var unzipErr := w.unzip(task.solutionData);
    if unzipErr.Some? {
      return calls, unzipErr;
    }
    if w.answerFile.None? {
      calls := calls + Report(0.0, WrongAnswer, "answer.json not found");
      return calls, None;
    }
    var answer := w.decodeAnswer(w.answerFile.value);
    if answer.error.Some? {
      calls := calls + Report(0.0, WrongAnswer, "answer.json is not valid");
    }
    if answer.flag == config.value {
      calls := calls + Report(100.0, Accepted, Accepted);
    } else {
      calls := calls + Report(0.0, WrongAnswer, WrongAnswer);
    }
    return calls, None;
  }

  /** With no flag configured, an answer file that is not JSON is first rejected and
      then accepted: the server is left with "Accepted". */
  method InvalidAnswerAccepted() returns (calls: seq<TaskCall>, err: Option<string>)
    ensures err.None? && |calls| == 4
    ensures calls[0].Update? && calls[0].info.status == WrongAnswer
    ensures calls[1].UploadDetails? && calls[1].details.summary == "answer.json is not valid"
    ensures LastStatus(calls) == Some(Accepted)
  {
    var task := RemoteJudgeTask(
      ProblemConfig("", AdapterSection("flag", "{}"), None, None, map[]), "", "archive", "s1", "t1", map[]);
    var w := Inputs(c => Ok(""), z => None, Some("not json"), a => Decoded("", Some("invalid character")));
    calls, err := JudgeAsWritten(task, w);
  }

  /** `Judge` as evidently intended: an answer file that does not decode is reported
      once, as a wrong answer, and nothing is compared. */
  method Judge(task: RemoteJudgeTask, w: Inputs) returns (calls: seq<TaskCall>, err: Option<string>)
    ensures w.decodeConfig(task.config.judge.config).Err? ==>
      calls == [] && err == Some(w.decodeConfig(task.config.judge.config).error)
    ensures w.decodeConfig(task.config.judge.config).Ok? && w.unzip(task.solutionData).Some? ==>
      calls == [] && err == w.unzip(task.solutionData)
    ensures (w.decodeConfig(task.config.judge.config).Ok? && w.unzip(task.solutionData).None?) ==> (
      err.None?
      && (w.answerFile.None? ==> calls == Report(0.0, WrongAnswer, "answer.json not found"))
      && (w.answerFile.Some? ==> (
        var d := w.decodeAnswer(w.answerFile.value);
        var expected := w.decodeConfig(task.config.judge.config).value;
        (d.error.None? ==> calls == Verdict(d.flag, expected))
        && (d.error.Some? ==> calls == Report(0.0, WrongAnswer, "answer.json is not valid")))))
    ensures err.None? ==> |calls| == 2 && calls[0].Update? && calls[1].UploadDetails?
    ensures LastStatus(calls) == Some(Accepted) <==> (
      w.decodeConfig(task.config.judge.config).Ok? && w.unzip(task.solutionData).None?
      && w.answerFile.Some? && w.decodeAnswer(w.answerFile.value).error.None?
      && w.decodeAnswer(w.answerFile.value).flag == w.decodeConfig(task.config.judge.config).value)
  {
    calls := [];
    var config := w.decodeConfig(task.config.judge.config);
    if config.Err? {
      return calls, Some(config.error);
    }
    var unzipErr := w.unzip(task.solutionData);
    if unzipErr.Some? {
      return calls, unzipErr;
    }
    if w.answerFile.None? {
      calls := calls + Report(0.0, WrongAnswer, "answer.json not found");
      return calls, None;
    }
    var answer := w.decodeAnswer(w.answerFile.value);
    if answer.error.Some? {
      calls := calls + Report(0.0, WrongAnswer, "answer.json is not valid");
      return calls, None;
    }
    if answer.flag == config.value {
      calls := calls + Report(100.0, Accepted, Accepted);
    } else {
      calls := calls + Report(0.0, WrongAnswer, WrongAnswer);
    }
    return calls, None;
  }
}
