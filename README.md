# azukiiro judge client, modelled in Dafny

azukiiro is the runner side of the AOI online judge. It polls the server for solution
tasks and instance tasks. For a solution task, it downloads the problem and the solution
archives into a content-addressed cache, then hands the task to a judge adapter. The
adapters are deno, glue, the legacy glue, dummy, flag, uoj and vjudge. Each adapter
reports progress snapshots, details and a final result back through the task. For an
instance task, the instancer hands a docker-compose project to the docker instance
adapter, which rewrites its caddy labels and starts or destroys it.

This project models that core as Dafny modules:

- `KVLine`: the `key=value` line parser.
- `Report`: the report reader shared by the deno and glue adapters. It is a fold over the
  report lines that sends one snapshot per `commit`.
- `Errors`: the structured judge error.
- `Registry`: the three adapter registries. Each is a class over a map.
- `Storage`: the download cache. `Store` is a class over the cache's files.
- `Judge`: the serial dispatcher.
- `Parallel`: the parallel poller and judger.
- `Instancer`: the instance dispatcher and its progress log.
- `Cli`: the poll loop of the daemon.
- `Docker` and `Compose`: the docker instance adapter and the compose rewriting.
- `Sandbox`: the deno, glue and legacy glue adapters' launch environment and their
  post-run shaping.
- `Dummy`, `Flag`, `Uoj`, `Vjudge`: the other adapters.

The server, the subprocesses and the file system are not modelled. Each method receives
what they answer as parameters:

- Calls to the server are appended to a trace that the method returns. A transport
  failure comes from a map keyed by the call's position in that trace.
- Decoders (JSON, XML, YAML), `strconv.ParseFloat`, SHA-256 and regular-expression
  matches that the model does not spell out are function-valued parameters.

Go map iteration is modelled as an arbitrary choice of the next key. Every property
proved about the compose rewriting and the vjudge status table therefore holds for every
iteration order.

Where the code and its documentation disagree, the model follows the code:

- A report line must contain `=`. A bare `commit` line is dropped as malformed, and only
  `commit=<anything>` sends a snapshot (`Report.BareCommitSendsNothing`).
- The dispatchers report a failed adapter with the error's text. They do not use the
  structured error's own result and details (judge/judge.go:80-95).
- Any cache stat error other than "does not exist" counts as a cache hit, and
  `PrepareFile` never returns an error, even after three failed downloads
  (storage/download.go:100-118).
- Both dispatchers hand the adapters an empty environment, so the vjudge adapter cannot
  succeed under them: it ends with an error, at the latest at "User id mismatch"
  (`Vjudge.Judge` proves that no `userId` in the environment means an error).

## Model

| member | source | states |
|---|---|---|
| KVLine.ParseKVLine | judge/adapter/glue/utils.go:8-16 | parsing fails exactly when the line has no `=`; on success the key has no `=` and key, `=` and value put back together give the line |
| KVLine.ParseKVLineUnique | judge/adapter/glue/utils.go:9-15 | the split is at the first `=`: a key without `=` and any value are the only result for their concatenation |
| KVLine.FormatParseRoundTrip | judge/adapter/glue/utils.go:9-15 | formatting a key without `=` and a value as `k=v` and parsing it gives back the same key and value |
| Errors.Info | judge/error.go:25-30 | the result of a judge error has score 0, no metrics, and the error's status and message |
| Errors.Details | judge/error.go:32-37 | the details are version 1, with no jobs, and a summary that opens with the error banner, ends with the closing fence and is exactly as long as the detail plus the two |
| Errors.DetailText | judge/error.go:35 | a detail read back from a summary is the text that, framed by the banner and the fence, forms that summary |
| Errors.DetailsRoundTrip | judge/error.go:32-37 | the detail of an error can be read back from the summary of its details |
| Errors.ReportsDetermineError | judge/error.go:21-37 | two errors produce the same result and details if and only if they are the same error |
| Report.ApplyParsed | adapters/judgers/deno/deno.go:54-81 | applying a line keeps the score within 0..100 once it is there, sets a new score only within 0..100, and leaves the snapshot unchanged on a malformed line, an unknown key or a commit |
| Report.ReportHandler | adapters/judgers/deno/deno.go:41-83 | the loop over the report lines sends exactly the snapshots the commit fold defines |
| Report.CommittedAppend | adapters/judgers/deno/deno.go:41-83 | reading two chunks of lines sends the first chunk's snapshots, then the second's starting from the first chunk's final state |
| Report.CommittedLength | adapters/judgers/deno/deno.go:41-83 | one snapshot is sent per `commit=` line and no others |
| Report.CommitSendsPrefixSnapshot | adapters/judgers/deno/deno.go:77-81 | a commit line at position j makes a snapshot sent after the ones of the lines before it |
| Report.CommittedScoresInRange | adapters/judgers/deno/deno.go:61-64 | every snapshot sent from a state with score in 0..100 has its score in 0..100 |
| Report.OutOfRangeScoreKept | adapters/judgers/deno/deno.go:61-64 | a score outside 0..100 is ignored and the committed snapshot keeps the previous score |
| Report.KeyedLine | adapters/judgers/deno/deno.go:49-54 | a line is a commit exactly when its key is `commit`, and a keyed line is applied by its parsed key and value |
| Report.ScoreLine | adapters/judgers/deno/deno.go:55-65 | a `score=` line sets the score only when it parses and lies in 0..100 |
| Report.TextLines | adapters/judgers/deno/deno.go:66-69 | a `status=` or `message=` line replaces only that field |
| Report.MetricsLine | adapters/judgers/deno/deno.go:70-76 | a `metrics=` line replaces the metrics only when they decode |
| Report.CommitLine | adapters/judgers/deno/deno.go:77-81 | a commit line sends the current snapshot and changes nothing |
| Report.NonCommitLine | adapters/judgers/deno/deno.go:54-76 | any other line sends nothing and only updates the snapshot |
| Report.ScoreStatusCommit | adapters/judgers/deno/deno.go:41-83 | score, status, commit sends one snapshot with the new score and status |
| Report.TwoCommits | adapters/judgers/deno/deno.go:41-83 | two score/status/commit groups sent from the start state give exactly two snapshots, in order, each with its own score and status |
| Report.BareCommitSendsNothing | adapters/judgers/deno/deno.go:49-52 | a bare `commit` line without `=` sends nothing |
| Sandbox.DenoEnvLookup | adapters/judgers/deno/deno.go:155-159 | in the deno environment the four path variables read back as set, and every other variable reads as inherited |
| Sandbox.GlueEnvLookup | adapters/judgers/glue/glue_unsafe.go:146-150 | in the glue environment the four variables read back as set, and every other variable reads as inherited |
| Sandbox.LegacyGlueEnvLookup | judge/adapter/glue/glue.go:134-137 | the legacy glue environment holds only the four variables, which read back as set; nothing else is visible |
| Sandbox.DenoArgs | adapters/judgers/deno/deno.go:145-151 | deno runs the script with read access to the problem and solution only and write access to the report and details only, without prompts, and with the configured extra flags before the script |
| Sandbox.SelectCommand | adapters/judgers/glue/glue_unsafe.go:103-113 | a configured command is used as is; otherwise a `run` script is written and executed; there is no command exactly when neither is configured |
| Sandbox.FinishCalls | adapters/judgers/deno/deno.go:164-189 | an abnormal exit first reports the fixed abnormal-exit result and appends the exit error to the summary; the details read back from the file (or the initial ones) are then saved, once and last |
| Sandbox.FinishRun | adapters/judgers/deno/deno.go:164-189 | the shaping after exit makes exactly the calls `FinishCalls` lists |
| Sandbox.ReportAndFinish | adapters/judgers/deno/deno.go:141-189 | the calls are exactly the committed snapshots, in stream order, followed by the shaping after exit; saving the details comes last |
| Sandbox.DenoJudge | adapters/judgers/deno/deno.go:85-190 | a bad configuration or a failed setup returns its error with no calls and no launch; otherwise deno is launched in the work directory with its arguments and environment, the calls are exactly the committed snapshots followed by the shaping after exit from empty version-1 details, and nil is returned |
| Sandbox.GlueJudge | adapters/judgers/glue/glue_unsafe.go:88-181 | as the deno adapter, with the selected command run in the adapter's directory; an empty command panics before launch and before any call |
| Sandbox.LegacyGlueJudge | judge/adapter/glue/glue.go:81-168 | as the glue adapter, with the legacy environment, and the shaping after exit starts from details without a version |
| Registry.JudgeNamesDistinct | judge/adapter.go:26-31 | the judge adapters' names are pairwise distinct, so the registry can hold them all |
| Registry.JudgeRegistry.RegisterAdapter | judge/adapter.go:26-31 | registering a name already present panics and changes nothing; otherwise the adapter is added under its name |
| Registry.JudgeRegistry.GetAdapter | judge/adapter.go:33-36 | lookup finds an adapter exactly when the name is registered, and it is the adapter of that name |
| Registry.InstanceRegistry.RegisterAdapter | instancer/adapter.go:34-39 | registering a name already present panics and changes nothing; otherwise the adapter is added under its name |
| Registry.InstanceRegistry.GetAdapter | instancer/adapter.go:41-44 | lookup finds an adapter exactly when the name is registered, and it is the adapter of that name |
| Registry.InstanceRegistry.GetAdapterNames | instancer/adapter.go:46-52 | the names listed are the registered names, each exactly once |
| Registry.LegacyRegistry.constructor | judge/adapter/adapter.go:27-30 | the legacy registry starts with the dummy and uoj adapters |
| Registry.LegacyRegistry.Register | judge/adapter/adapter.go:18-20 | the legacy registry overwrites an adapter of the same name |
| Registry.LegacyRegistry.Get | judge/adapter/adapter.go:22-25 | lookup finds an adapter exactly when the name is registered, and it is the adapter of that name |
| Registry.RegisterTwice | judge/adapter.go:26-36 | the first registration succeeds, the second of the same name panics, and the first adapter stays registered |
| Registry.LegacyInit | judge/adapter/adapter.go:22-30 | after initialisation both legacy adapters can be looked up |
| Registry.Delegate | judge/adapter.go:63-69 | an adapter's update becomes a patch of the task with the same result, its details become a save with the same details, and the adapter can never complete the task |
| Registry.SendAll | judge/adapter.go:63-69 | each adapter call is sent, in order, under the task's context |
| Storage.PathsDisjoint | storage/download.go:25-31 | the temporary directory and the cache directory differ, and no temporary file is a cache file |
| Storage.CacheFileInjective | storage/download.go:95-96 | two hashes share a cache file exactly when they are equal |
| Storage.TriesBounds | storage/download.go:106-115 | between one and three downloads are attempted, every attempt before the last failed, and stopping early means the last one succeeded |
| Storage.Store.DownloadFile | storage/download.go:52-98 | a download succeeds exactly when creating, fetching and moving succeed and the content's digest is the requested hash; only then is the file cached, and the cache stays content-addressed |
| Storage.Store.PrepareFile | storage/download.go:100-118 | the cache path is always returned without error; a hit downloads nothing; a miss tries until the first success or three attempts, and the cache stays content-addressed |
| Judge.Judging | judge/judge.go:13-52 | the task is marked "Preparing solution" first; a failed patch ends the run with that patch's error; otherwise "Judging" follows; an unknown adapter gets an "Error" patch and the run ends with that patch's result; otherwise the adapter's calls follow under the task's context and its error is returned; nothing here completes the task |
| Judge.JudgeSolution | judge/judge.go:13-52 | the dispatcher's `judge` makes exactly the calls `Judging` lists and returns exactly its error |
| Judge.Poll | judge/judge.go:54-109 | a poll error or an empty task stops polling with no call; a server-side error is patched as an error and the task completed; otherwise the trace is exactly `judge`'s calls, then (on a judge error) details whose summary holds the error's text and an "Error" patch, then the completion; every call goes under the task's context and the task is completed exactly once, last |
| Parallel.PollSpec | judge/parallel.go:16-81 | an unclaimed poll sends nothing and stops; a claimed task is reported only under its own context, only through patches, and is queued with an adapter that exists |
| Parallel.ParallelPoll | judge/parallel.go:16-81 | one poll step does what the poll specification says |
| Parallel.ParallelPoller | judge/parallel.go:83-132 | the poller loop produces the trace, the queue and the closing that the round-by-round specification defines |
| Parallel.QueuedTasksHaveAdapters | judge/parallel.go:29-80 | every task the poller queues has a registered adapter |
| Parallel.ClosedOnlyOnCancel | judge/parallel.go:113-130 | the poller closes the queue only when it was cancelled |
| Parallel.SettleCompletesOnce | judge/parallel.go:91-108 | settling a task completes it exactly once |
| Parallel.ParallelJudge | judge/parallel.go:134-144 | one judged task does what the judge specification says |
| Parallel.JudgeSpec | judge/parallel.go:134-144 | every call for a queued task goes under that task's context and none completes it; a known adapter is run |
| Parallel.ParallelJudger | judge/parallel.go:146-176 | the judger loop produces the trace the per-task specification defines |
| Parallel.RoundCompletesOnce | judge/parallel.go:147-173 | judging one queued task completes that task exactly once |
| Parallel.JudgerCompletesEachOnce | judge/parallel.go:146-176 | the judger completes each queued task once, in queue order, and nothing else |
| Parallel.UnknownAdapterClaimLost | judge/parallel.go:29-37 | as written: a claimed task with an unknown adapter is neither queued nor completed |
| Parallel.FailedClaimCompletedWithoutTask | judge/parallel.go:87-108 | as written: a failed poll round is completed under a context that names no task |
| Parallel.EachClaimSettledOnce | judge/parallel.go:83-112 | corrected: every claimed task is either queued or completed once under its own context |
| Instancer.Lookup | instancer/instancer.go:44-50 | an adapter is found exactly when the instance label is configured and registered, and it is the adapter of that label |
| Instancer.ChainAppendOnly | instancer/instancer.go:19-24 | the progress messages only ever grow: each one extends the one before |
| Instancer.StartLog | instancer/instancer.go:13-70 | starting opens with "Starting instance"; a failed preparation or lookup ends with a cross and the error and does not call the adapter; it succeeds exactly when every step succeeds, and then ends with the success line |
| Instancer.StartInstance | instancer/instancer.go:13-70 | starting sends the patches and adapter calls of the start log, then completes the task once |
| Instancer.DestroyLog | instancer/instancer.go:72-121 | destroying opens with "Destroying instance"; a failed lookup ends with a cross and the error; it succeeds exactly when the adapter succeeds, and then ends with the success line |
| Instancer.DestroyInstance | instancer/instancer.go:72-121 | destroying sends the patches and adapter calls of the destroy log, then completes the task once |
| Instancer.Poll | instancer/instancer.go:131-170 | a poll error or an empty task stops polling; a server error completes the task as failed; otherwise the start or destroy action runs under the task's identity |
| Instancer.LogCompletions | instancer/instancer.go:60-68 | the dispatcher adds exactly one completion to whatever the adapter sent |
| Cli.Truncate | cli/daemon.go:28 | the conversion to whole seconds truncates toward zero |
| Cli.WaitSeconds | cli/daemon.go:26-29 | after a round that asks to continue there is no wait; otherwise the wait is the poll interval truncated to whole seconds |
| Cli.PollLoop | cli/daemon.go:21-39 | the loop polls until the first cancellation or the end of the rounds, waits as the round asks, and logs each round's error |
| Cli.LoggedEveryError | cli/daemon.go:22-25 | an error is logged exactly when some round returned it |
| Docker.ProjectNameInjective | adapters/instancers/docker/utils.go:5-7 | two instances get the same compose project name exactly when they are the same instance |
| Docker.ProjectDomainInjective | adapters/instancers/docker/utils.go:9-11 | two instances get the same domain exactly when they are the same instance |
| Docker.StepsFacts | adapters/instancers/docker/docker.go:39-53 | the pipeline stops at the first failed step, completing the task as failed with that error; every message extends the previous one |
| Docker.RunSteps | adapters/instancers/docker/docker.go:55-121 | running the steps sends what the pipeline specification defines |
| Docker.StartInstance | adapters/instancers/docker/docker.go:33-132 | starting sends the start pipeline's calls and returns no error |
| Docker.StartCompletesOnce | adapters/instancers/docker/docker.go:33-132 | the docker start completes the task exactly once, as the last call, and succeeds exactly when no step failed |
| Docker.DestroyInstance | adapters/instancers/docker/docker.go:134-201 | destroying sends the destroy pipeline's calls and returns no error |
| Docker.DestroyCompletesOnce | adapters/instancers/docker/docker.go:134-201 | the docker destroy completes the task exactly once, as the last call: at once as already cleaned when the project is absent, as failed when the stat fails, and otherwise as succeeded exactly when no step failed |
| Docker.DestroyAgainSucceeds | adapters/instancers/docker/docker.go:156-198 | a destroy that finishes its steps completes as succeeded; a second destroy, taken to find the directory absent as the finished cleanup step leaves it, completes as succeeded with the "already cleaned up" note |
| Docker.DockerRun | adapters/instancers/docker/docker.go:33-201 | the docker adapter returns no error and completes the task exactly once, as its last call |
| Docker.StartCompletedTwice | instancer/instancer.go:60-68 | as written: a docker start is completed twice and the instancer reports success, even when the adapter's own completion after a failed step said failed |
| Docker.DestroyCompletedTwice | instancer/instancer.go:111-119 | as written: a docker destroy is completed twice and the instancer reports success |
| Docker.StartFixed | adapters/instancers/docker/docker.go:33-132 | corrected: the start completes nothing itself, returns the first failed step's error, and on success its last message carries the instance's URL |
| Docker.FixedRun | adapters/instancers/docker/docker.go:39-121 | corrected pipeline: nothing is completed, the error is the first failed step's, and on success the last message ends with the given information |
| Docker.DestroyFixed | adapters/instancers/docker/docker.go:134-201 | corrected: the destroy completes nothing itself and succeeds exactly when the project is absent or every step succeeds |
| Docker.FixedStartCompletesOnce | instancer/instancer.go:13-70 | corrected: a start is completed exactly once, and as succeeded exactly when every step succeeded |
| Docker.FixedDestroyCompletesOnce | instancer/instancer.go:72-121 | corrected: a destroy is completed exactly once, and as succeeded exactly when the project is absent or every destroy step succeeded |
| Compose.IngressOf | adapters/instancers/docker/compose.go:63-79 | the ingress is the one service carrying caddy labels, or none when no service does |
| Compose.Rewritten | adapters/instancers/docker/compose.go:80-91 | the rewriting keeps every service and its container name, gives the ingress the `caddy` label for the instance's domain, removes every other caddy label and keeps every other label |
| Compose.Project.CheckService | adapters/instancers/docker/compose.go:65-78 | a service is rejected exactly when it is not acceptable or is a second service with caddy labels; otherwise a service with caddy labels becomes the ingress |
| Compose.Project.StripCaddy | adapters/instancers/docker/compose.go:84-89 | exactly the caddy labels are removed |
| Compose.Project.CheckServices | adapters/instancers/docker/compose.go:63-79 | the services are accepted exactly when the project is acceptable, and the ingress found is the project's ingress |
| Compose.Project.RewriteServices | adapters/instancers/docker/compose.go:80-91 | the services become the rewritten services |
| Compose.Project.RewriteLabels | adapters/instancers/docker/compose.go:62-91 | an acceptable project has its services rewritten; an unacceptable one is left unchanged; the networks are untouched |
| Compose.Project.Transform | adapters/instancers/docker/compose.go:62-99 | as written: it fails exactly when the project is unacceptable or has no caddy network, and the networks are left unchanged |
| Compose.Project.TransformFixed | adapters/instancers/docker/compose.go:92-98 | corrected: on success the caddy network is marked external under the configured network name (`caddy` by default) |
| Compose.NetworkUpdateLost | adapters/instancers/docker/compose.go:92-98 | as written: after a successful transform the caddy network is still not external |
| Compose.NetworkUpdateKept | adapters/instancers/docker/compose.go:92-98 | corrected: after a successful transform the caddy network is external and named `caddy` |
| Dummy.Judge | adapters/judgers/dummy/dummy.go:25-61 | the dummy adapter sends one accepted result with zero metrics, then version 1 details with one accepted job and test, and returns no error |
| Dummy.PingEchoed | adapters/judgers/dummy/dummy.go:58 | the configured ping can be read back from between the backquotes of the summary, and is empty when the configuration does not decode |
| Dummy.ReportDependsOnPingOnly | adapters/judgers/dummy/dummy.go:25-61 | two tasks get the same report exactly when their pings agree |
| Flag.JudgeAsWritten | adapters/judgers/flag/flag.go:32-95 | as written: bad configuration or extraction returns its error; a missing answer is reported; an invalid answer is reported and then still compared; the task ends accepted exactly when the flag left by decoding equals the configured flag |
| Flag.InvalidAnswerAccepted | adapters/judgers/flag/flag.go:61-92 | as written: with no flag configured, an answer file that is not JSON is rejected and then accepted |
| Flag.Judge | adapters/judgers/flag/flag.go:32-95 | corrected: each outcome sends one report pair, and the task ends accepted exactly when the answer decodes and its flag equals the configured one |
| Uoj.Split | adapters/judgers/uoj/uoj.go:41 | the parts are at least one and contain no separator |
| Uoj.JoinSplit | adapters/judgers/uoj/uoj.go:41 | joining the parts of a split gives back the text |
| Uoj.SplitJoin | adapters/judgers/uoj/uoj.go:41 | splitting a join of separator-free parts gives back the parts |
| Uoj.CutAt | adapters/judgers/uoj/uoj.go:43 | a cut is at the first separator and puts the text back together; without a separator nothing is found |
| Uoj.SettingsKeys | adapters/judgers/uoj/uoj.go:42-47 | a key is set exactly when some line sets it |
| Uoj.SettingsLastWins | adapters/judgers/uoj/uoj.go:42-47 | a key takes the value of the last line that sets it |
| Uoj.SettingsLoop | adapters/judgers/uoj/uoj.go:40-47 | the loop over the lines builds exactly the settings map: each line holding a space sets the key before it, a later line winning |
| Uoj.ParseProblemConf | adapters/judgers/uoj/uoj.go:34-49 | a read error is returned; otherwise the settings are those of the file's lines |
| Uoj.ToCodeBlock | adapters/judgers/uoj/uoj.go:87-89 | the text is framed by code fences and can be read back from between them |
| Uoj.ErrorDetails | adapters/judgers/uoj/uoj.go:91-96 | there are details exactly when there is an error, and then they are the heading and the error in a code block |
| Uoj.ErrorMsg | adapters/judgers/uoj/uoj.go:98-105 | the message is empty without an error, never contains `:`, is part of the error, and is the error trimmed of white space (every character Go's `unicode.IsSpace` accepts) when that has no `:` |
| Uoj.UnicodeSpaceTrimmed | adapters/judgers/uoj/uoj.go:98-105 | an error surrounded by non-ASCII white space (a no-break space, an ideographic space) gives the bare message, as `strings.TrimSpace` does |
| Uoj.GenerateErrorResult | adapters/judgers/uoj/uoj.go:135-150 | an error result has score 0, status "Judge Error", zero metrics, the short message, the error details and the error itself |
| Uoj.TestsToJob | adapters/judgers/uoj/uoj.go:107-133 | the job loop builds the subtask job the specification defines |
| Uoj.SubtaskJob | adapters/judgers/uoj/uoj.go:107-133 | a subtask without a full-score key is an error naming it, and an unparsable full score is the parse error; otherwise the job is named after the subtask, keeps its status, has its full score as scale, its score scaled to 100 by that full score, one entry per test in order, and an empty summary |
| Uoj.SubtaskJobsInOrder | adapters/judgers/uoj/uoj.go:183-189 | without error, there is one job per subtask, in order |
| Uoj.SubtaskJobsFirstError | adapters/judgers/uoj/uoj.go:183-189 | an error is the first failing subtask's error |
| Uoj.SubtaskJobsLoop | adapters/judgers/uoj/uoj.go:183-189 | the loop over the subtasks stops at the first error and otherwise gives all the jobs |
| Uoj.VerdictFirstFailure | adapters/judgers/uoj/uoj.go:215-219 | the verdict is accepted exactly when every status is accepted; otherwise it is the first status that is not |
| Uoj.DefaultEntry | adapters/judgers/uoj/uoj.go:199-211 | a test entry keeps the test's name and its normalised status |
| Uoj.DefaultJobOf | adapters/judgers/uoj/uoj.go:190-214 | the default job is named "Default", carries the result's score out of 100, has the verdict of the tests' statuses and one entry per test, in order, and an empty summary |
| Uoj.DefaultJob | adapters/judgers/uoj/uoj.go:190-214 | the default job built test by test is exactly `DefaultJobOf` |
| Uoj.DefaultStatusIsVerdict | adapters/judgers/uoj/uoj.go:199-205 | the default job's status is the verdict of its tests' statuses |
| Uoj.OverallStatus | adapters/judgers/uoj/uoj.go:215-219 | the overall status is the verdict over the jobs' statuses |
| Uoj.ResultJobs | adapters/judgers/uoj/uoj.go:183-214 | the jobs are the subtasks' first error, or exactly the subtasks' jobs in order followed by the default job when there are top-level tests |
| Uoj.ReadResult | adapters/judgers/uoj/uoj.go:152-222 | an unreadable or undecodable result and a failing subtask become error results; a judger error keeps empty details and names the status; otherwise the result carries the total score, time and memory, the overall status of the jobs, and exactly the subtasks' jobs followed by the default job |
| Uoj.ExtraTestPassedAccepted | adapters/judgers/uoj/uoj.go:200-205 | the tests' verdict is accepted exactly when every test is accepted or passed an extra test |
| Uoj.Language | adapters/judgers/uoj/uoj.go:275-283 | the language is always one UOJ knows; a known configured language is kept; anything else defaults to C++14 |
| Uoj.SubmissionConf | adapters/judgers/uoj/uoj.go:285 | the submission configuration names a language UOJ knows |
| Vjudge.SignatureIdentifies | adapters/judgers/vjudge/utils.go:11-29 | each status key is recovered from its signature |
| Vjudge.MatchUnique | adapters/judgers/vjudge/utils.go:11-29 | a status matches at most one key of the table |
| Vjudge.KeysPrefixFree | adapters/judgers/vjudge/utils.go:11-29 | no key of the table is a case-insensitive prefix of another, so the iteration order does not matter |
| Vjudge.MappedStatusFacts | adapters/judgers/vjudge/utils.go:31-41 | a status is mapped through the key it starts with, and to "Judge Error" when none matches |
| Vjudge.GetMappedStatus | adapters/judgers/vjudge/utils.go:31-41 | the loop over the table, in any order, gives the mapped status |
| Vjudge.FindPair | adapters/judgers/vjudge/utils.go:44-45 | a pair found is two well-formed decimals written as `a / b` inside the text |
| Vjudge.Clamp | adapters/judgers/vjudge/utils.go:57 | the ratio is clamped into 0..1 and kept when already there |
| Vjudge.Percentage | adapters/judgers/vjudge/utils.go:57 | the percentage lies in 0..100, is the ratio times 100 for a score within the total, and is 100 at or above it |
| Vjudge.ParseScore | adapters/judgers/vjudge/utils.go:43-59 | the score always lies in 0..100 |
| Vjudge.NoPairNoScore | adapters/judgers/vjudge/utils.go:44-48 | text without a pair scores 0 |
| Vjudge.PairIsFound | adapters/judgers/vjudge/utils.go:44-48 | text containing a pair has a pair found |
| Vjudge.ScoreRoundTrip | adapters/judgers/vjudge/utils.go:43-58 | a written `a / b` at the start of the text scores the percentage of a over b |
| Vjudge.GenerateVjMd | adapters/judgers/vjudge/utils.go:61-88 | the markdown opens with the table of the solution, closes with the fenced code, and holds the additional information in between only when there is some |
| Vjudge.MdDeterminesInfo | adapters/judgers/vjudge/utils.go:78-80 | the additional information can be told apart from the markdown: two solutions differing only there give different markdown |
| Vjudge.FindUrl | adapters/judgers/vjudge/vjudge.go:124-135 | a URL found has a numeric id and a word share code |
| Vjudge.UrlRoundTrip | adapters/judgers/vjudge/vjudge.go:124-135 | the id and share code of a solution URL are found back |
| Vjudge.GetUserId | adapters/judgers/vjudge/vjudge.go:79-93 | a page error is passed on; a user id found is a UUID after the marker in the page; otherwise parsing fails |
| Vjudge.UserIdRoundTrip | adapters/judgers/vjudge/vjudge.go:79-93 | the UUID after the marker is found back |
| Vjudge.Judge | adapters/judgers/vjudge/vjudge.go:95-169 | every failure returns an error without calls; a user mismatch is an error; a synced solution sends its result and markdown details; with no `userId` in the environment it always fails |
| Vjudge.FailureText | judge/error.go:21-23 | a judge error's text is its message |

## Left out

- Goroutines, channels, timers and the timer's stop and drain: concurrent activities are
  sequences of rounds and the cancellations are inputs. The report reader is taken to
  finish before the post-run shaping.
- Subprocesses (bwrap, deno, glue scripts, docker compose) and the file system: what
  they return is a parameter.
- JSON, XML and YAML decoding, `strconv.ParseFloat`, SHA-256, time formatting and the
  regular expressions other than the score, URL and user id scans: these are
  function-valued parameters.
- The HTTP transport, the command-line and configuration wiring, and logging.
- Floating point: scores are reals. NaN and infinities are not modelled.
- Vjudge.ParseScore, Vjudge.Percentage: a pair `0 / 0` gives 0, where Go's division gives NaN.
- Uoj.SubtaskJob: a full score of 0 gives a scaled score of 0, where Go's division gives NaN or an infinity.
- Sandbox.FinishRun, Sandbox.FinishCalls: `json.Unmarshal` merges the details file into the details already
  held. The model replaces them with what the file decodes to.
- Vjudge.MappedStatusFacts, Vjudge.GetMappedStatus: `strings.ToLower` is modelled on ASCII letters only, and the
  prefix is compared by characters rather than bytes.
- Compose.Rewritten: a service named "" is not considered.
- Registry.InstanceRegistry.GetAdapterNames: the order of the names is left open, as Go's
  map iteration leaves it.
- The ranker: its poll is taken as an input, and it is not modelled beyond the shared poll loop.
- The uoj adapter's bwrap run and file preparation (adapters/judgers/uoj/uoj.go:232-323)
  beyond reading the result and choosing the language.
- Report.CommittedScoresInRange: Go's `strconv.ParseFloat` accepts "NaN", and NaN fails
  both `< 0` and `> 100`, so a `score=NaN` line is committed as is. Scores here are reals,
  so the range holds only for scores that are numbers.
- Report.ReportHandler: `bufio.Reader.ReadLine` returns a line longer than its 4096-byte
  buffer in pieces and the flag that says so is ignored, so such a line is handled as
  several lines. The model takes each report line whole.
- Storage.PathsDisjoint, Storage.CacheFileInjective: `filepath.Join` cleans its result,
  and `Join` here is plain concatenation. The two lemmas therefore hold in Go only for
  hashes that are plain names (no `/`, not empty, not `.` or `..`), as a hex SHA-256
  digest is; the server's hash is used in the cache path before any digest is compared,
  and a hash such as `../x` would leave the cache directory. The same holds for the
  script and `run.sh` paths the sandbox adapters join.
- Storage.Store.DownloadFile: the errors of rewinding the temporary file and of reading
  it back for the digest (storage/download.go:77-86) are not modelled; a fetched file
  always reaches the digest comparison.
- A call made under `NoTask` is recorded as an ordinary call. The client's solution-task
  context loader is not part of this model; if it asserts the context's type as
  `LoadInstanceTask` does (client/instance.go:27), Go panics there instead
  (`Parallel.FailedClaimCompletedWithoutTask`).
- Parallel.EachClaimSettledOnce: the corrected poller still does not complete a task
  whose claim failed in transport, since the source gives no task to complete.

## Findings

| source | as written | input that shows it | evidently intended | confidence | as-written member | corrected member |
|---|---|---|---|---|---|---|
| adapters/judgers/flag/flag.go:61-71 | after reporting an answer file that is not valid JSON, `Judge` does not return and goes on to compare the flag | no flag configured, `answer.json` holding `not json`: "Wrong Answer" then "Accepted" | report the invalid answer once and stop | high, not executed | Flag.InvalidAnswerAccepted | Flag.Judge |
| judge/parallel.go:29-37 | a claimed task whose adapter is not registered is patched and then dropped: it is neither queued nor completed | a poll returning a task with adapter `nosuch` and a successful patch | complete the task as failed | high, not executed | Parallel.UnknownAdapterClaimLost | Parallel.EachClaimSettledOnce |
| judge/parallel.go:87-108 | a poll that fails after claiming a task is settled with the poller's own context, which names no task, so the details, the "Error" patch and the completion are not about the claimed task (or the context lookup fails) | a poll claiming a task with a non-empty `errMsg` | settle the error under the claimed task's context | medium (the solution-task context loader is not part of this model), not executed | Parallel.FailedClaimCompletedWithoutTask | Parallel.EachClaimSettledOnce |
| instancer/instancer.go:60-68 | the docker adapter completes the task itself and returns no error, so the instancer completes it a second time, as succeeded | a start whose `docker compose up` fails: completed failed, then succeeded | complete the task once, with the adapter's outcome | high, not executed | Docker.StartCompletedTwice | Docker.FixedStartCompletesOnce |
| adapters/instancers/docker/compose.go:92-98 | the caddy network is updated on a copy taken out of the project's network map, so the change is lost | a project with a `caddy` network that is not external | mark the project's caddy network external under the configured network name (`caddy` by default) | medium (the compose library's types are not part of this model), not executed | Compose.NetworkUpdateLost | Compose.NetworkUpdateKept |
