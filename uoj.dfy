/** The UOJ judger adapter (adapters/judgers/uoj/uoj.go): reading `problem.conf`,
    turning the judger's XML result into the server's result snapshot and details, and
    formatting errors. The XML decoding is an input (the decoded record, or none when it
    failed); so is `strconv.ParseFloat`, and so is `fmt.Sprint` of the decoded time and
    memory floats, which a test record carries as text. */
module Uoj {
  import opened Base
  import opened Common

  // ---------------------------------------------------------------------------------
  // problem.conf

  /** `strings.Split(s, sep)` for a one-character separator. */
  function Split(s: string, sep: char): (parts: seq<string>)
    ensures |parts| >= 1
    ensures forall i :: 0 <= i < |parts| ==> sep !in parts[i]
    decreases |s|
  {
    match IndexOf(s, sep)
    case None => [s]
    case Some(i) => [s[..i]] + Split(s[i + 1..], sep)
  }

  /** `strings.Join(parts, sep)`. */
  function JoinWith(parts: seq<string>, sep: char): string
    requires |parts| >= 1
  {
    if |parts| == 1 then parts[0] else parts[0] + [sep] + JoinWith(parts[1..], sep)
  }

  /** Splitting loses nothing: joining the parts back gives the text. */
  lemma {:induction false} JoinSplit(s: string, sep: char)
    ensures JoinWith(Split(s, sep), sep) == s
    decreases |s|
  {
    match IndexOf(s, sep)
    case None =>
    case Some(i) =>
      JoinSplit(s[i + 1..], sep);
      assert Split(s, sep)[1..] == Split(s[i + 1..], sep);
      assert s == s[..i] + [sep] + s[i + 1..];
  }

  /** And splitting a join of separator-free parts gives the parts back. */
  /** Text without `sep`, then `sep`: the text is the first part. */
  lemma SplitAtFirst(a: string, sep: char, b: string)
    requires sep !in a
    ensures Split(a + [sep] + b, sep) == [a] + Split(b, sep)
  {
    var s := a + [sep] + b;
    IndexOfSplit(a, sep, b);
    assert s[..|a|] == a && s[|a| + 1..] == b;
  }

  lemma {:induction false} SplitJoin(parts: seq<string>, sep: char)
    requires |parts| >= 1 && forall i :: 0 <= i < |parts| ==> sep !in parts[i]
    ensures Split(JoinWith(parts, sep), sep) == parts
  {
    if |parts| > 1 {
      var rest := JoinWith(parts[1..], sep);
      assert JoinWith(parts, sep) == parts[0] + [sep] + rest;
      SplitJoin(parts[1..], sep);
      SplitAtFirst(parts[0], sep, rest);
      assert parts == [parts[0]] + parts[1..];
    } else {
      assert IndexOf(parts[0], sep).None?;
    }
  }

  /** What `strings.Cut` returns. */
  datatype Cut = Cut(before: string, after: string, found: bool)

  /** `strings.Cut(s, sep)`: the text around the first `sep`. */
  function CutAt(s: string, sep: char): (c: Cut)
    ensures c.found ==> s == c.before + [sep] + c.after && sep !in c.before
    ensures !c.found ==> sep !in s && c == Cut(s, "", false)
  {
    match IndexOf(s, sep)
    case None => Cut(s, "", false)
    case Some(i) =>
      assert s == s[..i] + [sep] + s[i + 1..];
      Cut(s[..i], s[i + 1..], true)
  }

  /** Each line cut at its first space. */
  function Cuts(lines: seq<string>): seq<Cut> {
    seq(|lines|, i requires 0 <= i < |lines| => CutAt(lines[i], ' '))
  }

  /** The cut line sets `key`: the line holds a space and `key` is the text before it. */
  predicate Sets(c: Cut, key: string) {
    c.found && c.before == key
  }

  /** The settings the cut lines give, one per line holding a space, a later line
      winning. */
  function Settings(cuts: seq<Cut>): map<string, string> {
    if |cuts| == 0 then map[]
    else
      var m := Settings(cuts[..|cuts| - 1]);
      var c := cuts[|cuts| - 1];
      if c.found then m[c.before := c.after] else m
  }

  /** One more line adds its setting, if it has one. */
  lemma SettingsStep(cuts: seq<Cut>, i: nat)
    requires i < |cuts|
    ensures Settings(cuts[..i + 1]) ==
      if cuts[i].found then Settings(cuts[..i])[cuts[i].before := cuts[i].after] else Settings(cuts[..i])
  {
    assert cuts[..i + 1][..i] == cuts[..i];
  }

  /** The line that last sets a key. */
  predicate LastSets(cuts: seq<Cut>, i: int, k: string) {
    0 <= i < |cuts| && Sets(cuts[i], k) && forall j :: i < j < |cuts| ==> !Sets(cuts[j], k)
  }

  /** A key is set exactly when some line sets it. */
  lemma {:induction false} SettingsKeys(cuts: seq<Cut>)
    ensures forall k :: k in Settings(cuts) <==> exists i :: 0 <= i < |cuts| && Sets(cuts[i], k)
  {
    if |cuts| > 0 {
      var init := cuts[..|cuts| - 1];
      var n := |cuts| - 1;
      SettingsKeys(init);
      forall k ensures k in Settings(cuts) <==> exists i :: 0 <= i < |cuts| && Sets(cuts[i], k) {
        if i :| 0 <= i < |cuts| && Sets(cuts[i], k) {
          if i < n { assert init[i] == cuts[i]; }
        }
        if k in Settings(init) {
          var i :| 0 <= i < |init| && Sets(init[i], k);
          assert cuts[i] == init[i];
        }
      }
    }
  }

  /** A key that is set holds what the last line setting it says. */
  lemma {:induction false} SettingsLastWins(cuts: seq<Cut>, k: string)
    requires k in Settings(cuts)
    ensures exists i :: LastSets(cuts, i, k) && Settings(cuts)[k] == cuts[i].after
  {
    var init := cuts[..|cuts| - 1];
    var n := |cuts| - 1;
    if Sets(cuts[n], k) {
      assert LastSets(cuts, n, k);
    } else {
      SettingsLastWins(init, k);
      var i :| LastSets(init, i, k) && Settings(init)[k] == init[i].after;
      assert cuts[i] == init[i];
      forall j | i < j < |cuts| ensures !Sets(cuts[j], k) {
        if j < n { assert cuts[j] == init[j]; }
      }
      assert LastSets(cuts, i, k);
    }
  }

  /** The `parseProblemConf` loop: each line holding a space sets the key before it to
      the text after it, a later line winning. */
  method SettingsLoop(lines: seq<string>) returns (result: map<string, string>)
    ensures result == Settings(Cuts(lines))
  {
    ghost var cuts := Cuts(lines);
    result := map[];
    var i := 0;
    while i < |lines|
      invariant 0 <= i <= |lines|
      invariant result == Settings(cuts[..i])
    {
      var c := CutAt(lines[i], ' ');
      assert c == cuts[i];
      SettingsStep(cuts, i);
      if c.found {
        result := result[c.before := c.after];
      }
      i := i + 1;
    }
    assert cuts[..|lines|] == cuts;
  }

  /** `parseProblemConf`, given what reading the file returned. */
  method ParseProblemConf(file: Result<string>) returns (r: Result<map<string, string>>)
    ensures file.Err? ==> r == Err(file.error)
    ensures file.Ok? ==> r == Ok(Settings(Cuts(Split(file.value, '\n'))))
  {
    if file.Err? {
      return Err(file.error);
    }
    var result := SettingsLoop(Split(file.value, '\n'));
    return Ok(result);
  }

  // ---------------------------------------------------------------------------------
  // Error formatting

  /** `toCodeBlock`: the value fenced as a Markdown code block. */
  function ToCodeBlock(v: string): (r: string)
    ensures |r| == |v| + 8 && HasPrefix(r, "```\n") && HasSuffix(r, "\n```") && r[4..|r| - 4] == v
  {
    "```\n" + v + "\n```"
  }

  /** `errorDetails`: nothing without an error, else a heading over the fenced error. */
  function ErrorDetails(err: Option<string>): (r: string)
    ensures err.None? <==> r == ""
    ensures err.Some? ==> HasPrefix(r, "Error Details:\n\n") && r[16..] == ToCodeBlock(err.value)
  {
    if err.None? then "" else "Error Details:\n\n" + ToCodeBlock(err.value)
  }

  /** The text before the first `c`, or all of it. */
  function Before(s: string, c: char): (r: string)
    ensures c !in r && HasPrefix(s, r)
    ensures c in s ==> |r| < |s| && s[|r|] == c
  {
    var cut := CutAt(s, c);
    assert s[..|cut.before|] == cut.before;
    cut.before
  }

  /** `errorMsg`: nothing without an error, else the error's text up to its first ':',
      without surrounding white space. */
  function ErrorMsg(err: Option<string>): (r: string)
    ensures err.None? ==> r == ""
    ensures ':' !in r
    ensures err.Some? ==> Contains(err.value, r)
    ensures err.Some? && ':' !in err.value ==> r == TrimSpace(err.value)
  {
    if err.None? then ""
    else
      var head := Before(err.value, ':');
      var r := TrimSpace(head);
      InfixWithout(head, r, ':');
      InfixOfPrefix(err.value, head, r);
      assert ':' !in err.value ==> head == err.value by {
        if ':' !in err.value { assert CutAt(err.value, ':').before == err.value; }
      }
      r
  }

  /** Non-ASCII white space is trimmed too: a no-break space before the error and an
      ideographic space after it leave the bare message. */
  lemma UnicodeSpaceTrimmed()
    ensures ErrorMsg(Some("\U{00A0}bad\U{3000}")) == "bad"
  {
    var e := "\U{00A0}bad\U{3000}";
    var t := "bad\U{3000}";
    assert ':' !in e by {
      assert e == ['\U{00A0}', 'b', 'a', 'd', '\U{3000}'];
    }
    assert IsSpace(e[0]) && e[1..] == t && !IsSpace(t[0]);
    assert TrimLeft(e) == t;
    assert IsSpace(t[3]) && t[..3] == "bad" && !IsSpace('d');
    assert TrimRight(t) == "bad";
    assert TrimSpace(e) == "bad";
  }

  /** An infix of a text without `c` has no `c`. */
  lemma InfixWithout(s: string, t: string, c: char)
    requires Contains(s, t) && c !in s
    ensures c !in t
  {
    var i :| 0 <= i <= |s| && InfixAt(s, t, i);
    assert t == s[i..i + |t|];
  }

  /** An infix of a prefix is an infix of the whole. */
  lemma InfixOfPrefix(s: string, p: string, t: string)
    requires HasPrefix(s, p) && Contains(p, t)
    ensures Contains(s, t)
  {
    var i :| 0 <= i <= |p| && InfixAt(p, t, i);
    assert s[i..i + |t|] == p[i..i + |t|];
    assert InfixAt(s, t, i);
  }

  /** `GenerateErrorResult`: a zero-score "Judge Error" snapshot with zero metrics, the
      error's head as the message, nil jobs, and the error passed on. */
  function GenerateErrorResult(err: string): (r: (SolutionInfo, SolutionDetails, Option<string>))
    ensures r.0.score == 0.0 && r.0.status == "Judge Error" && r.0.metrics == Some(map["cpu" := 0.0, "mem" := 0.0])
    ensures r.0.message == ErrorMsg(Some(err)) && ':' !in r.0.message
    ensures r.1 == SolutionDetails(Some(1), None, ErrorDetails(Some(err))) && r.1.summary != ""
    ensures r.2 == Some(err)
  {
    (SolutionInfo(0.0, Some(map["cpu" := 0.0, "mem" := 0.0]), "Judge Error", ErrorMsg(Some(err))),
     SolutionDetails(Some(1), None, ErrorDetails(Some(err))),
     Some(err))
  }

  // ---------------------------------------------------------------------------------
  // The judger's result

  /** A `<test>` of the result. `time` and `memory` are the floats as `fmt.Sprint`
      prints them. */
  datatype UojTest = UojTest(num: int, score: real, info: string, time: string, memory: string,
                             input: string, output: string, res: string)

  /** A `<subtask>` of the result. */
  datatype Subtask = Subtask(num: int, score: real, info: string, tests: seq<UojTest>)

  /** The decoded `<result>`. */
  datatype UojResult = UojResult(score: real, time: real, memory: real, error: string,
                                 tests: seq<UojTest>, subtasks: seq<Subtask>)

  /** A test as reported: its number, score and status, and a summary with its time,
      memory, input, output and judger output. */
  function TestEntry(t: UojTest): Test {
    Test("Test " + IntToString(t.num), t.score, t.info,
         "Time: `" + t.time + "`\tMemory: `" + t.memory + "`\n\nInput:\n\n" + ToCodeBlock(t.input)
         + "\n\nOutput:\n\n" + ToCodeBlock(t.output) + "\n\nResult:\n\n" + ToCodeBlock(t.res))
  }

  /** The `problem.conf` key holding a subtask's full score. */
  function ScoreKey(num: int): string {
    "subtask_score_" + IntToString(num)
  }

  /** A subtask's score on the 0-100 scale. Go divides floats, so a zero full score gives
      an infinite or undefined score; here it gives 0. */
  function Scaled(score: real, scale: real): real {
    if scale == 0.0 then 0.0 else score / scale * 100.0
  }

  /** The job of a subtask whose full score is `scale`. */
  function ScoredJob(s: Subtask, scale: real): Job {
    Job("Subtask " + IntToString(s.num), Scaled(s.score, scale), scale, s.info,
        seq(|s.tests|, i requires 0 <= i < |s.tests| => TestEntry(s.tests[i])), "")
  }

  /** `testsToJob`: a subtask as a job, or the error when its full score is not in the
      configuration or does not parse. */
  function SubtaskJob(s: Subtask, conf: map<string, string>, parseFloat: string -> Result<real>): (r: Result<Job>)
    ensures ScoreKey(s.num) !in conf ==> r == Err("Subtask " + IntToString(s.num) + " not found in conf")
    ensures r.Ok? <==> ScoreKey(s.num) in conf && parseFloat(conf[ScoreKey(s.num)]).Ok?
    ensures r.Ok? ==> (r.value.name == "Subtask " + IntToString(s.num) && r.value.status == s.info
      && r.value.scoreScale == parseFloat(conf[ScoreKey(s.num)]).value
      && r.value.score == Scaled(s.score, r.value.scoreScale) && r.value.summary == ""
      && |r.value.tests| == |s.tests| && forall i :: 0 <= i < |s.tests| ==> r.value.tests[i] == TestEntry(s.tests[i]))
  {
    var key := ScoreKey(s.num);
    if key !in conf then Err("Subtask " + IntToString(s.num) + " not found in conf")
    else match parseFloat(conf[key])
      case Err(e) => Err(e)
      case Ok(scale) => Ok(ScoredJob(s, scale))
  }

  /** `testsToJob`, building the tests one by one. */
  method TestsToJob(s: Subtask, conf: map<string, string>, parseFloat: string -> Result<real>) returns (r: Result<Job>)
    ensures r == SubtaskJob(s, conf, parseFloat)
  {
    var key := ScoreKey(s.num);
    if key !in conf {
      return Err("Subtask " + IntToString(s.num) + " not found in conf");
    }
    var scale := parseFloat(conf[key]);
    if scale.Err? {
      return Err(scale.error);
    }
    var tests := [];
    var i := 0;
    while i < |s.tests|
      invariant 0 <= i <= |s.tests| && |tests| == i
      invariant forall j :: 0 <= j < i ==> tests[j] == TestEntry(s.tests[j])
    {
      tests := tests + [TestEntry(s.tests[i])];
      i := i + 1;
    }
    var job := Job("Subtask " + IntToString(s.num), Scaled(s.score, scale.value), scale.value, s.info, tests, "");
    assert job == ScoredJob(s, scale.value);
    return Ok(job);
  }

  /** The results of `f` over `xs`, in order, or the first error. */
  function Collect<A, B>(xs: seq<A>, f: A -> Result<B>): Result<seq<B>> {
    if |xs| == 0 then Ok([])
    else match Collect(xs[..|xs| - 1], f)
      case Err(e) => Err(e)
      case Ok(ys) =>
        match f(xs[|xs| - 1])
        case Err(e) => Err(e)
        case Ok(y) => Ok(ys + [y])
  }

  /** Without an error, the results are those of the elements, in order. */
  lemma {:induction false} CollectInOrder<A, B>(xs: seq<A>, f: A -> Result<B>)
    requires Collect(xs, f).Ok?
    ensures |Collect(xs, f).value| == |xs|
    ensures forall i :: 0 <= i < |xs| ==> f(xs[i]) == Ok(Collect(xs, f).value[i])
  {
    if |xs| > 0 {
      var init := xs[..|xs| - 1];
      CollectInOrder(init, f);
      assert forall i :: 0 <= i < |init| ==> init[i] == xs[i];
    }
  }

  /** Otherwise the error is that of the first element that fails. */
  lemma {:induction false} CollectFirstError<A, B>(xs: seq<A>, f: A -> Result<B>)
    requires Collect(xs, f).Err?
    ensures exists i :: (0 <= i < |xs| && f(xs[i]) == Err(Collect(xs, f).error)
      && forall j :: 0 <= j < i ==> f(xs[j]).Ok?)
  {
    var init := xs[..|xs| - 1];
    assert forall i :: 0 <= i < |init| ==> init[i] == xs[i];
    if Collect(init, f).Err? {
      CollectFirstError(init, f);
    } else {
      CollectInOrder(init, f);
      assert f(xs[|init|]).Err?;
    }
  }

  /** The results up to `i`, one more than those up to `i - 1`. */
  lemma CollectStep<A, B>(xs: seq<A>, i: nat, f: A -> Result<B>)
    requires i < |xs|
    ensures Collect(xs[..i + 1], f)
         == match Collect(xs[..i], f)
            case Err(e) => Err(e)
            case Ok(ys) =>
              match f(xs[i])
              case Err(e) => Err(e)
              case Ok(y) => Ok(ys + [y])
  {
    assert xs[..i + 1][..i] == xs[..i] && xs[..i + 1][i] == xs[i];
  }

  /** Once the elements up to `k` fail, the later ones do not change the error. */
  /** A successful element extends the results so far. */
  lemma CollectSnoc<A, B>(xs: seq<A>, i: nat, f: A -> Result<B>, ys: seq<B>)
    requires i < |xs| && Collect(xs[..i], f) == Ok(ys) && f(xs[i]).Ok?
    ensures Collect(xs[..i + 1], f) == Ok(ys + [f(xs[i]).value])
  {
    CollectStep(xs, i, f);
  }

  /** The first failing element's error is the whole result. */
  lemma CollectFails<A, B>(xs: seq<A>, i: nat, f: A -> Result<B>)
    requires i < |xs| && Collect(xs[..i], f).Ok? && f(xs[i]).Err?
    ensures Collect(xs, f) == Err(f(xs[i]).error)
  {
    CollectStep(xs, i, f);
    CollectErrorStays(xs, i + 1, f);
  }

  lemma {:induction false} CollectErrorStays<A, B>(xs: seq<A>, k: nat, f: A -> Result<B>)
    requires k <= |xs| && Collect(xs[..k], f).Err?
    ensures Collect(xs, f) == Collect(xs[..k], f)
    decreases |xs| - k
  {
    if k < |xs| {
      assert xs[..k + 1][..k] == xs[..k];
      CollectErrorStays(xs, k + 1, f);
    } else {
      assert xs[..k] == xs;
    }
  }

  /** The subtasks' jobs in order, or the first subtask's error. */
  function SubtaskJobs(subtasks: seq<Subtask>, conf: map<string, string>, parseFloat: string -> Result<real>): Result<seq<Job>> {
    Collect(subtasks, s => SubtaskJob(s, conf, parseFloat))
  }

  /** When every subtask has its job, the jobs are those of the subtasks, in order. */
  lemma SubtaskJobsInOrder(subtasks: seq<Subtask>, conf: map<string, string>, parseFloat: string -> Result<real>)
    requires SubtaskJobs(subtasks, conf, parseFloat).Ok?
    ensures var jobs := SubtaskJobs(subtasks, conf, parseFloat).value;
      |jobs| == |subtasks| && forall i :: 0 <= i < |subtasks| ==> SubtaskJob(subtasks[i], conf, parseFloat) == Ok(jobs[i])
  {
    CollectInOrder(subtasks, s => SubtaskJob(s, conf, parseFloat));
  }

  /** Otherwise the error is that of the first subtask that fails. */
  lemma SubtaskJobsFirstError(subtasks: seq<Subtask>, conf: map<string, string>, parseFloat: string -> Result<real>)
    requires SubtaskJobs(subtasks, conf, parseFloat).Err?
    ensures exists i :: (0 <= i < |subtasks| && SubtaskJob(subtasks[i], conf, parseFloat) == Err(SubtaskJobs(subtasks, conf, parseFloat).error)
      && forall j :: 0 <= j < i ==> SubtaskJob(subtasks[j], conf, parseFloat).Ok?)
  {
    CollectFirstError(subtasks, s => SubtaskJob(s, conf, parseFloat));
  }

  /** The status of a run of results: "Accepted" until the first other status, which
      then stays. */
  function Verdict(statuses: seq<string>): string {
    if |statuses| == 0 then "Accepted"
    else if statuses[0] != "Accepted" then statuses[0]
    else Verdict(statuses[1..])
  }

  /** The verdict is "Accepted" exactly when every status is, and otherwise the first
      status that is not. */
  lemma {:induction false} VerdictFirstFailure(statuses: seq<string>)
    ensures Verdict(statuses) == "Accepted" <==> forall i :: 0 <= i < |statuses| ==> statuses[i] == "Accepted"
    ensures Verdict(statuses) != "Accepted" ==> exists i :: (0 <= i < |statuses| && statuses[i] == Verdict(statuses)
      && forall j :: 0 <= j < i ==> statuses[j] == "Accepted")
  {
    if |statuses| > 0 {
      VerdictFirstFailure(statuses[1..]);
      assert forall i :: 1 <= i < |statuses| ==> statuses[1..][i - 1] == statuses[i];
      if statuses[0] == "Accepted" && Verdict(statuses) != "Accepted" {
        var i :| 0 <= i < |statuses[1..]| && statuses[1..][i] == Verdict(statuses)
          && forall j :: 0 <= j < i ==> statuses[1..][j] == "Accepted";
        assert statuses[i + 1] == Verdict(statuses);
      }
    }
  }

  /** A test's status as the default job reports it: "Extra Test Passed" is "Accepted". */
  function Normalized(t: UojTest): UojTest {
    if t.info == "Extra Test Passed" then t.(info := "Accepted") else t
  }

  /** A top-level test as the default job reports it. */
  function DefaultEntry(t: UojTest): (e: Test)
    ensures e.status == Normalized(t).info && e.name == TestEntry(t).name
  {
    TestEntry(Normalized(t))
  }

  /** The statuses of tests as the default job counts them. */
  function TestStatuses(tests: seq<UojTest>): (s: seq<string>)
    ensures |s| == |tests| && forall i :: 0 <= i < |tests| ==> s[i] == Normalized(tests[i]).info
  {
    seq(|tests|, i requires 0 <= i < |tests| => Normalized(tests[i]).info)
  }

  /** The verdict from position `i` on. */
  lemma VerdictStep(statuses: seq<string>, i: nat)
    requires i < |statuses|
    ensures Verdict(statuses[i..]) == if statuses[i] != "Accepted" then statuses[i] else Verdict(statuses[i + 1..])
  {
    assert statuses[i..][0] == statuses[i] && statuses[i..][1..] == statuses[i + 1..];
  }

  /** The status kept so far, or `info` when it is the first that is not "Accepted". */
  function FirstFailure(status: string, info: string): string {
    if status == "Accepted" && info != "Accepted" then info else status
  }

  /** The default job's status: the tests scanned from the front with `FirstFailure`. */
  function DefaultStatus(tests: seq<UojTest>): string {
    if |tests| == 0 then "Accepted"
    else FirstFailure(DefaultStatus(tests[..|tests| - 1]), Normalized(tests[|tests| - 1]).info)
  }

  lemma DefaultStatusStep(tests: seq<UojTest>, i: nat)
    requires i < |tests|
    ensures DefaultStatus(tests[..i + 1]) == FirstFailure(DefaultStatus(tests[..i]), Normalized(tests[i]).info)
  {
    assert tests[..i + 1][..i] == tests[..i];
  }

  /** Appending a status to a verdict that is still "Accepted" lets it decide. */
  lemma {:induction false} VerdictSnoc(statuses: seq<string>, x: string)
    ensures Verdict(statuses + [x]) == FirstFailure(Verdict(statuses), x)
  {
    if |statuses| > 0 {
      assert (statuses + [x])[1..] == statuses[1..] + [x];
      VerdictSnoc(statuses[1..], x);
    }
  }

  /** Scanning the tests from the front gives the verdict of their statuses. */
  lemma {:induction false} DefaultStatusIsVerdict(tests: seq<UojTest>)
    ensures DefaultStatus(tests) == Verdict(TestStatuses(tests))
  {
    if |tests| > 0 {
      var n := |tests| - 1;
      DefaultStatusIsVerdict(tests[..n]);
      assert TestStatuses(tests) == TestStatuses(tests[..n]) + [Normalized(tests[n]).info];
      VerdictSnoc(TestStatuses(tests[..n]), Normalized(tests[n]).info);
    }
  }

  /** `f` applied to each element of `xs`, appended in order. */
  function MapSeq<A, B>(xs: seq<A>, f: A -> B): (ys: seq<B>)
    ensures |ys| == |xs| && forall j :: 0 <= j < |xs| ==> ys[j] == f(xs[j])
  {
    if |xs| == 0 then [] else MapSeq(xs[..|xs| - 1], f) + [f(xs[|xs| - 1])]
  }

  lemma MapSeqStep<A, B>(xs: seq<A>, f: A -> B, i: nat)
    requires i < |xs|
    ensures MapSeq(xs[..i + 1], f) == MapSeq(xs[..i], f) + [f(xs[i])]
  {
    assert xs[..i + 1][..i] == xs[..i];
  }

  /** The job the result's top-level tests form: named "Default", with the result's
      score out of 100, the verdict of the tests' statuses, and one entry per test. */
  function DefaultJobOf(score: real, tests: seq<UojTest>): (job: Job)
    ensures job.name == "Default" && job.score == score && job.scoreScale == 100.0 && job.summary == ""
    ensures job.status == Verdict(TestStatuses(tests))
    ensures |job.tests| == |tests| && forall i :: 0 <= i < |tests| ==> job.tests[i] == DefaultEntry(tests[i])
  {
    DefaultStatusIsVerdict(tests);
    Job("Default", score, 100.0, DefaultStatus(tests), MapSeq(tests, DefaultEntry), "")
  }

  /** The default job, built test by test. */
  method DefaultJob(score: real, tests: seq<UojTest>) returns (job: Job)
    ensures job == DefaultJobOf(score, tests)
  {
    var status := "Accepted";
    var entries := [];
    var i := 0;
    while i < |tests|
      invariant 0 <= i <= |tests| && |entries| == i
      invariant status == DefaultStatus(tests[..i])
      invariant entries == MapSeq(tests[..i], DefaultEntry)
    {
      var r := Normalized(tests[i]);
      MapSeqStep(tests, DefaultEntry, i);
      DefaultStatusStep(tests, i);
      status := FirstFailure(status, r.info);
      entries := entries + [DefaultEntry(tests[i])];
      i := i + 1;
    }
    assert tests[..i] == tests;
    job := Job("Default", score, 100.0, status, entries, "");
  }

  /** The statuses of jobs. */
  function JobStatuses(jobs: seq<Job>): (s: seq<string>)
    ensures |s| == |jobs| && forall i :: 0 <= i < |jobs| ==> s[i] == jobs[i].status
  {
    seq(|jobs|, i requires 0 <= i < |jobs| => jobs[i].status)
  }

  /** The overall status: the first job that is not accepted decides. */
  method OverallStatus(jobs: seq<Job>) returns (status: string)
    ensures status == Verdict(JobStatuses(jobs))
  {
    status := "Accepted";
    ghost var statuses := JobStatuses(jobs);
    var i := 0;
    while i < |jobs|
      invariant 0 <= i <= |jobs|
      invariant status == "Accepted" ==> Verdict(statuses) == Verdict(statuses[i..])
      invariant status != "Accepted" ==> status == Verdict(statuses)
    {
      VerdictStep(statuses, i);
      if status == "Accepted" && jobs[i].status != "Accepted" {
        status := jobs[i].status;
      }
      i := i + 1;
    }
  }

  /** The `testsToJob` loop over the subtasks: the first failing subtask's error, or
      one job per subtask in order. */
  method SubtaskJobsLoop(subtasks: seq<Subtask>, conf: map<string, string>, parseFloat: string -> Result<real>)
    returns (r: Result<seq<Job>>)
    ensures r == SubtaskJobs(subtasks, conf, parseFloat)
  {
    ghost var f := s => SubtaskJob(s, conf, parseFloat);
    var jobs := [];
    var i := 0;
    while i < |subtasks|
      invariant 0 <= i <= |subtasks|
      invariant Collect(subtasks[..i], f) == Ok(jobs)
    {
      var job := TestsToJob(subtasks[i], conf, parseFloat);
      assert f(subtasks[i]) == job;
      if job.Err? {
        CollectFails(subtasks, i, f);
        return Err(job.error);
      }
      CollectSnoc(subtasks, i, f, jobs);
      jobs := jobs + [job.value];
      i := i + 1;
    }
    assert subtasks[..|subtasks|] == subtasks;
    return Ok(jobs);
  }

  /** The jobs of a result without an error: one per subtask, then a default job when
      there are top-level tests. */
  method ResultJobs(res: UojResult, conf: map<string, string>, parseFloat: string -> Result<real>) returns (r: Result<seq<Job>>)
    ensures SubtaskJobs(res.subtasks, conf, parseFloat).Err? ==> r == Err(SubtaskJobs(res.subtasks, conf, parseFloat).error)
    ensures SubtaskJobs(res.subtasks, conf, parseFloat).Ok? ==> (r.Ok?
      && |r.value| == |res.subtasks| + (if |res.tests| > 0 then 1 else 0)
      && r.value[..|res.subtasks|] == SubtaskJobs(res.subtasks, conf, parseFloat).value
      && (|res.tests| > 0 ==> r.value[|res.subtasks|].status == Verdict(TestStatuses(res.tests))
                              && r.value[|res.subtasks|].name == "Default")
      && r.value == SubtaskJobs(res.subtasks, conf, parseFloat).value
                    + (if |res.tests| > 0 then [DefaultJobOf(res.score, res.tests)] else []))
  {
    var sub := SubtaskJobsLoop(res.subtasks, conf, parseFloat);
    if sub.Err? {
      return Err(sub.error);
    }
    var jobs := sub.value;
    SubtaskJobsInOrder(res.subtasks, conf, parseFloat);
    if |res.tests| > 0 {
      var job := DefaultJob(res.score, res.tests);
      assert (jobs + [job])[..|res.subtasks|] == jobs;
      jobs := jobs + [job];
    }
    return Ok(jobs);
  }

  /** `ReadResult`, given what reading `result.txt` returned (`None` when it could not
      be read) and what decoding it returned (`None` when it was not a result). An
      unreadable or undecodable result, and a subtask whose full score is missing, give
      the error result. Otherwise the snapshot has the result's score, time and memory,
      message "UOJ Judger OK", and the status the judger's error names, or, without one,
      the first job's status that is not "Accepted", else "Accepted". */
  method ReadResult(file: Option<string>, decoded: Option<UojResult>, conf: map<string, string>,
                    parseFloat: string -> Result<real>)
    returns (info: SolutionInfo, details: SolutionDetails, err: Option<string>)
    ensures file.None? ==> (info, details, err) == GenerateErrorResult("failed to read UOJ result")
    ensures file.Some? && decoded.None? ==>
      (info, details, err) == GenerateErrorResult("failed to parse UOJ result:\n\n" + file.value)
    ensures file.Some? && decoded.Some? && decoded.value.error != "" ==>
      var res := decoded.value;
      info == SolutionInfo(res.score, Some(map["cpu" := res.time, "mem" := res.memory]), res.error, "UOJ Judger OK")
      && details == EmptyDetails && err.None?
    ensures file.Some? && decoded.Some? && decoded.value.error == "" ==>
      var res := decoded.value;
      var jobs := SubtaskJobs(res.subtasks, conf, parseFloat);
      (jobs.Err? ==> (info, details, err) == GenerateErrorResult(jobs.error))
      && (jobs.Ok? ==> (err.None? && details.version == Some(1) && details.summary == "" && details.jobs.Some?
           && info == SolutionInfo(res.score, Some(map["cpu" := res.time, "mem" := res.memory]),
                                   Verdict(JobStatuses(details.jobs.value)), "UOJ Judger OK")
           && |details.jobs.value| == |res.subtasks| + (if |res.tests| > 0 then 1 else 0)
           && details.jobs.value[..|res.subtasks|] == jobs.value
           && details.jobs.value == jobs.value + (if |res.tests| > 0 then [DefaultJobOf(res.score, res.tests)] else [])))
  {
    if file.None? {
      var e := GenerateErrorResult("failed to read UOJ result");
      return e.0, e.1, e.2;
    }
    if decoded.None? {
      var e := GenerateErrorResult("failed to parse UOJ result:\n\n" + file.value);
      return e.0, e.1, e.2;
    }
    var res := decoded.value;
    info := SolutionInfo(res.score, Some(map["cpu" := res.time, "mem" := res.memory]), "Accepted", "UOJ Judger OK");
    details := EmptyDetails;
    if res.error != "" {
      info := info.(status := res.error);
      return info, details, None;
    }
    var jobs := ResultJobs(res, conf, parseFloat);
    if jobs.Err? {
      var e := GenerateErrorResult(jobs.error);
      return e.0, e.1, e.2;
    }
    details := details.(jobs := Some(jobs.value));
    var status := OverallStatus(jobs.value);
    info := info.(status := status);
    err := None;
  }

  /** With "Extra Test Passed" counted as "Accepted", the default job is accepted
      exactly when each top-level test is either. */
  lemma ExtraTestPassedAccepted(tests: seq<UojTest>)
    ensures Verdict(TestStatuses(tests)) == "Accepted" <==>
      forall i :: 0 <= i < |tests| ==> tests[i].info == "Accepted" || tests[i].info == "Extra Test Passed"
  {
    var s := TestStatuses(tests);
    VerdictFirstFailure(s);
    if Verdict(s) == "Accepted" {
      forall i | 0 <= i < |tests|
        ensures tests[i].info == "Accepted" || tests[i].info == "Extra Test Passed"
      {
        assert s[i] == "Accepted";
      }
    }
  }

  /** The languages the judger is told about; any other falls back to "C++14". */
  const Languages: seq<string> := ["C++", "C++11", "C++14", "Python2", "Python3"]

  /** The answer language: the one the solution's metadata names when the judger knows
      it, else "C++14". `named` is the metadata's `language`, `None` when the metadata
      file could not be read ("" when it did not decode). */
  function Language(named: Option<string>): (lang: string)
    ensures lang in Languages
    ensures named.Some? && named.value in Languages ==> lang == named.value
    ensures lang != "C++14" ==> named == Some(lang)
  {
    if named.Some? && named.value in Languages then named.value else "C++14"
  }

  /** The `submission.conf` the judger reads. */
  function SubmissionConf(named: Option<string>): (text: string)
    ensures HasPrefix(text, "answer_language ") && text[16..] in Languages
  {
    "answer_language " + Language(named)
  }
}
