/** The progress report stream read by the sandboxed judge adapters (`deno`, `glue`, and
    the legacy `glue`). The reader keeps one accumulated snapshot, changes it line by
    line, and sends the whole snapshot on every `commit` line. The stream is the finite
    sequence of lines read before end of file or a read error; the two decoders it calls
    (`strconv.ParseFloat` and the JSON metrics decoder) are oracles. */
module Report {
  import opened Base
  import opened Common
  import opened KVLine

  datatype Decoders = Decoders(
    parseFloat: string -> Option<real>,
    decodeMetrics: string -> Option<map<string, real>>)

  /** The zero-valued snapshot the reader starts from. */
  const Initial := SolutionInfo(0.0, None, "", "")

  predicate ScoreInRange(s: SolutionInfo) {
    0.0 <= s.score <= 100.0
  }

  /** Keys the reader acts on; any other key is ignored. */
  predicate KnownKey(k: string) {
    k == "score" || k == "status" || k == "message" || k == "metrics" || k == "commit"
  }

  /** A line that makes the reader send the current snapshot. */
  predicate IsCommit(line: string) {
    var p := ParseKVLine(line);
    !p.failed && p.key == "commit"
  }

  /** The snapshot after one parsed line. */
  function ApplyParsed(cur: SolutionInfo, p: Parsed, dec: Decoders): (next: SolutionInfo)
    ensures ScoreInRange(cur) ==> ScoreInRange(next)
    ensures next.score != cur.score ==> ScoreInRange(next)
    ensures p.failed || !KnownKey(p.key) || p.key == "commit" ==> next == cur
  {
    if p.failed then cur
    else if p.key == "score" then
      match dec.parseFloat(p.value)
      case None => cur
      case Some(x) => if x < 0.0 || x > 100.0 then cur else cur.(score := x)
    else if p.key == "status" then cur.(status := p.value)
    else if p.key == "message" then cur.(message := p.value)
    else if p.key == "metrics" then
      match dec.decodeMetrics(p.value)
      case None => cur
      case Some(m) => cur.(metrics := Some(m))
    else cur
  }

  /** The snapshot after reading one line: malformed lines, unknown keys and commits
      leave it as it was. */
  function Apply(cur: SolutionInfo, line: string, dec: Decoders): SolutionInfo {
    ApplyParsed(cur, ParseKVLine(line), dec)
  }

  /** The snapshot after reading all of `lines` from `s`. */
  function Final(s: SolutionInfo, lines: seq<string>, dec: Decoders): SolutionInfo
    decreases |lines|
  {
    if |lines| == 0 then s else Final(Apply(s, lines[0], dec), lines[1..], dec)
  }

  /** The snapshots sent, in stream order, while reading `lines` from `s`. */
  function Committed(s: SolutionInfo, lines: seq<string>, dec: Decoders): seq<SolutionInfo>
    decreases |lines|
  {
    if |lines| == 0 then []
    else (if IsCommit(lines[0]) then [s] else []) + Committed(Apply(s, lines[0], dec), lines[1..], dec)
  }

  /** The number of commit lines in `lines`. */
  function CommitCount(lines: seq<string>): nat {
    if |lines| == 0 then 0 else (if IsCommit(lines[0]) then 1 else 0) + CommitCount(lines[1..])
  }

  /** The reader loop: every commit line sends the current snapshot; a failed send
      is only logged, so the loop goes on either way. */
  method ReportHandler(lines: seq<string>, dec: Decoders) returns (updates: seq<SolutionInfo>)
    ensures updates == Committed(Initial, lines, dec)
  {
    var request := Initial;
    updates := [];
    var i := 0;
    while i < |lines|
      invariant 0 <= i <= |lines|
      invariant updates + Committed(request, lines[i..], dec) == Committed(Initial, lines, dec)
    {
      var sent := if IsCommit(lines[i]) then [request] else [];
      var next := Apply(request, lines[i], dec);
      CommittedStep(request, lines, i, dec);
      SentBefore(updates, sent, Committed(next, lines[i + 1..], dec));
      updates := updates + sent;
      request := next;
      i := i + 1;
    }
    assert lines[i..] == [];
  }

  /** One step of the reader at position `i`. */
  lemma CommittedStep(s: SolutionInfo, lines: seq<string>, i: nat, dec: Decoders)
    requires i < |lines|
    ensures Committed(s, lines[i..], dec)
         == (if IsCommit(lines[i]) then [s] else []) + Committed(Apply(s, lines[i], dec), lines[i + 1..], dec)
  {
    assert lines[i..][0] == lines[i] && lines[i..][1..] == lines[i + 1..];
  }

  lemma SentBefore(updates: seq<SolutionInfo>, sent: seq<SolutionInfo>, rest: seq<SolutionInfo>)
    ensures updates + (sent + rest) == (updates + sent) + rest
  {
  }

  /** Reading `a` then `b` is reading `a + b`. */
  lemma {:induction false} FinalAppend(s: SolutionInfo, a: seq<string>, b: seq<string>, dec: Decoders)
    ensures Final(s, a + b, dec) == Final(Final(s, a, dec), b, dec)
    decreases |a|
  {
    if |a| == 0 {
      assert a + b == b;
    } else {
      assert (a + b)[0] == a[0] && (a + b)[1..] == a[1..] + b;
      FinalAppend(Apply(s, a[0], dec), a[1..], b, dec);
    }
  }

  /** The snapshots sent for `a + b` are those for `a` followed by those for `b`, read
      from the snapshot `a` left behind: updates arrive in stream order and every one
      carries everything set before it. */
  lemma {:induction false} CommittedAppend(s: SolutionInfo, a: seq<string>, b: seq<string>, dec: Decoders)
    ensures Committed(s, a + b, dec) == Committed(s, a, dec) + Committed(Final(s, a, dec), b, dec)
    decreases |a|
  {
    if |a| == 0 {
      assert a + b == b;
    } else {
      assert (a + b)[0] == a[0] && (a + b)[1..] == a[1..] + b;
      CommittedAppend(Apply(s, a[0], dec), a[1..], b, dec);
    }
  }

  /** Exactly one update per commit line. */
  lemma {:induction false} CommittedLength(s: SolutionInfo, lines: seq<string>, dec: Decoders)
    ensures |Committed(s, lines, dec)| == CommitCount(lines)
    decreases |lines|
  {
    if lines != [] {
      CommittedLength(Apply(s, lines[0], dec), lines[1..], dec);
    }
  }

  /** A commit line sends the snapshot built from every line before it. */
  lemma CommitSendsPrefixSnapshot(s: SolutionInfo, lines: seq<string>, j: nat, dec: Decoders)
    requires j < |lines| && IsCommit(lines[j])
    ensures CommitCount(lines[..j]) < |Committed(s, lines, dec)|
         && Committed(s, lines, dec)[CommitCount(lines[..j])] == Final(s, lines[..j], dec)
  {
    assert lines == lines[..j] + lines[j..];
    CommittedAppend(s, lines[..j], lines[j..], dec);
    CommittedLength(s, lines[..j], dec);
  }

  /** Starting from a score in [0, 100], every snapshot sent has a score in [0, 100]. */
  lemma {:induction false} CommittedScoresInRange(s: SolutionInfo, lines: seq<string>, dec: Decoders)
    requires ScoreInRange(s)
    ensures forall u :: u in Committed(s, lines, dec) ==> ScoreInRange(u)
    decreases |lines|
  {
    if lines != [] {
      CommittedScoresInRange(Apply(s, lines[0], dec), lines[1..], dec);
    }
  }

  /** A well-formed `k=v` line is read as the pair `(k, v)`: it is a commit exactly when
      `k` is `commit`. */
  lemma KeyedLine(cur: SolutionInfo, k: string, v: string, dec: Decoders)
    requires '=' !in k
    ensures IsCommit(k + "=" + v) <==> k == "commit"
    ensures Apply(cur, k + "=" + v, dec) == ApplyParsed(cur, Parsed(k, v, false), dec)
  {
    FormatParseRoundTrip(k, v);
  }

  /** A `score` line is kept only when it parses to a number in [0, 100]; otherwise the
      previous score stays. Nothing else changes. */
  lemma ScoreLine(cur: SolutionInfo, v: string, dec: Decoders)
    ensures Apply(cur, "score" + "=" + v, dec) ==
      match dec.parseFloat(v)
      case Some(x) => if 0.0 <= x <= 100.0 then cur.(score := x) else cur
      case None => cur
  {
    KeyedLine(cur, "score", v, dec);
  }

  /** `status` and `message` replace the current text verbatim. */
  lemma TextLines(cur: SolutionInfo, v: string, dec: Decoders)
    ensures Apply(cur, "status" + "=" + v, dec) == cur.(status := v)
    ensures Apply(cur, "message" + "=" + v, dec) == cur.(message := v)
  {
    KeyedLine(cur, "status", v, dec);
    KeyedLine(cur, "message", v, dec);
  }

  /** `metrics` replaces the whole map when it decodes, and is ignored when it does not. */
  lemma MetricsLine(cur: SolutionInfo, v: string, dec: Decoders)
    ensures Apply(cur, "metrics" + "=" + v, dec) ==
      match dec.decodeMetrics(v)
      case Some(m) => cur.(metrics := Some(m))
      case None => cur
  {
    KeyedLine(cur, "metrics", v, dec);
  }

  /** A `commit` line sends the snapshot as it stands and leaves it unchanged, whatever
      follows the `=`. */
  lemma CommitLine(cur: SolutionInfo, v: string, rest: seq<string>, dec: Decoders)
    ensures Committed(cur, ["commit" + "=" + v] + rest, dec) == [cur] + Committed(cur, rest, dec)
  {
    KeyedLine(cur, "commit", v, dec);
    var lines := ["commit" + "=" + v] + rest;
    assert lines[0] == "commit" + "=" + v && lines[1..] == rest;
  }

  /** A well-formed line with any other key sends nothing and moves the snapshot on. */
  lemma NonCommitLine(cur: SolutionInfo, k: string, v: string, rest: seq<string>, dec: Decoders)
    requires '=' !in k && k != "commit"
    ensures Committed(cur, [k + "=" + v] + rest, dec)
         == Committed(ApplyParsed(cur, Parsed(k, v, false), dec), rest, dec)
  {
    KeyedLine(cur, k, v, dec);
    var lines := [k + "=" + v] + rest;
    assert lines[0] == k + "=" + v && lines[1..] == rest;
  }

  /** A score, a status and a commit send the snapshot with both changed. */
  lemma ScoreStatusCommit(s: SolutionInfo, a: string, x: real, st: string, rest: seq<string>, dec: Decoders)
    requires dec.parseFloat(a) == Some(x) && 0.0 <= x <= 100.0
    ensures Committed(s, ["score" + "=" + a, "status" + "=" + st, "commit" + "=" + ""] + rest, dec)
         == [s.(score := x, status := st)] + Committed(s.(score := x, status := st), rest, dec)
  {
    var l1, l2, l3 := "score" + "=" + a, "status" + "=" + st, "commit" + "=" + "";
    var s1, s2 := s.(score := x), s.(score := x, status := st);
    var t3 := [l3] + rest;
    var t2 := [l2] + t3;
    SplitThree(l1, l2, l3, rest);
    NonCommitLine(s, "score", a, t2, dec);
    assert ApplyParsed(s, Parsed("score", a, false), dec) == s1;
    NonCommitLine(s1, "status", st, t3, dec);
    assert ApplyParsed(s1, Parsed("status", st, false), dec) == s2;
    CommitLine(s2, "", rest, dec);
  }

  lemma SplitThree(l1: string, l2: string, l3: string, rest: seq<string>)
    ensures [l1, l2, l3] + rest == [l1] + ([l2] + ([l3] + rest))
  {
  }

  /** Two commits around score and status changes send two full snapshots; message and
      metrics, never set, stay empty in both. */
  lemma TwoCommits(a: string, x: real, st1: string, b: string, y: real, st2: string, dec: Decoders)
    requires dec.parseFloat(a) == Some(x) && 0.0 <= x <= 100.0
    requires dec.parseFloat(b) == Some(y) && 0.0 <= y <= 100.0
    ensures Committed(Initial, ["score" + "=" + a, "status" + "=" + st1, "commit" + "=" + "",
                                "score" + "=" + b, "status" + "=" + st2, "commit" + "=" + ""], dec)
         == [SolutionInfo(x, None, st1, ""), SolutionInfo(y, None, st2, "")]
  {
    var l1, l2, l3 := "score" + "=" + a, "status" + "=" + st1, "commit" + "=" + "";
    var l4, l5 := "score" + "=" + b, "status" + "=" + st2;
    SplitSix(l1, l2, l3, l4, l5, l3);
    ScoreStatusCommit(Initial, a, x, st1, [l4, l5, l3], dec);
    ScoreStatusCommit(SolutionInfo(x, None, st1, ""), b, y, st2, [], dec);
  }

  lemma SplitSix(l1: string, l2: string, l3: string, l4: string, l5: string, l6: string)
    ensures [l1, l2, l3, l4, l5, l6] == [l1, l2, l3] + [l4, l5, l6]
    ensures [l4, l5, l6] == [l4, l5, l6] + []
  {
  }

  /** A bare `commit` has no `=`, so it is a malformed line and sends nothing. */
  lemma BareCommitSendsNothing(s: SolutionInfo, dec: Decoders)
    ensures Committed(s, ["commit"], dec) == []
  {
    assert '=' !in "commit";
  }

  /** An out-of-range score is rejected: the commit after it sends the earlier score. */
  lemma OutOfRangeScoreKept(s: SolutionInfo, a: string, x: real, dec: Decoders)
    requires dec.parseFloat(a) == Some(x) && (x < 0.0 || x > 100.0)
    ensures Committed(s, ["score" + "=" + a, "commit" + "=" + ""], dec) == [s]
  {
    var l1, l2 := "score" + "=" + a, "commit" + "=" + "";
    assert [l1, l2] == [l1] + ([l2] + []);
    NonCommitLine(s, "score", a, [l2], dec);
    CommitLine(s, "", [], dec);
  }
}
