/** The vjudge adapter (adapters/judgers/vjudge): it does not judge, it copies the verdict
    of a solution already judged on vjudge.net. The solution archive names the remote
    solution by URL; the adapter fetches it, checks that its author is the user the task
    names, and reports the remote status, score and a markdown summary. The two HTTP
    requests, the JSON decoders and the time formatter are given as the `Remote` record;
    the three regular expressions are written out as the scans that match them. */
module Vjudge {
  import opened Base
  import opened Common
  import opened Errors
  import opened Registry

  // ---------------------------------------------------------------------------
  // Status mapping (`VjStatusMap`, `getMappedStatus`)
  // ---------------------------------------------------------------------------

  /** The remote verdicts the adapter knows, each with the status it reports. */
  const StatusTable: map<string, string> := map[
    "Accepted" := "Accepted",
    "Partial Accepted" := "Partial Accepted",
    "Presentation Error" := "Presentation Error",
    "Wrong Answer" := "Wrong Answer",
    "Incorrect" := "Wrong Answer",
    "Time Limit Exceed" := "Time Limit Exceed",
    "Terminated due to timeout" := "Time Limit Exceed",
    "Memory Limit Exceed" := "Memory Limit Exceed",
    "Output Limit Exceed" := "Output Limit Exceed",
    "Runtime Error" := "Runtime Error",
    "Segmentation Fault" := "Runtime Error",
    "Compile Error" := "Compile Error",
    "Compilation Error" := "Compile Error",
    "Remote OJ Unavailable" := "Judge Error",
    "Judge Failed" := "Judge Error",
    "Unknown Error" := "Judge Error",
    "Submit Failed" := "Judge Error"]

  /** The status reported for a verdict the table does not know. */
  const JudgeError := "Judge Error"

  /** `k` is a prefix of `status`, ignoring case. */
  predicate KeyMatches(status: string, k: string) {
    |k| <= |status| && ToLower(status)[..|k|] == ToLower(k)
  }

  /** Three lower-cased characters of a key, at positions 0, 1 and 6; every key of the
      table has at least seven. */
  function Signature(k: string): (char, char, char)
    requires |k| >= 7
  {
    (LowerChar(k[0]), LowerChar(k[1]), LowerChar(k[6]))
  }

  /** The key of the table with a given signature, told apart first by its first
      letter, then by its second, then by its seventh. */
  function KeyOfSignature(s: (char, char, char)): string {
    match s.0
    case 'a' => "Accepted"
    case 'p' => if s.1 == 'a' then "Partial Accepted" else "Presentation Error"
    case 'w' => "Wrong Answer"
    case 'i' => "Incorrect"
    case 't' => if s.1 == 'i' then "Time Limit Exceed" else "Terminated due to timeout"
    case 'm' => "Memory Limit Exceed"
    case 'o' => "Output Limit Exceed"
    case 'r' => if s.1 == 'u' then "Runtime Error" else "Remote OJ Unavailable"
    case 's' => if s.1 == 'e' then "Segmentation Fault" else "Submit Failed"
    case 'c' => if s.2 == 'e' then "Compile Error" else "Compilation Error"
    case 'j' => "Judge Failed"
    case 'u' => "Unknown Error"
    case _ => ""
  }

  /** The verdicts the table knows, split in two halves. */
  const FirstKeys: set<string> := {"Accepted", "Partial Accepted", "Presentation Error", "Wrong Answer",
    "Incorrect", "Time Limit Exceed", "Terminated due to timeout", "Memory Limit Exceed"}
  const LastKeys: set<string> := {"Output Limit Exceed", "Runtime Error", "Segmentation Fault", "Compile Error",
    "Compilation Error", "Remote OJ Unavailable", "Judge Failed", "Unknown Error", "Submit Failed"}

  /** The keys of the table are the two halves. */
  lemma TableKeys()
    ensures StatusTable.Keys == FirstKeys + LastKeys
  {
  }

  /** The first half of the keys is found back from its signatures. */
  lemma FirstSignatures(k: string)
    requires k in FirstKeys
    ensures |k| >= 7 && KeyOfSignature(Signature(k)) == k
  {
    if k == "Accepted" {
      assert Signature(k) == ('a', 'c', 'e');
    } else if k == "Partial Accepted" {
      assert Signature(k) == ('p', 'a', 'l');
    } else if k == "Presentation Error" {
      assert Signature(k) == ('p', 'r', 't');
    } else if k == "Wrong Answer" {
      assert Signature(k) == ('w', 'r', 'a');
    } else if k == "Incorrect" {
      assert Signature(k) == ('i', 'n', 'e');
    } else if k == "Time Limit Exceed" {
      assert Signature(k) == ('t', 'i', 'i');
    } else if k == "Terminated due to timeout" {
      assert Signature(k) == ('t', 'e', 'a');
    } else {
      assert Signature(k) == ('m', 'e', ' ');
    }
  }

  /** So is the second half. */
  lemma LastSignatures(k: string)
    requires k in LastKeys
    ensures |k| >= 7 && KeyOfSignature(Signature(k)) == k
  {
    if k == "Output Limit Exceed" {
      assert Signature(k) == ('o', 'u', ' ');
    } else if k == "Runtime Error" {
      assert Signature(k) == ('r', 'u', 'e');
    } else if k == "Segmentation Fault" {
      assert Signature(k) == ('s', 'e', 't');
    } else if k == "Compile Error" {
      assert Signature(k) == ('c', 'o', 'e');
    } else if k == "Compilation Error" {
      assert Signature(k) == ('c', 'o', 'a');
    } else if k == "Remote OJ Unavailable" {
      assert Signature(k) == ('r', 'e', ' ');
    } else if k == "Judge Failed" {
      assert Signature(k) == ('j', 'u', 'f');
    } else if k == "Unknown Error" {
      assert Signature(k) == ('u', 'n', 'n');
    } else {
      assert Signature(k) == ('s', 'u', ' ');
    }
  }

  /** Every key of the table is found back from its signature, so no two keys share
      one. */
  lemma SignatureIdentifies(k: string)
    requires k in StatusTable
    ensures |k| >= 7 && KeyOfSignature(Signature(k)) == k
  {
    TableKeys();
    if k in FirstKeys {
      FirstSignatures(k);
    } else {
      LastSignatures(k);
    }
  }

  /** Two keys that are prefixes of the same status, ignoring case, are the same key. */
  lemma MatchUnique(status: string, k1: string, k2: string)
    requires k1 in StatusTable && k2 in StatusTable
    requires KeyMatches(status, k1) && KeyMatches(status, k2)
    ensures k1 == k2
  {
    SignatureIdentifies(k1);
    SignatureIdentifies(k2);
    var low := ToLower(status);
    forall j | j == 0 || j == 1 || j == 6
      ensures LowerChar(k1[j]) == LowerChar(k2[j])
    {
      assert low[..|k1|][j] == ToLower(k1)[j];
      assert low[..|k2|][j] == ToLower(k2)[j];
    }
    assert Signature(k1) == Signature(k2);
  }

  /** No key of the table is a prefix of another, ignoring case: so the order in which
      the map is walked never changes the result. */
  lemma KeysPrefixFree()
    ensures forall k1, k2 :: k1 in StatusTable && k2 in StatusTable && k1 != k2 ==> !KeyMatches(k2, k1)
  {
    forall k1, k2 | k1 in StatusTable && k2 in StatusTable && KeyMatches(k2, k1)
      ensures k1 == k2
    {
      assert KeyMatches(k2, k2);
      MatchUnique(k2, k1, k2);
    }
  }

  /** The status reported for a remote verdict: the value of the key that prefixes it,
      ignoring case, or "Judge Error" when none does. */
  ghost function MappedStatus(status: string): string {
    if exists k :: k in StatusTable && KeyMatches(status, k) then
      var k :| k in StatusTable && KeyMatches(status, k); StatusTable[k]
    else JudgeError
  }

  /** The mapping is well defined and total: a matching key decides the result whatever
      key the choice picks, and every result is one of the table's statuses. */
  lemma MappedStatusFacts(status: string)
    ensures forall k :: k in StatusTable && KeyMatches(status, k) ==> MappedStatus(status) == StatusTable[k]
    ensures (forall k :: k in StatusTable ==> !KeyMatches(status, k)) ==> MappedStatus(status) == JudgeError
    ensures MappedStatus(status) in StatusTable.Values
  {
    forall k | k in StatusTable && KeyMatches(status, k)
      ensures MappedStatus(status) == StatusTable[k]
    {
      var k' :| k' in StatusTable && KeyMatches(status, k') && MappedStatus(status) == StatusTable[k'];
      MatchUnique(status, k, k');
    }
    assert StatusTable["Judge Failed"] == JudgeError;
  }

  /** `getMappedStatus`: the table is walked in any order, and the first key that
      prefixes the status, ignoring case, gives the result. */
  method GetMappedStatus(status: string) returns (mapped: string)
    ensures mapped == MappedStatus(status)
  {
    var todo := StatusTable.Keys;
    while todo != {}
      invariant todo <= StatusTable.Keys
      invariant forall k :: k in StatusTable && k !in todo ==> !KeyMatches(status, k)
      decreases |todo|
    {
      var k :| k in todo;
      if |k| <= |status| && ToLower(status)[..|k|] == ToLower(k) {
        MappedStatusFacts(status);
        return StatusTable[k];
      }
      todo := todo - {k};
    }
    MappedStatusFacts(status);
    mapped := JudgeError;
  }

  // ---------------------------------------------------------------------------
  // Regular expressions: character runs and the leftmost match
  // ---------------------------------------------------------------------------

  /** `\d` and `\w` of Go's regular expressions (ASCII only). */
  datatype Class = Digit | Word

  predicate InClass(c: char, cls: Class) {
    match cls
    case Digit => '0' <= c <= '9'
    case Word => '0' <= c <= '9' || 'a' <= c <= 'z' || 'A' <= c <= 'Z' || c == '_'
  }

  /** Every character of `s` is in `cls`. */
  predicate AllIn(s: string, cls: Class) {
    |s| == 0 || (InClass(s[0], cls) && AllIn(s[1..], cls))
  }

  /** The length of the longest run of `cls` characters at the start of `t`, which is
      what a greedy `\d+` or `\w+` consumes. */
  function Run(t: string, cls: Class): (n: nat)
    ensures n <= |t|
    ensures AllIn(t[..n], cls)
    ensures n < |t| ==> !InClass(t[n], cls)
  {
    if |t| > 0 && InClass(t[0], cls) then
      var n := 1 + Run(t[1..], cls);
      assert t[..n][1..] == t[1..][..n - 1];
      n
    else 0
  }

  /** A run of `cls` characters at the front of a text is consumed whole, and the
      run goes on into what follows it. */
  lemma {:induction false} RunConcat(x: string, y: string, cls: Class)
    requires AllIn(x, cls)
    ensures Run(x + y, cls) == |x| + Run(y, cls)
  {
    if |x| > 0 {
      assert (x + y)[1..] == x[1..] + y;
      RunConcat(x[1..], y, cls);
    } else {
      assert x + y == y;
    }
  }

  /** A text that starts with a character outside `cls` has an empty run. */
  lemma RunStopped(y: string, cls: Class)
    requires |y| > 0 && !InClass(y[0], cls)
    ensures Run(y, cls) == 0
  {
  }

  /** The first position at or after `i` where `matcher` accepts the rest of `s`: what
      `FindStringSubmatch` returns is the match found there. */
  function Leftmost<T>(s: string, i: nat, matcher: string -> Option<T>): (k: Option<nat>)
    requires i <= |s|
    ensures k.Some? ==> i <= k.value <= |s| && matcher(s[k.value..]).Some?
    ensures k.Some? ==> forall j :: i <= j < k.value ==> matcher(s[j..]).None?
    ensures k.None? ==> forall j :: i <= j <= |s| ==> matcher(s[j..]).None?
    decreases |s| - i
  {
    if matcher(s[i..]).Some? then Some(i)
    else if i == |s| then None
    else Leftmost(s, i + 1, matcher)
  }

  /** A text the matcher accepts from some position on has a leftmost match. */
  lemma LeftmostFinds<T>(s: string, i: nat, matcher: string -> Option<T>)
    requires i <= |s| && matcher(s[i..]).Some?
    ensures Leftmost(s, 0, matcher).Some?
  {
  }

  /** A prefix of the text from `k` on occurs in the text at `k`. */
  lemma PrefixOfDrop(s: string, k: nat, p: string)
    requires k <= |s| && HasPrefix(s[k..], p)
    ensures InfixAt(s, p, k) && Contains(s, p)
  {
    assert s[k..][..|p|] == s[k..k + |p|];
    assert InfixAt(s, p, k);
  }

  /** An occurrence at `k` is a prefix of the text from `k` on. */
  lemma DropAtInfix(s: string, k: nat, p: string)
    requires InfixAt(s, p, k)
    ensures s[k..] == p + s[k + |p|..]
  {
  }

  lemma TakeDropAppend(u: string, v: string, n: nat)
    requires n <= |v|
    ensures (u + v)[..|u| + n] == u + v[..n] && (u + v)[|u| + n..] == v[n..]
  {
  }

  // ---------------------------------------------------------------------------
  // Score (`parseScore`)
  // ---------------------------------------------------------------------------

  /** A decimal number `whole.frac` as the score pattern matches it. */
  datatype Decimal = Decimal(whole: string, frac: string)

  predicate WellFormed(x: Decimal) {
    |x.whole| > 0 && |x.frac| > 0 && AllIn(x.whole, Digit) && AllIn(x.frac, Digit)
  }

  function DecimalText(x: Decimal): string {
    x.whole + "." + x.frac
  }

  function Pow10(n: nat): (p: nat)
    ensures p > 0
  {
    if n == 0 then 1 else 10 * Pow10(n - 1)
  }

  /** The value of a decimal digit. */
  function DigitValue(c: char): nat
    requires InClass(c, Digit)
  {
    c as int - '0' as int
  }

  /** The value of a string of decimal digits, most significant first. */
  function DigitsValue(d: string): nat
    requires AllIn(d, Digit)
  {
    if |d| == 0 then 0
    else
      assert InClass(d[0], Digit) && AllIn(d[1..], Digit);
      DigitValue(d[0]) * Pow10(|d| - 1) + DigitsValue(d[1..])
  }

  /** The exact value of a decimal. */
  function Value(x: Decimal): (v: real)
    requires WellFormed(x)
    ensures v >= 0.0
  {
    DigitsValue(x.whole) as real + DigitsValue(x.frac) as real / Pow10(|x.frac|) as real
  }

  /** The text of a score pair, `a / b`. */
  function PairText(a: Decimal, b: Decimal): string {
    DecimalText(a) + " / " + DecimalText(b)
  }

  /** `\d+\.\d+` matched at the start of `t`, and what follows the match. Both runs are
      greedy; the first is followed by the `.`, which is no digit, so it is the match. */
  function DecimalPrefix(t: string): (r: Option<(Decimal, string)>)
    ensures r.Some? ==> WellFormed(r.value.0) && t == DecimalText(r.value.0) + r.value.1
  {
    var a := Run(t, Digit);
    if a == 0 || a >= |t| || t[a] != '.' then None
    else
      var t1 := t[a + 1..];
      var b := Run(t1, Digit);
      if b == 0 then None
      else
        DecimalJoin(t, a, b);
        Some((Decimal(t[..a], t1[..b]), t1[b..]))
  }

  /** A text cut around the `.` at `a` and `b` characters further. */
  lemma DecimalJoin(t: string, a: nat, b: nat)
    requires a < |t| && t[a] == '.' && b <= |t| - a - 1
    ensures t == DecimalText(Decimal(t[..a], t[a + 1..][..b])) + t[a + 1..][b..]
  {
    var t1 := t[a + 1..];
    assert t == t[..a] + "." + t1;
    assert t1 == t1[..b] + t1[b..];
  }

  /** A decimal followed by a text, cut at its `.`. */
  lemma DecimalSplit(x: Decimal, rest: string)
    ensures var t := DecimalText(x) + rest;
      |x.whole| < |t| && t[|x.whole|] == '.' && t[..|x.whole|] == x.whole
      && t[|x.whole| + 1..] == x.frac + rest && t == x.whole + ("." + (x.frac + rest))
  {
  }

  /** A decimal followed by anything is matched: its whole part as it is, its fraction
      running on into any digits that follow it. */
  lemma DecimalPrefixOf(x: Decimal, rest: string)
    requires WellFormed(x)
    ensures var n := Run(rest, Digit);
      DecimalPrefix(DecimalText(x) + rest) == Some((Decimal(x.whole, x.frac + rest[..n]), rest[n..]))
  {
    var t1 := x.frac + rest;
    DecimalSplit(x, rest);
    RunConcat(x.whole, "." + t1, Digit);
    RunStopped("." + t1, Digit);
    RunConcat(x.frac, rest, Digit);
    TakeDropAppend(x.frac, rest, Run(rest, Digit));
    var t := DecimalText(x) + rest;
    var a := |x.whole|;
    var b := |x.frac| + Run(rest, Digit);
    assert Run(t, Digit) == a;
    assert t[a + 1..] == t1;
    assert Run(t1, Digit) == b;
    assert DecimalPrefix(t) == Some((Decimal(t[..a], t1[..b]), t1[b..]));
  }

  /** A decimal, ` / ` and a decimal at the front of a text form a pair there. */
  lemma PairJoin(t: string, x: Decimal, t1: string, y: Decimal, t2: string)
    requires t == DecimalText(x) + t1 && HasPrefix(t1, " / ") && t1[3..] == DecimalText(y) + t2
    ensures HasPrefix(t, PairText(x, y))
  {
    assert t1 == " / " + t1[3..];
    assert t == PairText(x, y) + t2;
  }

  /** `(\d+\.\d+) / (\d+\.\d+)` matched at the start of `t`. */
  function PairPrefix(t: string): (r: Option<(Decimal, Decimal)>)
    ensures r.Some? ==> WellFormed(r.value.0) && WellFormed(r.value.1) && HasPrefix(t, PairText(r.value.0, r.value.1))
  {
    match DecimalPrefix(t)
    case None => None
    case Some((x, t1)) =>
      if !HasPrefix(t1, " / ") then None
      else
        match DecimalPrefix(t1[3..])
        case None => None
        case Some((y, t2)) =>
          PairJoin(t, x, t1, y, t2);
          Some((x, y))
  }

  /** A pair followed by a text, cut after its first decimal. */
  lemma PairSplit(a: Decimal, b: Decimal, rest: string)
    ensures var t1 := " / " + (DecimalText(b) + rest);
      PairText(a, b) + rest == DecimalText(a) + t1 && HasPrefix(t1, " / ") && t1[3..] == DecimalText(b) + rest
  {
  }

  /** A pair followed by anything is matched: the first number whole, the second
      running on into any digits that follow it. */
  lemma PairPrefixOf(a: Decimal, b: Decimal, rest: string)
    requires WellFormed(a) && WellFormed(b)
    ensures PairPrefix(PairText(a, b) + rest)
      == Some((a, Decimal(b.whole, b.frac + rest[..Run(rest, Digit)])))
  {
    var t1 := " / " + (DecimalText(b) + rest);
    PairSplit(a, b, rest);
    DecimalPrefixOf(a, t1);
    RunStopped(t1, Digit);
    assert a.frac + t1[..0] == a.frac;
    assert t1[0..] == t1;
    DecimalPrefixOf(b, rest);
  }

  /** The first score pair of a text (`FindStringSubmatch`). */
  function FindPair(s: string): (r: Option<(Decimal, Decimal)>)
    ensures r.Some? ==> WellFormed(r.value.0) && WellFormed(r.value.1) && Contains(s, PairText(r.value.0, r.value.1))
  {
    match Leftmost(s, 0, PairPrefix)
    case None => None
    case Some(k) =>
      var m := PairPrefix(s[k..]);
      PrefixOfDrop(s, k, PairText(m.value.0, m.value.1));
      m
  }

  /** `min(1, max(0, x))`. */
  function Clamp(x: real): (r: real)
    ensures 0.0 <= r <= 1.0
    ensures 0.0 <= x <= 1.0 ==> r == x
  {
    if x < 0.0 then 0.0 else if x > 1.0 then 1.0 else x
  }

  /** The percentage of a matched pair. A zero total is a division by zero in floating
      point: infinity, clamped to 100, for a positive score. */
  function Percentage(score: real, total: real): (r: real)
    requires score >= 0.0 && total >= 0.0
    ensures 0.0 <= r <= 100.0
    ensures total > 0.0 && score <= total ==> r * total == 100.0 * score
    ensures total > 0.0 && score >= total ==> r == 100.0
  {
    if total == 0.0 then (if score > 0.0 then 100.0 else 0.0)
    else Clamp(score / total) * 100.0
  }

  /** `parseScore`: the first `a / b` pair of the text, as a percentage; 0 without one. */
  function ParseScore(info: string): (r: real)
    ensures 0.0 <= r <= 100.0
  {
    match FindPair(info)
    case None => 0.0
    case Some((a, b)) => Percentage(Value(a), Value(b))
  }

  /** A text with no score pair in it scores 0. */
  lemma NoPairNoScore(info: string)
    requires forall a, b :: WellFormed(a) && WellFormed(b) ==> !Contains(info, PairText(a, b))
    ensures ParseScore(info) == 0.0
  {
  }

  /** A text holding a score pair anywhere has a match: only a text without one scores
      0 for want of a pair. */
  lemma PairIsFound(s: string, i: nat, a: Decimal, b: Decimal)
    requires WellFormed(a) && WellFormed(b) && InfixAt(s, PairText(a, b), i)
    ensures FindPair(s).Some?
  {
    PairAt(s, i, a, b);
    LeftmostFinds(s, i, PairPrefix);
  }

  /** A pair occurring at `i` is matched there. */
  lemma PairAt(s: string, i: nat, a: Decimal, b: Decimal)
    requires WellFormed(a) && WellFormed(b) && InfixAt(s, PairText(a, b), i)
    ensures i <= |s| && PairPrefix(s[i..]).Some?
  {
    var p := PairText(a, b);
    var rest := s[i + |p|..];
    DropAtInfix(s, i, p);
    PairPrefixOf(a, b, rest);
  }

  /** A score line printed as `a / b` reads back as the percentage of `a` over `b`. */
  lemma ScoreRoundTrip(a: Decimal, b: Decimal, rest: string)
    requires WellFormed(a) && WellFormed(b)
    requires rest == "" || !InClass(rest[0], Digit)
    ensures ParseScore(PairText(a, b) + rest) == Percentage(Value(a), Value(b))
  {
    var s := PairText(a, b) + rest;
    PairPrefixOf(a, b, rest);
    if rest != "" {
      RunStopped(rest, Digit);
    }
    assert b.frac + rest[..0] == b.frac;
    assert s[0..] == s;
  }

  // ---------------------------------------------------------------------------
  // Solution URL and user id
  // ---------------------------------------------------------------------------

  /** The fixed part of `https://vjudge.net/solution/(\d+)/(\w+)`; its unescaped `.`
      matches any character but a newline. */
  const UrlHead := "https://vjudge.net/solution/"

  predicate HeadMatches(t: string) {
    |UrlHead| <= |t|
    && forall j :: 0 <= j < |UrlHead| ==>
      (if UrlHead[j] == '.' then t[j] != '\n' else t[j] == UrlHead[j])
  }

  /** The URL pattern matched at the start of `t`: the solution id and the share code. */
  function UrlPrefix(t: string): (r: Option<(string, string)>)
    ensures r.Some? ==> |r.value.0| > 0 && AllIn(r.value.0, Digit) && |r.value.1| > 0 && AllIn(r.value.1, Word)
  {
    if !HeadMatches(t) then None
    else
      var t1 := t[|UrlHead|..];
      var n := Run(t1, Digit);
      if n == 0 || n >= |t1| || t1[n] != '/' then None
      else
        var t2 := t1[n + 1..];
        var m := Run(t2, Word);
        if m == 0 then None
        else Some((t1[..n], t2[..m]))
  }

  /** The first solution URL in a text. */
  function FindUrl(s: string): (r: Option<(string, string)>)
    ensures r.Some? ==> |r.value.0| > 0 && AllIn(r.value.0, Digit) && |r.value.1| > 0 && AllIn(r.value.1, Word)
  {
    match Leftmost(s, 0, UrlPrefix)
    case None => None
    case Some(k) => UrlPrefix(s[k..])
  }

  /** The URL vjudge gives a shared solution. */
  function SolutionUrl(id: string, shareCode: string): string {
    UrlHead + id + "/" + shareCode
  }

  /** A shared solution's URL, cut after its fixed head and after its id. */
  lemma UrlSplit(id: string, shareCode: string)
    ensures var s := SolutionUrl(id, shareCode);
      s[..|UrlHead|] == UrlHead && s[|UrlHead|..] == id + ("/" + shareCode)
      && (id + ("/" + shareCode))[|id| + 1..] == shareCode
      && (id + ("/" + shareCode))[..|id|] == id
  {
  }

  /** The id and the share code of a shared solution's URL are read back unchanged. */
  lemma UrlRoundTrip(id: string, shareCode: string)
    requires |id| > 0 && AllIn(id, Digit) && |shareCode| > 0 && AllIn(shareCode, Word)
    ensures FindUrl(SolutionUrl(id, shareCode)) == Some((id, shareCode))
  {
    var s := SolutionUrl(id, shareCode);
    var t1 := id + ("/" + shareCode);
    UrlSplit(id, shareCode);
    assert HeadMatches(s) by {
      forall j | 0 <= j < |UrlHead| ensures s[j] == UrlHead[j] {
        assert s[..|UrlHead|][j] == UrlHead[j];
      }
    }
    RunConcat(id, "/" + shareCode, Digit);
    RunStopped("/" + shareCode, Digit);
    RunConcat(shareCode, "", Word);
    assert shareCode + "" == shareCode;
    assert shareCode[..|shareCode|] == shareCode;
    assert UrlPrefix(s) == Some((id, shareCode));
    assert s[0..] == s;
  }

  /** The cookie marker that precedes a user id on a vjudge user page. */
  const UserIdMarker := "AOI_User_ID="

  predicate IsLowerHex(c: char) {
    '0' <= c <= '9' || 'a' <= c <= 'f'
  }

  /** `[a-f0-9]{8}-[a-f0-9]{4}-[a-f0-9]{4}-[a-f0-9]{4}-[a-f0-9]{12}`. */
  predicate IsUuid(u: string) {
    |u| == 36
    && forall j :: 0 <= j < 36 ==>
      (if j == 8 || j == 13 || j == 18 || j == 23 then u[j] == '-' else IsLowerHex(u[j]))
  }

  /** The user id pattern matched at the start of `t`. */
  function UserIdPrefix(t: string): (r: Option<string>)
    ensures r.Some? ==> IsUuid(r.value) && HasPrefix(t, UserIdMarker + r.value)
  {
    if 48 <= |t| && t[..12] == UserIdMarker && IsUuid(t[12..48]) then
      assert t[..48] == t[..12] + t[12..48];
      Some(t[12..48])
    else None
  }

  /** The first user id on a page. */
  function FindUserId(page: string): (r: Option<string>)
    ensures r.Some? ==> IsUuid(r.value) && Contains(page, UserIdMarker + r.value)
  {
    match Leftmost(page, 0, UserIdPrefix)
    case None => None
    case Some(k) =>
      var u := UserIdPrefix(page[k..]);
      PrefixOfDrop(page, k, UserIdMarker + u.value);
      u
  }

  /** `getUserId`, given what the request for the user page returned. */
  function GetUserId(page: Result<string>): (r: Result<string>)
    ensures page.Err? ==> r == page
    ensures r.Ok? ==> page.Ok? && IsUuid(r.value) && Contains(page.value, UserIdMarker + r.value)
    ensures page.Ok? && r.Err? ==> r.error == "failed to parse user id"
  {
    match page
    case Err(e) => Err(e)
    case Ok(text) =>
      match FindUserId(text)
      case Some(u) => Ok(u)
      case None => Err("failed to parse user id")
  }

  /** A page that starts with the marker and a user id yields that id. */
  lemma UserIdRoundTrip(u: string, rest: string)
    requires IsUuid(u)
    ensures GetUserId(Ok(UserIdMarker + u + rest)) == Ok(u)
  {
    var page := UserIdMarker + u + rest;
    assert page[..12] == UserIdMarker;
    assert page[12..48] == u;
    assert page[0..] == page;
  }

  // ---------------------------------------------------------------------------
  // Markdown summary (`generateVjMd`)
  // ---------------------------------------------------------------------------

  /** The fields of a remote solution the adapter reads. */
  datatype VjSolution = VjSolution(
    memory: int,
    code: string,
    author: string,
    length: int,
    runtime: int,
    language: string,
    prismClass: string,
    submitTime: int,
    runId: int,
    status: string,
    additionalInfo: string)

  const MdHeader := "| Status | Time | Memory | Length | Lang | Submitted | Vjudge | Origin |\n"
    + "|--------|------|--------|--------|------|-----------|--------|--------|\n"

  /** The table's one row; `submitted` is the formatted submission time. */
  function MdRow(sol: VjSolution, submitted: string): string {
    "| `" + sol.status + "` "
    + "| `" + IntToString(sol.runtime) + " ms` "
    + "| `" + IntToString(sol.memory) + " KB` "
    + "| `" + IntToString(sol.length) + " bytes` "
    + "| `" + sol.language + "` "
    + "| `" + submitted + "` "
    + "| [Link](https://vjudge.net/solution/" + IntToString(sol.runId) + ") "
    + "| [Link](https://vjudge.net/solution/" + IntToString(sol.runId) + "/origin) |\n\n"
  }

  /** The fenced judge message. */
  function InfoFence(info: string): string {
    "```\n" + info + "\n```\n\n"
  }

  /** The fenced source code, highlighted as the language's prism class. */
  function CodeFence(sol: VjSolution): string {
    "```" + sol.prismClass + "\n" + sol.code + "\n" + "```\n"
  }

  /** `generateVjMd`: the table, the judge message when there is one, then the code. */
  function GenerateVjMd(sol: VjSolution, submitted: string): (md: string)
    ensures HasPrefix(md, MdHeader + MdRow(sol, submitted))
    ensures HasSuffix(md, CodeFence(sol))
    ensures sol.additionalInfo != "" ==> InfixAt(md, InfoFence(sol.additionalInfo), |MdHeader + MdRow(sol, submitted)|)
    ensures sol.additionalInfo == "" ==> md == MdHeader + MdRow(sol, submitted) + CodeFence(sol)
  {
    var head := MdHeader + MdRow(sol, submitted);
    var info := if sol.additionalInfo != "" then InfoFence(sol.additionalInfo) else "";
    var md := head + info + CodeFence(sol);
    assert md[..|head|] == head;
    assert md[|head|..|head| + |info|] == info;
    assert md[|md| - |CodeFence(sol)|..] == CodeFence(sol);
    md
  }

  /** The middle of `p + x + c`. */
  lemma Middle(p: string, x: string, c: string)
    ensures (p + x + c)[|p|..|p| + |x|] == x
  {
  }

  /** The summary shows the judge message faithfully: two solutions that differ only in
      it get the same summary exactly when their messages are equal. */
  lemma MdDeterminesInfo(sol: VjSolution, info: string, submitted: string)
    ensures GenerateVjMd(sol, submitted) == GenerateVjMd(sol.(additionalInfo := info), submitted)
      <==> sol.additionalInfo == info
  {
    var other := sol.(additionalInfo := info);
    var head := MdHeader + MdRow(sol, submitted);
    assert MdRow(other, submitted) == MdRow(sol, submitted);
    assert CodeFence(other) == CodeFence(sol);
    var x := if sol.additionalInfo != "" then InfoFence(sol.additionalInfo) else "";
    var y := if info != "" then InfoFence(info) else "";
    if GenerateVjMd(sol, submitted) == GenerateVjMd(other, submitted) {
      assert head + x + CodeFence(sol) == head + y + CodeFence(sol);
      assert |x| == |y|;
      Middle(head, x, CodeFence(sol));
      Middle(head, y, CodeFence(sol));
      if sol.additionalInfo != "" && info != "" {
        assert InfoFence(sol.additionalInfo)[4..4 + |sol.additionalInfo|] == sol.additionalInfo;
        assert InfoFence(info)[4..4 + |info|] == info;
      }
    }
  }

  // ---------------------------------------------------------------------------
  // The adapter (`Judge`)
  // ---------------------------------------------------------------------------

  /** What the adapter gets from outside: the decoders of its configuration and of the
      solution's metadata, the archive extraction, the two vjudge requests and the
      time formatter. */
  datatype Remote = Remote(
    decodeConfig: string -> Option<string>,
    unzip: string -> Option<string>,
    readMetadata: Result<string>,
    decodeMetadata: string -> Result<string>,
    getSolution: (string, string) -> Result<VjSolution>,
    userPage: string -> Result<string>,
    formatTime: int -> string)

  /** An error `Judge` returns: a plain Go error, or a `SimpleSolutionError`. */
  datatype Failure = Plain(text: string) | Bad(error: SimpleSolutionError)

  /** The user id a task expects; a missing key reads as "". */
  function ExpectedUser(env: map<string, string>): string {
    if "userId" in env then env["userId"] else ""
  }

  /** The result snapshot of a synced solution. */
  function SyncedInfo(sol: VjSolution, status: string): SolutionInfo {
    SolutionInfo(ParseScore(sol.additionalInfo),
                 Some(map["cpu" := sol.runtime as real, "mem" := sol.memory as real]),
                 status, "Vjudge solution sync ok")
  }

  /** The details of a synced solution: no jobs, the markdown summary. */
  function SyncedDetails(sol: VjSolution, w: Remote): SolutionDetails {
    SolutionDetails(Some(1), Some([]), GenerateVjMd(sol, w.formatTime(sol.submitTime)))
  }

  /** The configuration decoded, the archive unpacked and its metadata file read. */
  predicate MetadataRead(task: RemoteJudgeTask, w: Remote) {
    w.decodeConfig(task.config.judge.config).None? && w.unzip(task.solutionData).None? && w.readMetadata.Ok?
  }

  /** The decoded metadata file. */
  function Decoded(w: Remote): Result<string>
    requires w.readMetadata.Ok?
  {
    w.decodeMetadata(w.readMetadata.value)
  }

  /** The solution id and share code of the metadata's URL, once everything before it
      succeeded. */
  function Located(task: RemoteJudgeTask, w: Remote): Option<(string, string)> {
    if MetadataRead(task, w) && Decoded(w).Ok? then FindUrl(Decoded(w).value) else None
  }

  /** `Judge`: each step may end it with an error and no report; a solution whose
      author is the user the task names is reported once, with its mapped status, and
      its summary saved. The results of the two reporting calls are not looked at. */
  method Judge(task: RemoteJudgeTask, w: Remote) returns (calls: seq<TaskCall>, err: Option<Failure>)
    ensures err.Some? <==> calls == []
    ensures w.decodeConfig(task.config.judge.config).Some? ==>
      err == Some(Plain(w.decodeConfig(task.config.judge.config).value))
    ensures w.decodeConfig(task.config.judge.config).None? && w.unzip(task.solutionData).Some? ==>
      err == Some(Plain(w.unzip(task.solutionData).value))
    ensures (w.decodeConfig(task.config.judge.config).None? && w.unzip(task.solutionData).None?
             && w.readMetadata.Err?) ==> err == Some(Plain(w.readMetadata.error))
    ensures MetadataRead(task, w) && Decoded(w).Err? ==>
      err == Some(Bad(SimpleSolutionError(
        "Bad Solution", "Failed to parse metadata", "Failed to parse metadata: " + Decoded(w).error)))
    ensures MetadataRead(task, w) && Decoded(w).Ok? && FindUrl(Decoded(w).value).None? ==>
      err == Some(Bad(SimpleSolutionError("Bad Solution", "Failed to parse url", "Failed to parse vjudge url")))
    ensures Located(task, w).Some? ==> (
      var r := w.getSolution(Located(task, w).value.0, Located(task, w).value.1);
      (r.Err? ==> err == Some(Plain(r.error)))
      && (r.Ok? ==> (
        var u := GetUserId(w.userPage(r.value.author));
        var expected := ExpectedUser(task.env);
        (u.Err? ==> err == Some(Plain(u.error)))
        && (u.Ok? && u.value != expected ==>
              err == Some(Bad(SimpleSolutionError("Bad Solution", "User id mismatch",
                                                  "User id mismatch: " + u.value + " != " + expected))))
        && (u.Ok? && u.value == expected ==>
              err.None? && calls == [Update(SyncedInfo(r.value, MappedStatus(r.value.status))),
                                     UploadDetails(SyncedDetails(r.value, w))]))))
    ensures "userId" !in task.env ==> err.Some?
  {
    calls := [];
    var configErr := w.decodeConfig(task.config.judge.config);
    if configErr.Some? {
      return calls, Some(Plain(configErr.value));
    }
    var unzipErr := w.unzip(task.solutionData);
    if unzipErr.Some? {
      return calls, Some(Plain(unzipErr.value));
    }
    if w.readMetadata.Err? {
      return calls, Some(Plain(w.readMetadata.error));
    }
    var metadata := w.decodeMetadata(w.readMetadata.value);
    if metadata.Err? {
      return calls, Some(Bad(SimpleSolutionError(
        "Bad Solution", "Failed to parse metadata", "Failed to parse metadata: " + metadata.error)));
    }
    var url := FindUrl(metadata.value);
    if url.None? {
      return calls, Some(Bad(SimpleSolutionError(
        "Bad Solution", "Failed to parse url", "Failed to parse vjudge url")));
    }
    var solutionId, shareCode := url.value.0, url.value.1;
    var result := w.getSolution(solutionId, shareCode);
    if result.Err? {
      return calls, Some(Plain(result.error));
    }
    var sol := result.value;
    var userId := GetUserId(w.userPage(sol.author));
    if userId.Err? {
      return calls, Some(Plain(userId.error));
    }
    var matchUserId := ExpectedUser(task.env);
    if userId.value != matchUserId {
      return calls, Some(Bad(SimpleSolutionError(
        "Bad Solution", "User id mismatch", "User id mismatch: " + userId.value + " != " + matchUserId)));
    }
    var status := GetMappedStatus(sol.status);
    calls := [Update(SyncedInfo(sol, status)), UploadDetails(SyncedDetails(sol, w))];
    err := None;
  }

  /** What the dispatcher reports of a failure: the error's text. */
  function FailureText(f: Failure): (t: string)
    ensures f.Bad? ==> t == ErrorText(f.error)
  {
    match f
    case Plain(text) => text
    case Bad(e) => ErrorText(e)
  }
}
