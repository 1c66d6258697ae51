/** The serial poll loops of the `daemon`, `instancer` and `ranker` commands
    (cli/daemon.go, cli/instancer.go, cli/ranker.go). The three share one shape: poll
    once, log an error and carry on, then wait no time when the poll asked to go on at
    once and `pollInterval` seconds otherwise, leaving the loop when the context is
    cancelled during the wait. The loop itself runs forever; here it runs over a finite
    list of rounds, each giving what its poll returned and whether the wait ended by
    cancellation. Timers and the logger are not modelled beyond the wait they are given
    and the errors they are handed. */
module Cli {
  import opened Base

  /** One round of a loop: what the poll returned, and whether the wait that follows
      was ended by the context's cancellation rather than by the timer. */
  datatype Round = Round(cont: bool, err: Option<string>, cancelled: bool)

  /** Go's conversion of a float to an integer: the fraction is dropped, toward zero. */
  function Truncate(x: real): (n: int)
    ensures 0.0 <= x ==> 0 <= n && n as real <= x < n as real + 1.0
    ensures x < 0.0 ==> n <= 0 && n as real - 1.0 < x <= n as real
  {
    if 0.0 <= x then x.Floor else -((-x).Floor)
  }

  /** The wait after a poll, in whole seconds: none when the poll asked to go on at once,
      else the poll interval with its fraction dropped. */
  function WaitSeconds(pollInterval: real, cont: bool): (s: int)
    ensures cont ==> s == 0
    ensures !cont && 0.0 <= pollInterval ==> 0 <= s && s as real <= pollInterval < s as real + 1.0
  {
    if cont then 0 else Truncate(pollInterval)
  }

  /** The errors the polls of `rounds` logged, in order. */
  function Logged(rounds: seq<Round>): (errs: seq<string>)
    ensures |errs| <= |rounds|
  {
    if |rounds| == 0 then []
    else Logged(rounds[..|rounds| - 1])
         + (if rounds[|rounds| - 1].err.Some? then [rounds[|rounds| - 1].err.value] else [])
  }

  /** Some round's wait was cancelled. */
  predicate AnyCancelled(rounds: seq<Round>) {
    exists i :: 0 <= i < |rounds| && rounds[i].cancelled
  }

  /** The loop. Every round polls exactly once and then waits; a poll error is logged
      and never ends the loop; only a cancelled wait does, and the loop then returns no
      error. The rounds run are all of them, or those up to the first cancelled one. */
  method PollLoop(pollInterval: real, rounds: seq<Round>) returns (polls: nat, waits: seq<int>, logged: seq<string>, stopped: bool)
    ensures polls == |waits| <= |rounds|
    ensures stopped <==> AnyCancelled(rounds)
    ensures stopped ==> polls > 0 && rounds[polls - 1].cancelled && forall j :: 0 <= j < polls - 1 ==> !rounds[j].cancelled
    ensures !stopped ==> polls == |rounds|
    ensures forall j :: 0 <= j < polls ==> waits[j] == WaitSeconds(pollInterval, rounds[j].cont)
    ensures logged == Logged(rounds[..polls])
  {
    polls, waits, logged := 0, [], [];
    while polls < |rounds|
      invariant polls == |waits| <= |rounds|
      invariant forall j :: 0 <= j < polls ==> !rounds[j].cancelled
      invariant forall j :: 0 <= j < polls ==> waits[j] == WaitSeconds(pollInterval, rounds[j].cont)
      invariant logged == Logged(rounds[..polls])
    {
      var r := rounds[polls];
      assert rounds[..polls + 1][..polls] == rounds[..polls];
      if r.err.Some? {
        logged := logged + [r.err.value];
      }
      var wait := WaitSeconds(pollInterval, r.cont);
      waits := waits + [wait];
      polls := polls + 1;
      if r.cancelled {
        return polls, waits, logged, true;
      }
    }
    stopped := false;
  }

  /** The log holds exactly the errors the polls returned: every one of them, and
      nothing else. */
  lemma {:induction false} LoggedEveryError(rounds: seq<Round>)
    ensures forall e :: e in Logged(rounds) <==> exists i :: 0 <= i < |rounds| && rounds[i].err == Some(e)
  {
    if |rounds| > 0 {
      var init := rounds[..|rounds| - 1];
      LoggedEveryError(init);
      forall e ensures e in Logged(rounds) <==> exists i :: 0 <= i < |rounds| && rounds[i].err == Some(e) {
        if e in Logged(init) {
          var i :| 0 <= i < |init| && init[i].err == Some(e);
          assert rounds[i] == init[i];
        }
        if i :| 0 <= i < |rounds| && rounds[i].err == Some(e) {
          if i < |init| {
            assert init[i] == rounds[i];
          }
        }
      }
    }
  }
}
