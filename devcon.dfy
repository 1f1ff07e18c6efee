/**
 * What the two Windows enumeration checks share: the `devcon status` query built
 * from a device id, the three-way reading of its standard output, the host the
 * checks run against (a shell answering from canned replies, a clock that only
 * records sleeps, a console that records which message was shown), and the
 * reference behaviour of one check as the trace of events it leaves on that host.
 */
module Devcon {
  import opened Text

  /** Marker that devcon prints for a device with a driver problem. */
  const ProblemMarker: string := "The device has the following problem"
  /** Marker that devcon prints for a healthy device. */
  const RunningMarker: string := "Driver is running"
  /** Seconds the check waits before it queries a second time. */
  const RetryDelay: nat := 10

  /** How one devcon answer reads. */
  datatype Status = Problem | Running | NotFound

  /** The query for a device id: the id is used verbatim between two wildcards. */
  function DevconCommand(pid: string): (cmd: string)
    ensures |cmd| == |pid| + 16
    ensures cmd[..15] == "devcon status *"
    ensures cmd[15..|cmd| - 1] == pid
    ensures cmd[|cmd| - 1] == '*'
  {
    "devcon status *" + pid + "*"
  }

  /** Two different device ids never give the same query. */
  lemma DevconCommandInjective(p: string, q: string)
    requires DevconCommand(p) == DevconCommand(q)
    ensures p == q
  {
  }

  /**
   * Reads devcon's standard output: the problem marker is tested first and wins,
   * then the running marker; anything else, the empty output included, is NotFound.
   */
  function Classify(out: string): (st: Status)
    ensures st == Problem <==> Contains(out, ProblemMarker)
    ensures st == Running <==> !Contains(out, ProblemMarker) && Contains(out, RunningMarker)
    ensures st == NotFound <==> !Contains(out, ProblemMarker) && !Contains(out, RunningMarker)
  {
    if Find(out, ProblemMarker) != -1 then Problem
    else if Find(out, RunningMarker) != -1 then Running
    else NotFound
  }

  /** Output holding the problem marker reads as Problem, whatever surrounds it. */
  lemma ProblemAnywhere(pre: string, post: string)
    ensures Classify(pre + ProblemMarker + post) == Problem
  {
    ContainsSelf(ProblemMarker);
    ContainsInContext(pre, ProblemMarker, post, ProblemMarker);
  }

  /**
   * Output holding both markers, in either order, reads as Problem: the priority
   * rule spelled out on concrete layouts (a special case of ProblemAnywhere and of
   * Classify's first ensures; BothMarkersFail states it for any output).
   */
  lemma ProblemWins(pre: string, mid: string, post: string)
    ensures Classify(pre + ProblemMarker + mid + RunningMarker + post) == Problem
    ensures Classify(pre + RunningMarker + mid + ProblemMarker + post) == Problem
  {
    ProblemAnywhere(pre, mid + RunningMarker + post);
    assert pre + ProblemMarker + mid + RunningMarker + post
        == pre + ProblemMarker + (mid + RunningMarker + post);
    ProblemAnywhere(pre + RunningMarker + mid, post);
  }

  /** Output holding the running marker and no problem marker reads as Running. */
  lemma RunningWithoutProblem(pre: string, post: string)
    requires !Contains(pre + RunningMarker + post, ProblemMarker)
    ensures Classify(pre + RunningMarker + post) == Running
  {
    ContainsSelf(RunningMarker);
    ContainsInContext(pre, RunningMarker, post, RunningMarker);
  }

  /** Empty output, and any output shorter than both markers, reads as NotFound. */
  lemma ShortOutputNotFound(out: string)
    requires |out| < |RunningMarker|
    ensures Classify(out) == NotFound
  {
  }

  /** What the shell hands back for one command. */
  datatype Reply = Reply(stdout: string, stderr: string)

  /** The reply the shell gives next; with nothing queued, devcon printed nothing. */
  function Next(pending: seq<Reply>): Reply {
    if pending == [] then Reply("", "") else pending[0]
  }

  /** The replies still queued after one command. */
  function Rest(pending: seq<Reply>): seq<Reply> {
    if pending == [] then [] else pending[1..]
  }

  /** The kinds of console message the checks show (the wording differs between the scripts). */
  datatype Message =
    | NotEnumerated(out: string)   // first answer reads as Problem
    | RetryNotice                  // announcing the wait before the second query
    | YellowBang(out: string)      // second answer reads as Problem: look in Device Manager
    | Enumerated                   // an answer reads as Running
    | EnumerationFailed            // an answer reads as NotFound
    | RawOutput(out: string)       // devcon's output echoed after EnumerationFailed

  /** One observable effect of a check. */
  datatype Event = Query(command: string) | Sleep(seconds: nat) | Show(msg: Message)

  /** The environment a check runs in: shell, clock and console. */
  class Host {
    /** Replies the shell will give, in order. */
    var pending: seq<Reply>
    /** Every effect so far, in order. */
    var events: seq<Event>

    constructor (replies: seq<Reply>)
      ensures pending == replies && events == []
    {
      pending := replies;
      events := [];
    }

    /** Runs a shell command and captures its standard output and standard error. */
    method Run(command: string) returns (r: Reply)
      modifies this
      ensures r == Next(old(pending)) && pending == Rest(old(pending))
      ensures events == old(events) + [Query(command)]
    {
      r := Next(pending);
      pending := Rest(pending);
      events := events + [Query(command)];
    }

    /** Blocks for `seconds`; only the call and its argument are recorded. */
    method Wait(seconds: nat)
      modifies this
      ensures pending == old(pending)
      ensures events == old(events) + [Sleep(seconds)]
    {
      events := events + [Sleep(seconds)];
    }

    /** Writes a message to the console. */
    method Print(m: Message)
      modifies this
      ensures pending == old(pending)
      ensures events == old(events) + [Show(m)]
    {
      events := events + [Show(m)];
    }
  }

  /** The verdict of a check and the effects it had. */
  datatype Trace = Trace(passed: bool, events: seq<Event>)

  /** The terminal second check: only this answer decides the verdict. */
  function SecondCheck(out: string): Trace {
    match Classify(out)
    case Problem => Trace(false, [Show(YellowBang(out))])
    case Running => Trace(true, [Show(Enumerated)])
    case NotFound => Trace(false, [Show(EnumerationFailed), Show(RawOutput(out))])
  }

  /**
   * One check of `cmd` when the shell answers `first` and then `second` on stdout:
   * a Running first answer passes at once; otherwise the check says why, waits
   * RetryDelay seconds, queries again and lets the second answer decide.
   */
  function CheckTrace(cmd: string, first: string, second: string): Trace {
    var retry := [Show(RetryNotice), Sleep(RetryDelay), Query(cmd)];
    var again := SecondCheck(second);
    match Classify(first)
    case Running => Trace(true, [Query(cmd), Show(Enumerated)])
    case Problem =>
      Trace(again.passed, [Query(cmd), Show(NotEnumerated(first))] + retry + again.events)
    case NotFound =>
      Trace(again.passed, [Query(cmd), Show(EnumerationFailed), Show(RawOutput(first))] + retry + again.events)
  }

  /** The number of commands run in a list of events. */
  function Queries(events: seq<Event>): nat {
    if events == [] then 0
    else (if events[0].Query? then 1 else 0) + Queries(events[1..])
  }

  /** The durations of the sleeps in a list of events, in order. */
  function Sleeps(events: seq<Event>): seq<nat> {
    if events == [] then []
    else (if events[0].Sleep? then [events[0].seconds] else []) + Sleeps(events[1..])
  }

  lemma {:induction false} QueriesAppend(a: seq<Event>, b: seq<Event>)
    ensures Queries(a + b) == Queries(a) + Queries(b)
  {
    if a != [] {
      assert (a + b)[1..] == a[1..] + b;
      QueriesAppend(a[1..], b);
    } else {
      assert a + b == b;
    }
  }

  lemma {:induction false} SleepsAppend(a: seq<Event>, b: seq<Event>)
    ensures Sleeps(a + b) == Sleeps(a) + Sleeps(b)
  {
    if a != [] {
      assert (a + b)[1..] == a[1..] + b;
      SleepsAppend(a[1..], b);
    } else {
      assert a + b == b;
    }
  }

  /** Queries and Sleeps of one event. */
  lemma CountsOfOne(e: Event)
    ensures Queries([e]) == (if e.Query? then 1 else 0)
    ensures Sleeps([e]) == (if e.Sleep? then [e.seconds] else [])
  {
  }

  /** Queries and Sleeps of one event in front of others. */
  lemma CountsOfCons(e: Event, rest: seq<Event>)
    ensures Queries([e] + rest) == (if e.Query? then 1 else 0) + Queries(rest)
    ensures Sleeps([e] + rest) == (if e.Sleep? then [e.seconds] else []) + Sleeps(rest)
  {
  }

  /** The second check itself runs no command and does not sleep. */
  lemma SecondCheckIsQuiet(out: string)
    ensures Queries(SecondCheck(out).events) == 0
    ensures Sleeps(SecondCheck(out).events) == []
  {
    match Classify(out)
    case Problem => CountsOfOne(Show(YellowBang(out)));
    case Running => CountsOfOne(Show(Enumerated));
    case NotFound =>
      CountsOfOne(Show(RawOutput(out)));
      CountsOfCons(Show(EnumerationFailed), [Show(RawOutput(out))]);
  }

  /** A first answer that reads as Running passes after one query and no sleep. */
  lemma RunningFirstPassesAtOnce(cmd: string, first: string, second: string)
    requires Classify(first) == Running
    ensures CheckTrace(cmd, first, second).passed
    ensures Queries(CheckTrace(cmd, first, second).events) == 1
    ensures Sleeps(CheckTrace(cmd, first, second).events) == []
  {
    CountsOfOne(Show(Enumerated));
    CountsOfCons(Query(cmd), [Show(Enumerated)]);
  }

  /** The retry part of a check: notice, sleep, second query; one query and one sleep. */
  lemma RetryCounts(cmd: string)
    ensures Queries([Show(RetryNotice), Sleep(RetryDelay), Query(cmd)]) == 1
    ensures Sleeps([Show(RetryNotice), Sleep(RetryDelay), Query(cmd)]) == [RetryDelay]
  {
    CountsOfOne(Query(cmd));
    CountsOfCons(Sleep(RetryDelay), [Query(cmd)]);
    CountsOfCons(Show(RetryNotice), [Sleep(RetryDelay), Query(cmd)]);
  }

  /**
   * A first answer that reads as Problem or NotFound leads to exactly one sleep
   * of RetryDelay seconds and exactly one more query, and the verdict is whether
   * the second answer reads as Running.
   */
  lemma OtherFirstRetriesOnce(cmd: string, first: string, second: string)
    requires Classify(first) != Running
    ensures CheckTrace(cmd, first, second).passed <==> Classify(second) == Running
    ensures Queries(CheckTrace(cmd, first, second).events) == 2
    ensures Sleeps(CheckTrace(cmd, first, second).events) == [RetryDelay]
  {
    var retry := [Show(RetryNotice), Sleep(RetryDelay), Query(cmd)];
    var again := SecondCheck(second).events;
    var report := if Classify(first) == Problem
      then [Show(NotEnumerated(first))]
      else [Show(EnumerationFailed), Show(RawOutput(first))];
    assert CheckTrace(cmd, first, second).events == [Query(cmd)] + (report + (retry + again));
    SecondCheckIsQuiet(second);
    RetryCounts(cmd);
    QueriesAppend(retry, again);
    SleepsAppend(retry, again);
    if Classify(first) == Problem {
      CountsOfOne(Show(NotEnumerated(first)));
    } else {
      CountsOfOne(Show(RawOutput(first)));
      CountsOfCons(Show(EnumerationFailed), [Show(RawOutput(first))]);
    }
    QueriesAppend(report, retry + again);
    SleepsAppend(report, retry + again);
    CountsOfCons(Query(cmd), report + (retry + again));
  }

  /** No check runs more than two commands or sleeps more than once. */
  lemma AtMostOneRetry(cmd: string, first: string, second: string)
    ensures Queries(CheckTrace(cmd, first, second).events) <= 2
    ensures |Sleeps(CheckTrace(cmd, first, second).events)| <= 1
  {
    if Classify(first) == Running {
      RunningFirstPassesAtOnce(cmd, first, second);
    } else {
      OtherFirstRetriesOnce(cmd, first, second);
    }
  }

  /** How many events a check logs before its retry notice: the query and the first report. */
  function ReportLength(first: string): nat {
    if Classify(first) == Problem then 2 else 3
  }

  /**
   * Once a retry happens, the first answer no longer matters: two checks whose
   * first answers both fail to read as Running, whether as Problem or as NotFound,
   * reach the same verdict, and from the retry notice on both log the notice,
   * the sleep, the second query and the second check's messages, and nothing else.
   */
  lemma RetryForgetsFirst(cmd: string, first1: string, first2: string, second: string)
    requires Classify(first1) != Running && Classify(first2) != Running
    ensures CheckTrace(cmd, first1, second).passed == CheckTrace(cmd, first2, second).passed
    ensures ReportLength(first1) <= |CheckTrace(cmd, first1, second).events|
    ensures ReportLength(first2) <= |CheckTrace(cmd, first2, second).events|
    ensures CheckTrace(cmd, first1, second).events[ReportLength(first1)..]
         == [Show(RetryNotice), Sleep(RetryDelay), Query(cmd)] + SecondCheck(second).events
    ensures CheckTrace(cmd, first2, second).events[ReportLength(first2)..]
         == [Show(RetryNotice), Sleep(RetryDelay), Query(cmd)] + SecondCheck(second).events
  {
  }

  /**
   * Output holding both markers, in whatever order and wherever they stand, fails
   * as a second answer and ends the check with the Device Manager diagnostic.
   */
  lemma BothMarkersFail(cmd: string, first: string, out: string)
    requires Classify(first) != Running
    requires Contains(out, ProblemMarker) && Contains(out, RunningMarker)
    ensures !CheckTrace(cmd, first, out).passed
    ensures CheckTrace(cmd, first, out).events[|CheckTrace(cmd, first, out).events| - 1] == Show(YellowBang(out))
  {
    OtherFirstRetriesOnce(cmd, first, out);
  }

  /**
   * A first answer holding the problem marker, whatever else it holds (the running
   * marker included), is reported as a problem and triggers the single retry:
   * two queries and one sleep of RetryDelay seconds, whatever the second answer.
   */
  lemma ProblemFirstRetries(cmd: string, out: string, second: string)
    requires Contains(out, ProblemMarker)
    ensures CheckTrace(cmd, out, second).events[..2] == [Query(cmd), Show(NotEnumerated(out))]
    ensures Queries(CheckTrace(cmd, out, second).events) == 2
    ensures Sleeps(CheckTrace(cmd, out, second).events) == [RetryDelay]
  {
    OtherFirstRetriesOnce(cmd, out, second);
  }

  /**
   * Two answers that both report a problem fail after one sleep, and the check
   * ends with the stronger diagnostic that points at Device Manager.
   */
  lemma ProblemTwiceFails(cmd: string, first: string, second: string)
    requires Classify(first) == Problem && Classify(second) == Problem
    ensures var t := CheckTrace(cmd, first, second);
            && !t.passed
            && Queries(t.events) == 2 && Sleeps(t.events) == [RetryDelay]
            && t.events == [Query(cmd), Show(NotEnumerated(first)), Show(RetryNotice),
                            Sleep(RetryDelay), Query(cmd), Show(YellowBang(second))]
  {
    OtherFirstRetriesOnce(cmd, first, second);
  }

  /** A healthy device passes on the first query, without sleeping. */
  lemma HealthyAtOnce(pid: string, second: string)
    ensures var t := CheckTrace(DevconCommand(pid), "Driver is running normally", second);
            t.passed && Queries(t.events) == 1 && Sleeps(t.events) == [] &&
            Show(Enumerated) in t.events
  {
    var first := "Driver is running normally";
    assert first == "" + RunningMarker + " normally";
    ShorterLacks(first, ProblemMarker);
    RunningWithoutProblem("", " normally");
    RunningFirstPassesAtOnce(DevconCommand(pid), first, second);
  }

  /** A device that reports a problem first and is running on the retry passes after one sleep. */
  lemma RecoversOnRetry(pid: string)
    ensures var t := CheckTrace(DevconCommand(pid), "The device has the following problem: code 28",
                                "Driver is running normally");
            t.passed && Queries(t.events) == 2 && Sleeps(t.events) == [RetryDelay]
  {
    var first := "The device has the following problem: code 28";
    var second := "Driver is running normally";
    assert first == "" + ProblemMarker + ": code 28";
    ProblemAnywhere("", ": code 28");
    assert second == "" + RunningMarker + " normally";
    ShorterLacks(second, ProblemMarker);
    RunningWithoutProblem("", " normally");
    OtherFirstRetriesOnce(DevconCommand(pid), first, second);
  }

  /** A device that devcon never lists fails after one sleep, reported as not found both times. */
  lemma MissingFails(pid: string)
    ensures var t := CheckTrace(DevconCommand(pid), "", "");
            !t.passed && Queries(t.events) == 2 && Sleeps(t.events) == [RetryDelay] &&
            t.events[|t.events| - 2..] == [Show(EnumerationFailed), Show(RawOutput(""))]
  {
    ShortOutputNotFound("");
    OtherFirstRetriesOnce(DevconCommand(pid), "", "");
  }
}
