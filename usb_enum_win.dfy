/** `check_device_status`, the Windows enumeration check of the device-under-test script. */
module UsbEnumWin {
  import opened Text
  import opened Devcon
  import WindowsRun

  /**
   * The second, terminal query, written out identically in both retry branches
   * of `check_device_status`: its answer alone decides the verdict.
   */
  method Recheck(command: string, host: Host) returns (passed: bool)
    modifies host
    ensures var second := Next(old(host.pending)).stdout;
            && passed == SecondCheck(second).passed
            && host.events == old(host.events) + [Query(command)] + SecondCheck(second).events
            && host.pending == Rest(old(host.pending))
  {
    var result := host.Run(command);
    var out, err := result.stdout, result.stderr;
    if Find(out, ProblemMarker) != -1 {
      host.Print(YellowBang(out));
      return false;
    } else if Find(out, RunningMarker) != -1 {
      host.Print(Enumerated);
      return true;
    } else {
      host.Print(EnumerationFailed);
      host.Print(RawOutput(out));
      return false;
    }
  }

  /**
   * Queries devcon for `pid`; a Running answer passes at once, a Problem or
   * NotFound answer is reported, followed by one wait of RetryDelay seconds and
   * one more query whose answer alone decides the verdict. Standard error is
   * captured and never looked at.
   */
  method CheckDeviceStatus(pid: string, host: Host) returns (passed: bool)
    modifies host
    ensures var first := Next(old(host.pending));
            var second := Next(Rest(old(host.pending)));
            var t := CheckTrace(DevconCommand(pid), first.stdout, second.stdout);
            && passed == t.passed
            && host.events == old(host.events) + t.events
            && host.pending == if Classify(first.stdout) == Running
                               then Rest(old(host.pending))
                               else Rest(Rest(old(host.pending)))
  {
    var command := "devcon status *" + pid + "*";
    var result := host.Run(command);
    var out, err := result.stdout, result.stderr;
    if Find(out, ProblemMarker) != -1 {
      host.Print(NotEnumerated(out));
      host.Print(RetryNotice);
      host.Wait(10);
      passed := Recheck(command, host);
    } else if Find(out, RunningMarker) != -1 {
      host.Print(Enumerated);
      passed := true;
    } else {
      host.Print(EnumerationFailed);
      host.Print(RawOutput(out));
      host.Print(RetryNotice);
      host.Wait(10);
      passed := Recheck(command, host);
    }
  }

  /**
   * Runs both Windows checks for the same device id against two hosts that give
   * the same answers: they reach the same verdict, run the same commands, sleep
   * the same way and show the same kinds of message, in the same order. Both
   * verdicts and both logs are those of CheckTrace on the first two answers.
   */
  method AgreesWithCheckEnum(pid: string, replies: seq<Reply>)
    returns (statusPassed: bool, enumPassed: bool, statusEvents: seq<Event>, enumEvents: seq<Event>)
    ensures var t := CheckTrace(DevconCommand(pid), Next(replies).stdout, Next(Rest(replies)).stdout);
            && statusPassed == t.passed && enumPassed == t.passed
            && statusEvents == t.events && enumEvents == t.events
    ensures statusPassed == enumPassed
    ensures statusEvents == enumEvents
    ensures Queries(statusEvents) <= 2 && |Sleeps(statusEvents)| <= 1
  {
    var a := new Host(replies);
    statusPassed := CheckDeviceStatus(pid, a);
    var b := new Host(replies);
    enumPassed := WindowsRun.CheckEnum(pid, b);
    statusEvents, enumEvents := a.events, b.events;
    assert statusEvents == CheckTrace(DevconCommand(pid), Next(replies).stdout, Next(Rest(replies)).stdout).events;
    AtMostOneRetry(DevconCommand(pid), Next(replies).stdout, Next(Rest(replies)).stdout);
  }
}
