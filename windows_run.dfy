/** `check_enum`, the enumeration check of the Windows USB test script. */
module WindowsRun {
  import opened Text
  import opened Devcon

  /**
   * The second, terminal query, written out identically in both retry branches
   * of `check_enum`: its answer alone decides the verdict.
   */
  method Recheck(command: string, host: Host) returns (passed: bool)
    modifies host
    ensures var second := Next(old(host.pending)).stdout;
            && passed == SecondCheck(second).passed
            && host.events == old(host.events) + [Query(command)] + SecondCheck(second).events
            && host.pending == Rest(old(host.pending))
  {
    var result := host.Run(command);
    var out, err := result.stdout, result.stderr;
    if Find(out, ProblemMarker) != -1 {
      host.Print(YellowBang(out));
      return false;
    } else if Find(out, RunningMarker) != -1 {
      host.Print(Enumerated);
      return true;
    } else {
      host.Print(EnumerationFailed);
      host.Print(RawOutput(out));
      return false;
    }
  }

  /**
   * Queries devcon for `pid`; a Running answer passes at once, a Problem or
   * NotFound answer is reported, followed by one wait of RetryDelay seconds and
   * one more query whose answer alone decides the verdict. Standard error is
   * captured and never looked at.
   */
  method CheckEnum(pid: string, host: Host) returns (passed: bool)
    modifies host
    ensures var first := Next(old(host.pending));
            var second := Next(Rest(old(host.pending)));
            var t := CheckTrace(DevconCommand(pid), first.stdout, second.stdout);
            && passed == t.passed
            && host.events == old(host.events) + t.events
            && host.pending == if Classify(first.stdout) == Running
                               then Rest(old(host.pending))
                               else Rest(Rest(old(host.pending)))
  {
    var command := "devcon status *" + pid + "*";
    var result := host.Run(command);
    var out, err := result.stdout, result.stderr;
    if Find(out, ProblemMarker) != -1 {
      host.Print(NotEnumerated(out));
      host.Print(RetryNotice);
      host.Wait(10);
      passed := Recheck(command, host);
    } else if Find(out, RunningMarker) != -1 {
      host.Print(Enumerated);
      passed := true;
    } else {
      host.Print(EnumerationFailed);
      host.Print(RawOutput(out));
      host.Print(RetryNotice);
      host.Wait(10);
      passed := Recheck(command, host);
    }
  }
}
