# USB enumeration check on Windows, in Dafny

The repository's Windows scripts check whether a USB device has enumerated. Each
script runs `devcon status *<pid>*` and reads devcon's standard output in a fixed
order:

1. If the output contains "The device has the following problem", the answer is
   Problem. This test comes first, so it wins.
2. Otherwise, if it contains "Driver is running", the answer is Running.
3. Anything else is NotFound, including empty output.

A Running first answer passes at once. A Problem or NotFound first answer is
reported. The script then sleeps 10 seconds, runs the same command once more, and
that second answer alone decides pass or fail. Two scripts do this:

- `check_enum` in `USBDevice/Windows/run.py`
- `check_device_status` in `usb_test/usb_enum_win.py`

They differ only in the wording of their console messages.

The model has four modules:

- `Text` (text.dfy): Python's `str.find` as a recursive search, `FindFrom` / `Find`,
  proved against a declarative `Contains`.
- `Devcon` (devcon.dfy): what the two scripts share.
  - the two markers, the 10-second `RetryDelay`, the three-way `Status` and `Classify`
  - the command built from the device id, `DevconCommand`
  - the `Host` class: the environment a check runs in (see below)
  - the reference behaviour of one check, `CheckTrace`, and the lemmas about it
- `WindowsRun` (windows_run.dfy): `check_enum` as an imperative method over a `Host`.
- `UsbEnumWin` (usb_enum_win.dfy): `check_device_status`, the same way. It also holds a
  client method that runs both checks on identical hosts and proves that they agree.

`Host` stands in for the shell, the clock and the console:

- The shell answers from a queue of canned replies (stdout and stderr). Once the
  queue is empty, it answers with empty output.
- A sleep is only recorded, with its duration.
- A console message is recorded by its kind, not by its wording.

Everything a check does goes into one ordered event log: `Query(command)`,
`Sleep(seconds)` and `Show(message)`. Each check method's `ensures` states three
things in terms of the first two replies:

- its verdict;
- the exact events it appends to the log;
- the replies it consumes.

These are stated through `CheckTrace`. The lemmas about `CheckTrace` then give the
properties the scripts promise.

Only standard output is classified: standard error is captured into `err` and
never read (`USBDevice/Windows/run.py:11,17,37`). `CheckTrace` and both check
methods therefore take only the `stdout` of each reply.

## Model

| member | source | states |
|---|---|---|
| `Text.FindFrom` | USBDevice/Windows/run.py:12 | the result is -1 exactly when the marker does not occur at or after `k`, and otherwise it is the lowest such index where it occurs |
| `Text.Find` | USBDevice/Windows/run.py:12 | `out.find(marker) != -1` holds exactly when `out` contains `marker`; a non-negative result is the first occurrence |
| `Devcon.DevconCommand` | USBDevice/Windows/run.py:9 | the command is `devcon status *`, then the pid character for character, then a closing `*`, so it is 16 characters longer than the pid |
| `Devcon.DevconCommandInjective` | usb_test/usb_enum_win.py:6 | the pid is used verbatim: different pids never give the same command |
| `Devcon.Classify` | USBDevice/Windows/run.py:18-24 | Problem exactly when the output contains the problem marker; Running exactly when it contains the running marker and not the problem marker; NotFound exactly when it contains neither |
| `Devcon.ProblemAnywhere` | USBDevice/Windows/run.py:12 | any output with the problem marker in it reads as Problem, whatever text surrounds it |
| `Devcon.ProblemWins` | usb_test/usb_enum_win.py:9 | output holding both markers, in either order, reads as Problem: the problem test comes first |
| `Devcon.RunningWithoutProblem` | USBDevice/Windows/run.py:28 | output with the running marker and no problem marker reads as Running |
| `Devcon.ShortOutputNotFound` | USBDevice/Windows/run.py:31-33 | empty output, and any output shorter than both markers, reads as NotFound |
| `Devcon.Host.constructor` | USBDevice/Windows/run.py:10-11 | a fresh host has the given replies queued and an empty event log |
| `Devcon.Host.Run` | USBDevice/Windows/run.py:10-11 | running a command logs one query, returns the next queued reply (stdout and stderr) and removes it from the queue |
| `Devcon.Host.Wait` | USBDevice/Windows/run.py:15 | a sleep logs its duration and changes nothing else |
| `Devcon.Host.Print` | USBDevice/Windows/run.py:13 | a console message logs its kind and changes nothing else |
| `Devcon.SecondCheckIsQuiet` | USBDevice/Windows/run.py:18-27 | deciding on the second answer runs no further command and does not sleep |
| `Devcon.RunningFirstPassesAtOnce` | USBDevice/Windows/run.py:28-30 | a first answer that reads as Running passes after exactly one query and no sleep |
| `Devcon.OtherFirstRetriesOnce` | USBDevice/Windows/run.py:12-47 | a first answer that reads as Problem or NotFound leads to exactly one sleep of 10 seconds and two queries in all; the verdict is true exactly when the second answer reads as Running |
| `Devcon.AtMostOneRetry` | USBDevice/Windows/run.py:12-47 | no check runs more than two commands or sleeps more than once |
| `Devcon.RetryForgetsFirst` | USBDevice/Windows/run.py:14-47 | once a retry happens, the first answer no longer matters: a retry triggered by Problem and one triggered by NotFound reach the same verdict, and after the first report (2 events for Problem, 3 for NotFound) both logs are exactly the retry notice, the 10-second sleep, the second query and the second check's messages |
| `Devcon.BothMarkersFail` | USBDevice/Windows/run.py:18-20 | any output that contains both markers, in either order, fails as a second answer and ends the check with the Device Manager diagnostic |
| `Devcon.ProblemFirstRetries` | USBDevice/Windows/run.py:12-17 | a first answer containing the problem marker, whatever else it contains, is reported as a problem and leads to two queries and one 10-second sleep, whatever the second answer |
| `Devcon.ProblemTwiceFails` | USBDevice/Windows/run.py:12-20 | two answers that both read as Problem: fail after two queries and one 10-second sleep, the whole log being query, first diagnostic, retry notice, sleep, query and the Device Manager diagnostic |
| `Devcon.HealthyAtOnce` | USBDevice/Windows/run.py:28-30 | first answer "Driver is running normally": pass, one query, no sleep, the success message shown |
| `Devcon.RecoversOnRetry` | USBDevice/Windows/run.py:12-23 | a problem ("code 28") first and a running device second: pass after one 10-second sleep and two queries |
| `Devcon.MissingFails` | USBDevice/Windows/run.py:31-47 | empty output twice: fail after one 10-second sleep and two queries, ending with the not-found message and the raw output |
| `WindowsRun.Recheck` | USBDevice/Windows/run.py:16-27 | the second query consumes one reply; its verdict and messages are those of the terminal check on that reply's stdout |
| `WindowsRun.CheckEnum` | USBDevice/Windows/run.py:7-47 | the verdict and the events appended to the host's log are those of `CheckTrace` on the command for `pid` and the stdout of the first two replies; one reply is consumed when the first reads as Running, two otherwise |
| `UsbEnumWin.Recheck` | usb_test/usb_enum_win.py:13-24 | the second query consumes one reply; its verdict and messages are those of the terminal check on that reply's stdout |
| `UsbEnumWin.CheckDeviceStatus` | usb_test/usb_enum_win.py:4-44 | the verdict and the events appended to the host's log are those of `CheckTrace` on the command for `pid` and the stdout of the first two replies; one reply is consumed when the first reads as Running, two otherwise |
| `UsbEnumWin.AgreesWithCheckEnum` | usb_test/usb_enum_win.py:9-44 | for any replies, running `check_device_status` and `check_enum` on two hosts queued with them gives, for both, the verdict and log of `CheckTrace` on the first two answers; so the two return the same boolean, run the same commands, sleep the same way and show the same kinds of message in the same order, with at most two queries and one sleep |

## Left out

- Running the shell command (`subprocess.run`) is left out: it is external I/O. The `Host` answers from a queue of canned replies.
- When the reply queue is empty, the host answers with empty output, which reads as NotFound.
- A missing `devcon` needs no separate treatment. The command runs through the shell without `check=True` (`USBDevice/Windows/run.py:10,16,36`), so the shell's error goes to stderr and stdout is empty. A host queued with such replies reads NotFound twice and the check fails. Only a shell that cannot start, or output that cannot be decoded as text, would raise in Python; neither is modelled.
- `time.sleep(10)` is left out as real time. Only the call and its argument are recorded.
- The wording of console messages is left out; only their kind and order are logged. The wording differs between the two scripts, and even within `usb_test/usb_enum_win.py` ("10 sec" on line 11, "10 secs" on line 31). It carries no logic.
- WindowsRun.Recheck, UsbEnumWin.Recheck: each script writes its second-query block out twice, once per retry branch, and the two copies are identical. The model writes that block once, as a method called from both branches.
- The `__main__` entry points are left out. `USBDevice/Windows/run.py:49-54` reads a pid with `input()` and prints `[PASS]`/`[FAIL]`; `usb_test/usb_enum_win.py:46-48` reads a pid and discards the verdict.
- The Linux scripts `USBDevice/Linux/run.py` and `usb_test/usb_enum_linux.py` are not part of this model. Their verdict is only the exit status of an external `lsusb | grep -i <pid>` pipeline. They also mix tab- and space-indented lines (for example `USBDevice/Linux/run.py:9-10`), which Python 3 rejects.
- Every path of the scripts ends in a boolean return. In Dafny that is given by the method signatures, so no lemma states it.
