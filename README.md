# TV power scheduler: command execution, device operations and the job table

This project models the decision logic of a small daemon that switches a
television on and off over HDMI-CEC on a fixed timetable. The daemon pipes
textual CEC commands into the `cec-client` adapter, one subprocess per
command. It registers its power-on and power-off jobs with the `schedule`
library's global registry.

Three parts are modelled:

- **Command execution** (module `Cec`, and `TVController.ExecuteCecCommand`).
  The shell line is `echo "<command>" | cec-client -s -d 1`. A parser reads
  the command back out of such a line, and two lemmas prove that it inverts
  the builder. The subprocess becomes an abstract `Outcome`: `Exited(code)`,
  `TimedOut` or `LaunchFailed`. The boolean result is true exactly when the
  process exits with status 0; every `Exception` is turned into false.
- **Device operations** (module `Controller`). The subprocess world and the
  clock are a `Host` object. It holds a script `nat -> Outcome` that says how
  the k-th launched process ends, a launch counter, and a trace of events.
  Each event is either `Launched(line, outcome)` or `Slept(seconds)`.
  `Host.Valid()` states that outcomes are handed out in order: the k-th
  launch in the trace got the k-th scripted outcome. `TurnOnTv` and
  `TurnOffTv` are methods of the `TVController` class. Their postconditions
  give the whole new trace and the returned value in terms of the scripted
  outcomes.
- **Schedule table** (modules `Schedule` and `PinnedSchedule`). The registry
  is a `Scheduler` object holding a `seq<Job>`. `SetupSchedule` clears it and
  then appends jobs in two `for` loops. Each job has a recurrence, a time of
  day, an action and a day-name tag. As in the code, every job recurs
  `Daily`, and the day name is only a tag.

Three points the model keeps as the code has them:

- The input switch is unconditional: after a successful `on 0` the code
  always sends `tx 1F:82:10:00` and reports that frame's result.
- The on and off times are fixed constants in the code.
- The executor returns only a boolean. No failure reason is returned; the
  three failure kinds differ only in what is logged.

## Model

| member | source | states |
|---|---|---|
| `Cec.Succeeded` | tv_automate.py:33-47 | An exit status of 0 gives true and a nonzero status gives false. A timeout or any other launch or run failure gives false. The function is total, so no `Exception` is propagated (see the `ExecuteCecCommand` line under "## Left out" for other exceptions). |
| `Cec.CommandIn` | tv_automate.py:28 | When a line parses as a shell line for the adapter, its length is the echo prefix plus the command plus the adapter suffix. |
| `Cec.ShellLineParses` | tv_automate.py:28 | The command can always be read back out of the shell line built for it. |
| `Cec.CommandInIsShellLine` | tv_automate.py:28 | Any line the parser accepts is exactly the shell line of the command it returns. Together with `ShellLineParses`, the parser and the builder are inverse to each other. |
| `Cec.ShellLineInjective` | tv_automate.py:28 | Different commands give different shell lines. |
| `Controller.Host.Run` | tv_automate.py:29-31 | Launching one process consumes the next scripted outcome and returns it. It appends exactly one `Launched` event and keeps outcomes handed out in order. |
| `Controller.Host.Sleep` | tv_automate.py:59 | Sleeping appends one `Slept` event and launches nothing. |
| `Controller.TVController.constructor` | tv_automate.py:21-23 | The device address is "0" and the adapter program is "cec-client". |
| `Controller.TVController.ExecuteCecCommand` | tv_automate.py:25-47 | Exactly one process runs, on `ShellLine(cecClient, command)`. The result is true if and only if that process exited with status 0. |
| `Controller.TVController.TurnOnTv` | tv_automate.py:49-67 | If `on 0` fails, only that one command is launched, there is no settle sleep, and the result is false. Otherwise the trace gains `on 0`, a 15-second sleep and `tx 1F:82:10:00`, in that order. The result is then exactly the success of the second command. |
| `Controller.TVController.TurnOffTv` | tv_automate.py:69-78 | Exactly one command, `standby 0`, is launched, and its success is returned unchanged. |
| `Schedule.Scheduler.Clear` | tv_automate.py:84 | The registry is left empty. |
| `Schedule.Scheduler.Add` | tv_automate.py:89 | The `every().day.at(..).do(..).tag(..)` chain appends exactly one job after those already registered. |
| `Schedule.Register` | tv_automate.py:88-90 | One loop registers two jobs per tag, in tag order. For tag i, job 2i is the daily power-on and job 2i+1 is the daily power-off. |
| `Schedule.SetupSchedule` | tv_automate.py:81-98 | Afterwards the registry is exactly `ScheduleTable()`, whatever it held before. A second call therefore yields the same registry and never adds jobs. |
| `Schedule.RegisterHas` | tv_automate.py:88-96 | A job comes out of a loop if and only if it is daily, its tag is one of the loop's days, and it is the power-on at the loop's on-time or the power-off at its off-time. |
| `Schedule.RegisterDistinct` | tv_automate.py:87-96 | A loop over distinct day names registers no job twice. |
| `Schedule.ScheduleTableIsTimetable` | tv_automate.py:84-96 | After setup the registry holds exactly 14 jobs, none twice. They are exactly the daily jobs that power on at 09:30 and off at 17:45 for monday–thursday and sunday, and on at 08:30 and off at 21:45 for friday and saturday. |
| `Schedule.ScheduledJobsFireEveryDay` | tv_automate.py:89-96 | Every registered job recurs on every day of the week. The day-name tag restricts nothing. |
| `Schedule.Due` | tv_automate.py:109-111 | The jobs due at a given day and minute are exactly the registered jobs whose recurrence covers that day and whose time is that minute. Without repetitions in the registry, there are none in the due list either. |
| `Schedule.FridayPoweredOffEarly` | tv_automate.py:90 | As written, on a Friday at 17:45 a power-off job is due, though Friday's profile keeps the TV on until 21:45. |
| `Schedule.AsWrittenDueAt` | tv_automate.py:86-96 | As written, on any day the number of jobs due at a profile time equals the number of tags whose profile uses that time. |
| `Schedule.AsWrittenDueEveryDay` | tv_automate.py:86-96 | As written, on every day five power-ons are due at 09:30 and two at 08:30. Likewise five power-offs are due at 17:45 and two at 21:45. |
| `PinnedSchedule.PinToTag` | tv_automate.py:89-96 | The corrected registration changes each job only by making it recur weekly on its tag's day; order and count are kept. |
| `PinnedSchedule.IntendedTableIsPinnedTimetable` | tv_automate.py:86-96 | The corrected registry holds 14 jobs, none twice. Each recurs weekly on its tag's day, at that day's profile time for its operation. |
| `PinnedSchedule.IntendedDueFollowsProfile` | tv_automate.py:86-96 | Corrected, on every day exactly one power-on is due at that day's on-time and exactly one power-off at its off-time. No job is due at any other minute. |

## Findings

| source | as written | input that shows it | evidently intended | confidence | as-written member | corrected member |
|---|---|---|---|---|---|---|
| tv_automate.py:89-96 | Every job is registered with `every().day`. The day name goes only into `.tag(...)`, so all 14 jobs fire every day. | A Friday at 17:45: the five weekday-tagged power-offs run and switch the TV off, though Friday's profile keeps it on until 21:45. A Monday at 08:30: the friday/saturday-tagged power-ons run, an hour before Monday's 09:30. | Each job recurs weekly on its tag's day (`every().monday` and so on), so each day follows its own profile, with one job per due minute. | high (not executed) | `Schedule.AsWrittenDueEveryDay` | `PinnedSchedule.IntendedDueFollowsProfile` |

`SetupSchedule` keeps the registration as written, with daily recurrence,
because that is what the code does. `PinnedSchedule.IntendedTable` is the
table the corrected registration would produce.

## Left out

- The real subprocess launch, the shell pipe and the behaviour of `cec-client` (tv_automate.py:29-31) are foreign process I/O. They are replaced by the scripted `Outcome` oracle in `Host`. The 30-second timeout appears only as the `TimedOut` outcome.
- Controller.TVController.ExecuteCecCommand: an exception that is a `BaseException` but not an `Exception` (a `KeyboardInterrupt` or `SystemExit` raised while `subprocess.run` waits, tv_automate.py:29-31, or during the settle sleep, tv_automate.py:59) goes out of it and out of `TurnOnTv` in the code and is left to `main`, which is not modelled; the model has no such path.
- The captured standard error and the exception text are used only in log lines, so `Outcome` does not carry them.
- Logging setup and every log call (tv_automate.py:10-17 and throughout) are left out. They do not affect any returned value.
- Sleeps are not timed. The 15-second settle sleep is recorded as a `Slept` event. The 60-second polling sleeps of the main loop (tv_automate.py:112, tv_automate.py:116) are left out with the loop.
- `main` and its run loop (tv_automate.py:101-122) are not modelled. They cover the polling of `schedule.run_pending()`, the per-iteration exception handling, the KeyboardInterrupt exit and the fatal-error re-raise. That is process-lifecycle plumbing around a library whose due-time bookkeeping (`next_run`) is not part of this model.
- `Schedule.Due` gives only which jobs match a day and minute. It assumes each due job runs once at that minute. The library's catch-up and next-run arithmetic is not modelled.
- The `schedule` library's parsing of "HH:MM" strings is left out; times are `TimeOfDay(hour, minute)` values.
- The bound controller methods that jobs call are modelled as the `Action` values `TurnOnTv` and `TurnOffTv`. The controller object itself is not stored in a job.
- The frame `tx 1F:82:10:00` is treated as an opaque string and not decoded as an HDMI-CEC Active Source message.
