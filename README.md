# Dataset recorder GUI — a Dafny model

`tk_dataset_recorder.py` is a small desktop front end for collecting a screen-recording
dataset. It shows the operator one task at a time and has two buttons. "Start" launches
an external recorder script as a child process, tagged with a recording id such as
`rec_20240131_235959`, the task text and the operator's name. "Finish" stops the child
in stages: SIGINT, then terminate, then kill. Each of the first two stages polls the child
at most 31 times: once before its signal, then up to 30 times, sleeping 100 ms after each
poll that finds it running. A last poll decides the kill. When the child has exited, the
GUI handles the exit:

- it reports an abnormal exit code;
- it hands the recording's `meta.json` to the task source;
- it fetches the next task.

Tasks come from an HTTP backend (`/next_task`, `/submit`) or from a local list of prompts.
The list is a `TASKS_JSON` file or three built-in demo prompts. Environment variables choose
between them.

The model has five modules, one file each:

- `builtins.dfy` (`Builtins`): the Python string operations the program relies on:
  - `str.strip()` and `str.rstrip("/")`;
  - `str(int)`;
  - zero-padded decimal formatting.
- `tasks.dfy` (`Tasks`): the `Task` record and the parse of the backend's `/next_task`
  answer. It also holds the class `LocalProvider` (`LocalListTaskProvider` in Python), whose
  `idx` cursor moves through the kept prompts.
- `supervisor.dfy` (`Supervisor`):
  - the recorder child, modelled as a `Process` object that logs what is done to it;
  - the staged shutdown, written as imperative loops and proved equal to a trace function;
  - the properties of that trace: signal order, guards, bounds;
  - exit-code classification, recorder-script lookup, and the recording id and command line.
- `config.dfy` (`Config`): `make_provider_from_env`'s precedence and `_detect_operator`.
- `session.dfy` (`Session`): the `App` controller. It is a class with the fields
  `recording`, `current_task`, `rec_proc`, `_timer_job`, `rec_start_time`, the button
  states, the status line and the timer. The transitions `on_start`, `on_finish`,
  `_on_recorder_stopped`, `_fetch_and_show_next_task` and `_tick_timer` are its methods.
  The `mm:ss` display format is a function here.

The environment is a `map<string, string>`. The file system is the set of existing paths, or
a map from a path to what reading it as JSON gives. The wall clock, the login name, the
HTTP answer, the child's spawn result and its exit code are parameters of the
transitions that use them.

The child is observed only through `poll()`, so it is modelled by the number of polls that
will still find it running (`alivePolls`). A child that reports "running" to its first
`alive` polls receives:

- SIGINT exactly when `alive >= 1`;
- terminate exactly when `alive >= 32`;
- kill exactly when `alive >= 63`.

A missing return code (`None`) is treated like 0 and -2: no error box (`ClassifyExit`).

## Model

| member | source | states |
|---|---|---|
| Builtins.Strip | tk_dataset_recorder.py:85 | `str.strip()`: no longer than its input, no whitespace at either end, and empty exactly when the input is all whitespace; `StripSlice` adds that it is the slice of the input between a blank prefix and a blank suffix |
| Builtins.StripSlice | tk_dataset_recorder.py:85 | the stripped text is the slice of the input that starts where the leading whitespace ends, with only whitespace before and after it |
| Builtins.TrimEndChar | tk_dataset_recorder.py:46 | `rstrip("/")`: a prefix of the input, the removed part all `c`, and the result does not end in `c` |
| Builtins.NatToString | tk_dataset_recorder.py:93 | `str(n)` of a natural number is a non-empty run of digits with no leading zero; `NatToStringRoundTrip` and `NatToStringInjective` state that it reads back as `n` |
| Builtins.NatToStringRoundTrip | tk_dataset_recorder.py:93 | the digits `str(n)` produces read back as `n` |
| Builtins.IntToString | tk_dataset_recorder.py:71 | `str(i)` of any int: non-empty, with a leading "-" exactly for a negative number; the digits are `str` of the magnitude, read back by `NatToStringRoundTrip`, and the negative case is stated by `PadTwoValue` |
| Builtins.ZeroPad | tk_dataset_recorder.py:306 | zero padding gives only digits; `ZeroPadValue` states its exact length and value |
| Builtins.ZeroPadValue | tk_dataset_recorder.py:306 | `f"{n:0wd}"` is exactly `w` long, or as long as `str(n)` when that is longer, and reads back as `n` |
| Builtins.ZeroPadFits | tk_dataset_recorder.py:197 | zero padding of a number that fits the width is exactly that wide and reads back as the number |
| Tasks.ParseTask | tk_dataset_recorder.py:66-73 | a task exactly when the answer is an object with a "text" key; the text is `str(data["text"])`; the id is `str(data["task_id"])` when present and "" otherwise; a failed request or a non-object gives none |
| Tasks.ParseTaskRoundTrip | tk_dataset_recorder.py:66-73 | the object a backend sends for a task parses back to that task, and an object with only "text" parses to a task with the empty id |
| Tasks.NumericTaskId | tk_dataset_recorder.py:71 | a `task_id` that is a natural number becomes digits that read back as the number (negative ids are not covered by this lemma) |
| Tasks.KeepNonBlank | tk_dataset_recorder.py:85 | the kept list is no longer than the input and holds no blank entry |
| Tasks.KeptPositions | tk_dataset_recorder.py:85 | the kept positions are in range and strictly increasing |
| Tasks.KeepNonBlankSpec | tk_dataset_recorder.py:85 | one kept entry per kept position; the kept list is exactly the entries whose `strip()` is non-empty, unmodified and in their original order |
| Tasks.KeepNonBlankAllKept | tk_dataset_recorder.py:85 | a list without blank entries is kept whole |
| Tasks.ExampleKeptWhole | tk_dataset_recorder.py:85 | `["A", "B"]` is kept whole |
| Tasks.LocalId | tk_dataset_recorder.py:93 | every local id starts with "local_" followed by at least one character; `LocalIdDigits` states what follows |
| Tasks.LocalIdDigits | tk_dataset_recorder.py:93 | after "local_" the id is exactly `str(n)`: digits that read back as the position `n` |
| Tasks.LocalIdInjective | tk_dataset_recorder.py:93 | different positions get different ids |
| Tasks.LocalStep | tk_dataset_recorder.py:88-93 | the cursor never passes the end; it moves by one exactly when a task is returned, and stays exactly when the list is used up |
| Tasks.LocalRunSpec | tk_dataset_recorder.py:88-93 | successive calls hand out the remaining tasks in order with ids `local_k`, then `None` forever |
| Tasks.LocalProvider.constructor | tk_dataset_recorder.py:84-86 | the provider holds the non-blank prompts with its cursor at 0 |
| Tasks.LocalProvider.GetNextTask | tk_dataset_recorder.py:88-93 | keeps the cursor in range and returns the task and advances the cursor as `LocalStep` does |
| Tasks.LocalListExample | tk_dataset_recorder.py:83-93 | a provider built from `["A", "B"]` gives `local_1`/"A", `local_2`/"B", then `None`, `None` |
| Supervisor.Process.Poll | tk_dataset_recorder.py:238 | a poll finds the child running exactly while it has "running" answers left, uses one up, and is logged |
| Supervisor.Process.Sleep | tk_dataset_recorder.py:243 | a sleep changes nothing about the child and is logged |
| Supervisor.Process.SendSignal | tk_dataset_recorder.py:239 | a signal is logged; the child's remaining polls are independent of it |
| Supervisor.WaitForExit | tk_dataset_recorder.py:240-243 | the loop leaves at the first poll that finds the child exited or after 30 polls, sleeping after each "running" poll; its trace and the child's remaining answers are `WaitTrace` and `WaitLeft` |
| Supervisor.Escalate | tk_dataset_recorder.py:238-243 | one stage polls, and signals and waits only if the child is running; its trace is `Escalation` |
| Supervisor.StagedShutdown | tk_dataset_recorder.py:237-251 | the whole escalation appends exactly `ShutdownTrace` of the child's remaining running polls and leaves it `ShutdownLeft` of them |
| Supervisor.ShutdownLeftClosed | tk_dataset_recorder.py:237-251 | a shutdown uses up at most 63 running answers of the child: none remain when it had at most 63, and 63 fewer otherwise |
| Supervisor.WaitTraceBounds | tk_dataset_recorder.py:240-243 | a polling loop sends no signal, sleeps at most 30 times and polls at most 30 times |
| Supervisor.WaitTraceShape | tk_dataset_recorder.py:240-243 | a polling loop sends no signal and sees the child exit exactly when fewer than 30 running answers remain |
| Supervisor.StagesReached | tk_dataset_recorder.py:237-251 | at most three stages send a signal |
| Supervisor.EscalationSignals | tk_dataset_recorder.py:238-243 | a stage sends its signal exactly when its first poll finds the child running |
| Supervisor.StageSignals | tk_dataset_recorder.py:239-243 | a signal followed by a polling loop that sends nothing sends exactly that signal |
| Supervisor.EscalationCounts | tk_dataset_recorder.py:238-243 | a stage sleeps at most 30 times and polls at most 31 times |
| Supervisor.EscalationGuards | tk_dataset_recorder.py:238-243 | a stage signals only right after a poll that found the child running, never after one that found it exited, and sees the exit exactly when at most 30 running answers remain |
| Supervisor.LastCheckCounts | tk_dataset_recorder.py:250-251 | the last check kills exactly when the child is still running, with one poll and no sleep |
| Supervisor.LastCheckGuards | tk_dataset_recorder.py:250-251 | kill is sent only right after a poll that found the child running |
| Supervisor.TailGuarded | tk_dataset_recorder.py:244-251 | the terminate stage followed by the last check keeps both signal guards and starts with a poll |
| Supervisor.AliveAfterStages | tk_dataset_recorder.py:237-251 | the child is still running after the interrupt stage exactly when it had more than 31 running answers, and after the terminate stage exactly when it had more than 62 |
| Supervisor.SignalsInOrder | tk_dataset_recorder.py:237-251 | per-stage signals, each present exactly when its stage found the child running, make up a prefix of interrupt, terminate, kill |
| Supervisor.ShutdownSignals | tk_dataset_recorder.py:237-251 | the signals sent are exactly the first `StagesReached(alive)` of SIGINT, terminate, kill, in that order: none if the first poll finds the child exited, no stage skipped, kill only if it survives terminate |
| Supervisor.ShutdownIsBounded | tk_dataset_recorder.py:237-251 | the shutdown sleeps at most 60 times and polls at most 63 times |
| Supervisor.ShutdownSignalsGuarded | tk_dataset_recorder.py:237-251 | every signal follows a poll that found the child running, and none is sent once a poll has found it exited |
| Supervisor.ClassifyExit | tk_dataset_recorder.py:269-281 | `None`, 0 and -2 are a clean stop; -5 is the permission error; every other code is reported with that code (each as an if-and-only-if) |
| Supervisor.FirstExisting | tk_dataset_recorder.py:318-329 | the path found exists |
| Supervisor.FirstExistingSpec | tk_dataset_recorder.py:318-329 | nothing is found exactly when no candidate exists; otherwise the result is the first existing candidate |
| Supervisor.FindRecorderScript | tk_dataset_recorder.py:318-329 | the result is the first existing candidate: the stripped `RECORDER_SCRIPT` when non-empty, then `datagrabber_69.py`, then `pc_screen_dataset_recorder.py` |
| Supervisor.FindByName | tk_dataset_recorder.py:323-329 | the loop over recorder names returns the first that exists next to the GUI |
| Supervisor.OverrideSkipped | tk_dataset_recorder.py:320-322 | an empty or missing override leaves the choice to the recorder names |
| Supervisor.DatePartFields | tk_dataset_recorder.py:197 | `%Y%m%d` is eight characters: four year digits, then two each for month and day |
| Supervisor.TimePartFields | tk_dataset_recorder.py:197 | `%H%M%S` is six characters: two digits each for hour, minute and second |
| Supervisor.RecId | tk_dataset_recorder.py:197 | `rec_%Y%m%d_%H%M%S`; its properties are stated by `RecIdRoundTrip` and `RecIdInjective` |
| Supervisor.RecIdRoundTrip | tk_dataset_recorder.py:197 | a recording id has 19 characters, starts with "rec_", has "_" at position 12, and parses back to its stamp |
| Supervisor.RecIdInjective | tk_dataset_recorder.py:197 | two sessions share a recording id only if they start in the same second |
| Supervisor.LaunchCommand | tk_dataset_recorder.py:198-205 | the command has 6 entries, or 8 with a non-empty operator, and reads back to the interpreter, script, id, task and operator |
| Config.MakeProvider | tk_dataset_recorder.py:343-359 | `make_provider_from_env` over the environment and the file system; its precedence is stated by `SelectProvider`, and `TasksFileOfStrings` states the list case end to end |
| Config.SelectProvider | tk_dataset_recorder.py:343-359 | a non-blank `TASK_API_BASE` wins exactly; next, a `TASKS_JSON` list gives its items as strings; an unreadable file is the only failure and names the path; otherwise the demo prompts |
| Config.BaseUrlTrimmed | tk_dataset_recorder.py:344-346 | the backend URL is the stripped base without its trailing slashes |
| Config.EndpointJoin | tk_dataset_recorder.py:50 | base URL and request path join with exactly one slash |
| Config.RenderedTexts | tk_dataset_recorder.py:352 | rendering a list of JSON strings gives the strings |
| Config.TasksFileOfStrings | tk_dataset_recorder.py:348-352 | a `TASKS_JSON` list of non-blank strings yields exactly those prompts, all kept |
| Config.OperatorNameBlank | tk_dataset_recorder.py:332-333 | the stripped `OPERATOR_NAME` is empty exactly when the variable is unset or blank, and otherwise has no whitespace at either end |
| Config.DetectOperator | tk_dataset_recorder.py:331-339 | the stripped `OPERATOR_NAME` when non-empty, else the login name, else ""; empty exactly when both are missing or empty |
| Session.ShownText | tk_dataset_recorder.py:177 | the task box shows the task's text, or the "no more tasks" message when there is none; `FetchAndShowNextTask` sets the task it is applied to |
| Session.MetaOf | tk_dataset_recorder.py:285-289 | a missing `meta.json` submits `{}`, a readable one its content; only a file that cannot be read skips the submission (an if-and-only-if) |
| Session.ExitDialogs | tk_dataset_recorder.py:269-281 | at most one error box; none exactly for `None`, 0 and -2; otherwise the classified report |
| Session.PadTwo | tk_dataset_recorder.py:306 | `f"{n:02d}"` of one field; its exact length and value, for both signs, are stated by `PadTwoValue` |
| Session.PadTwoValue | tk_dataset_recorder.py:306 | a non-negative field is exactly two digits, or as many as `str(n)` has when more, and reads back as its value; a negative one is "-" followed by the digits of its magnitude, with no zero inserted |
| Session.FormatElapsed | tk_dataset_recorder.py:304-306 | `divmod(dt, 60)` shown as `mm:ss`; its properties are stated by `ElapsedReadsBack`, `ElapsedUnderAnHour` and `ElapsedAtStart` |
| Session.ElapsedReadsBack | tk_dataset_recorder.py:304-306 | the display reads as minutes, ":", two digits of seconds below 60, with minutes * 60 + seconds equal to the elapsed time |
| Session.ElapsedUnderAnHour | tk_dataset_recorder.py:305-306 | under an hour the display is exactly five characters |
| Session.ElapsedAtStart | tk_dataset_recorder.py:304-306 | zero elapsed seconds display as "00:00", the idle label |
| Session.App.constructor | tk_dataset_recorder.py:101-125 | a new window is idle with the operator detected and the first task fetched |
| Session.App.FetchAndShowNextTask | tk_dataset_recorder.py:175-178 | the current task comes from the provider (local cursor step or parsed answer), and start is enabled exactly when there is one |
| Session.App.TickTimer | tk_dataset_recorder.py:301-307 | while recording, shows the elapsed seconds and schedules one new job; otherwise changes nothing; a tick from the event loop keeps the window's invariant |
| Session.App.OnStart | tk_dataset_recorder.py:187-231 | a no-op while recording or without a task; recording starts exactly when a script is found and the spawn succeeds; otherwise "recorder not found" or "launch failed" is shown and nothing else changes (child, start time, recording id, timer, jobs, buttons, status); on success the child runs the launch command and the timer, buttons and status switch to recording |
| Session.App.BeginRecording | tk_dataset_recorder.py:211-221 | after the spawn: a new child with the command, the timer at zero with one job pending, start disabled, finish enabled, the status naming the recording |
| Session.App.OnFinish | tk_dataset_recorder.py:233-253 | a no-op unless recording; otherwise the status says stopping, the child receives exactly the staged shutdown trace, and `ShutdownLeft` of its running answers remain |
| Session.App.OnRecorderStopped | tk_dataset_recorder.py:256-299 | a no-op unless recording, so a second notification changes nothing. Otherwise the window becomes idle: no child, no timer job, "00:00", finish disabled. It adds the exit's error box, submits at most once with the current task's id and this recording's id, fetches the next task, and enables start exactly when there is one |
| Session.App.EndRecording | tk_dataset_recorder.py:259-293 | the timer job is cleared and the label reset, finish disabled, the exit's error box added, and exactly one submission with the current task's id made unless the meta file cannot be read |
| Session.NewProvider | tk_dataset_recorder.py:346-359 | an HTTP choice becomes the backend at that URL; a local choice becomes a new list provider holding the non-blank prompts with its cursor at 0 |

## Left out

- The Tk window: widgets, styles, layout and the dialog texts. Buttons, the status line and
  the error boxes are kept as values. The task box is the function `App.TaskText`.
- The HTTP transport. URL requests, timeouts and JSON encoding and decoding are outside the
  model. The backend's answer to `/next_task` is an input, already decoded. `submit_result`
  is recorded as a call in `App.submissions`. The HTTP provider's POST and its swallowed
  failure are not modelled.
- JSON values that are floats, arrays or nested objects. They are not interpreted: they
  carry the text `str()` gives for them.
- The `meta.json` document is taken to be an object. Any other JSON value in that file is
  not modelled.
- `subprocess.Popen`, OS signals, the watcher thread and its `after(0, …)` hand-off. The
  spawn result and the exit code are inputs of `OnStart` and `OnRecorderStopped`.
- When the child exits does not depend on the signals it receives. It is fixed by
  `alivePolls` when the child is spawned.
- `time.sleep` is only logged in the trace. `time.time()` is a float clock; the model takes
  whole-second readings, and since the reading ranges over all integers, the elapsed
  seconds `now - start` cover every value `int(time.time() - rec_start_time)` can take.
  The model does not relate them to the float readings themselves.
- `after(1000, …)` is modelled as a job number. Repeated firing of the tick is one
  `TickTimer` call per firing.
- The timer label holds the elapsed seconds. Its text is the function `App.TimerText`.
- `datetime.now()` is an input `Stamp`. `%Y` is modelled as zero-padded to four digits,
  which Python does not guarantee on every platform for years below 1000.
- `platform.system()` and the macOS hint printed to the console are left out.
- `getpass.getuser()` is an input: the login name, or `None` when it raises.
- `Path.exists()` is membership in a set of existing paths. `Path.resolve()` is left out,
  and paths are joined with "/".
- The `"root": "./dataset"` entry of `_current_rec` is left out. The model keeps only the
  recording id.
- Session.App.OnFinish: an exception raised by `poll`, `send_signal`, `terminate` or
  `kill` ends the shutdown early in the program. The model's child never raises.
- Session.App.OnRecorderStopped: a failing `after_cancel` is ignored in the program. The
  model always clears the job.
- Tasks.LocalProvider: `submit_result` of the local provider does nothing. The model records
  every submission in `App.submissions`, whichever provider is used.
