/** The recording session controller (`App`): the current task, the recorder child, the
    start/finish buttons, the status line and the elapsed-time display, and the four
    transitions that move them (fetching the next task, starting a recording, finishing
    it, and handling the child's exit). The widgets are reduced to the values they show. */
module Session {
  import opened Builtins
  import opened Tasks
  import opened Supervisor
  import opened Config

  /** The task source an `App` talks to. The HTTP backend's answers are inputs of the
      transitions that ask for a task. */
  datatype Provider = Local(list: LocalProvider) | Http(baseUrl: string)

  /** The status line: "Готово", "Запись идёт → <rec_id>" or "Завершаю запись…". */
  datatype Status = Ready | RecordingTo(recId: string) | Stopping

  /** The error boxes the operator sees. */
  datatype Dialog = RecorderNotFound | LaunchFailed(reason: string) | RecordingFailed(report: ExitReport)

  /** `<dataset>/<rec_id>/meta.json`: absent, a decoded object, or unreadable (the read
      or the decode raises, and the handler skips the submission). */
  datatype MetaFile = NoMeta | MetaDoc(fields: map<string, FieldValue>) | MetaUnreadable

  /** One `provider.submit_result(task_id, rec_id, meta)` call. */
  datatype Submission = Submission(taskId: string, recId: string, meta: map<string, FieldValue>)

  /** What `subprocess.Popen(cmd)` gives: a child that will report "running" to its next
      `alivePolls` polls, or the exception's message. */
  datatype Spawn = Spawned(alivePolls: nat) | SpawnFailed(reason: string)

  const NO_TASKS_TEXT := "Задачи закончились. Спасибо!"
  const IDLE_TIMER := "00:00"

  /** The text shown in the task box. */
  function ShownText(t: Option<Task>): string
  {
    if t.Some? then t.value.text else NO_TASKS_TEXT
  }

  /** The meta document submitted: `{}` when there is no file, the decoded file, or
      nothing when reading it raises. */
  function MetaOf(m: MetaFile): (doc: Option<map<string, FieldValue>>)
    ensures doc.None? <==> m.MetaUnreadable?
  {
    match m
    case NoMeta => Some(map[])
    case MetaDoc(fields) => Some(fields)
    case MetaUnreadable => None
  }

  /** The error box for an exit, if any. */
  function ExitDialogs(rc: Option<int>): (ds: seq<Dialog>)
    ensures |ds| <= 1
    ensures ds == [] <==> rc == None || rc == Some(0) || rc == Some(INTERRUPTED_CODE)
    ensures ds != [] ==> ds[0] == RecordingFailed(ClassifyExit(rc))
  {
    var report := ClassifyExit(rc);
    if report == CleanStop then [] else [RecordingFailed(report)]
  }

  // ---------------------------------------------------------------------------
  // The elapsed-time display (`App._tick_timer`)
  // ---------------------------------------------------------------------------

  /** `f"{n:02d}"` for any int: at least two digits, a minus sign before a negative number. */
  function PadTwo(n: int): string
  {
    if n >= 0 then ZeroPad(n, 2) else IntToString(n)
  }

  /** A non-negative number is padded to two digits, or to as many as `str(n)` has when
      that is more, and the digits read back as it. A negative one is written as a minus
      sign followed by the digits of its magnitude: the sign already fills the width, so
      no zero is inserted. */
  lemma PadTwoValue(n: int)
    ensures n >= 0 ==> && AllDigits(PadTwo(n)) && DigitsValue(PadTwo(n)) == n
                       && |PadTwo(n)| == if |NatToString(n)| < 2 then 2 else |NatToString(n)|
    ensures n < 0 ==> && |PadTwo(n)| == 1 + |NatToString(-n)| && PadTwo(n)[0] == '-'
                      && AllDigits(PadTwo(n)[1..]) && DigitsValue(PadTwo(n)[1..]) == -n
  {
    if n >= 0 {
      ZeroPadValue(n, 2);
    } else {
      NatToStringRoundTrip(-n);
      assert PadTwo(n)[1..] == NatToString(-n);
    }
  }

  /** `mm, ss = divmod(dt, 60)` and `f"{mm:02d}:{ss:02d}"`. Python's `divmod` by 60
      floors, which is what Dafny's `/` and `%` do for a positive divisor. */
  function FormatElapsed(dt: int): string
  {
    PadTwo(dt / 60) + ":" + PadTwo(dt % 60)
  }

  /** The display reads back as the elapsed seconds: minutes of at least two digits, a
      colon, and exactly two digits of seconds below 60, with minutes * 60 + seconds == dt. */
  lemma ElapsedReadsBack(dt: nat)
    ensures var r := FormatElapsed(dt);
      && |r| >= 5 && r[|r| - 3] == ':'
      && AllDigits(r[..|r| - 3]) && AllDigits(r[|r| - 2..])
      && DigitsValue(r[|r| - 2..]) < 60
      && DigitsValue(r[..|r| - 3]) * 60 + DigitsValue(r[|r| - 2..]) == dt
  {
    var mm, ss := PadTwo(dt / 60), PadTwo(dt % 60);
    PadTwoValue(dt / 60);
    PadTwoValue(dt % 60);
    ZeroPadFits(dt % 60, 2);
    var r := mm + ":" + ss;
    assert r[..|r| - 3] == mm;
    assert r[|r| - 2..] == ss;
  }

  /** Under an hour the display is exactly "mm:ss". */
  lemma ElapsedUnderAnHour(dt: nat)
    requires dt < 3600
    ensures |FormatElapsed(dt)| == 5
  {
    ZeroPadFits(dt / 60, 2);
    ZeroPadFits(dt % 60, 2);
  }

  /** The display a recording starts with, and the one an idle window shows, is "00:00". */
  lemma ElapsedAtStart()
    ensures FormatElapsed(0) == IDLE_TIMER
  {
    assert NatToString(0) == "0";
  }

  // ---------------------------------------------------------------------------
  // The controller
  // ---------------------------------------------------------------------------

  class App {
    const provider: Provider
    const operator: string
    var currentTask: Option<Task>
    var recProc: Process?
    var recording: bool
    var recStartTime: Option<int>
    /** The pending `after(1000, _tick_timer)` job; `jobsScheduled` numbers them. */
    var timerJob: Option<nat>
    var jobsScheduled: nat
    /** `_current_rec`: the id of the last recording started. */
    var currentRec: Option<string>
    var status: Status
    /** The elapsed seconds the timer label shows, as `TimerText()`. */
    var timerSeconds: int
    var startEnabled: bool
    var finishEnabled: bool
    /** The error boxes shown so far, and the results handed to the provider so far. */
    var dialogs: seq<Dialog>
    var submissions: seq<Submission>

    ghost function ProviderObjects(): set<object>
    {
      if provider.Local? then {provider.list} else {}
    }

    /** The controller's invariant: the provider's cursor is in range, the task box shows
        the current task, and the window is in the recording or the idle shape. */
    ghost predicate Valid()
      reads this, ProviderObjects()
    {
      && (provider.Local? ==> provider.list.Valid())
      && (recording ==> RecordingState())
      && (!recording ==> IdleState())
    }

    /** While recording: a child, a task, a start time, a pending timer job, start
        disabled and finish enabled, and a status naming the recording or the stop. */
    ghost predicate RecordingState()
      reads this
    {
      && recProc != null && currentTask.Some? && recStartTime.Some? && timerJob.Some?
      && currentRec.Some? && !startEnabled && finishEnabled
      && (status == RecordingTo(currentRec.value) || status == Stopping)
    }

    /** Idle: no child and no timer job, finish disabled, start enabled exactly when there
        is a task, the status "ready" and the timer at "00:00". */
    ghost predicate IdleState()
      reads this
    {
      && recProc == null && timerJob.None? && !finishEnabled
      && (startEnabled <==> currentTask.Some?)
      && status == Ready && timerSeconds == 0
    }

    /** What the task box shows. */
    function TaskText(): string
      reads this
    {
      ShownText(currentTask)
    }

    /** What the timer label shows; "00:00" whenever the window is idle (`ElapsedAtStart`). */
    function TimerText(): string
      reads this
    {
      FormatElapsed(timerSeconds)
    }

    /** `App.__init__`: no recording, the operator name detected, the first task fetched. */
    constructor (provider: Provider, env: map<string, string>, login: Option<string>, response: Response)
      requires provider.Local? ==> provider.list.Valid()
      modifies if provider.Local? then {provider.list} else {}
      ensures Valid()
      ensures this.provider == provider && operator == DetectOperator(env, login)
      ensures !recording && recProc == null && dialogs == [] && submissions == []
      ensures provider.Local? ==>
        (currentTask, provider.list.idx) == LocalStep(provider.list.tasks, old(provider.list.idx))
      ensures provider.Http? ==> currentTask == ParseTask(response)
    {
      this.provider := provider;
      operator := DetectOperator(env, login);
      currentTask := None;
      recProc := null;
      recording := false;
      recStartTime := None;
      timerJob := None;
      jobsScheduled := 0;
      currentRec := None;
      status := Ready;
      timerSeconds := 0;
      startEnabled := true;
      finishEnabled := false;
      dialogs := [];
      submissions := [];
      new;
      FetchAndShowNextTask(response);
    }

    /** `_fetch_and_show_next_task`: ask the provider for a task, show it (or the
        "no more tasks" text) and enable start exactly when there is one. */
    method FetchAndShowNextTask(response: Response)
      requires provider.Local? ==> provider.list.Valid()
      modifies this`currentTask, this`startEnabled, ProviderObjects()
      ensures provider.Local? ==> provider.list.Valid()
      ensures provider.Local? ==>
        (currentTask, provider.list.idx) == LocalStep(provider.list.tasks, old(provider.list.idx))
      ensures provider.Http? ==> currentTask == ParseTask(response)
      ensures startEnabled <==> currentTask.Some?
    {
      match provider {
        case Local(list) =>
          currentTask := list.GetNextTask();
        case Http(_) =>
          currentTask := ParseTask(response);
      }
      startEnabled := currentTask.Some?;
    }

    /** One firing of `_tick_timer` at clock reading `now` (whole seconds): while
        recording, show the elapsed time and schedule the next tick; otherwise do nothing. */
    method TickTimer(now: int)
      modifies this`timerSeconds, this`timerJob, this`jobsScheduled
      ensures old(Valid()) ==> Valid()
      ensures recording && recStartTime.Some? ==>
        && timerSeconds == now - recStartTime.value
        && timerJob == Some(old(jobsScheduled)) && jobsScheduled == old(jobsScheduled) + 1
      ensures !(recording && recStartTime.Some?) ==>
        timerSeconds == old(timerSeconds) && timerJob == old(timerJob) && jobsScheduled == old(jobsScheduled)
    {
      if !recording || recStartTime.None? {
        return;
      }
      var dt := now - recStartTime.value;
      timerSeconds := dt;
      timerJob := Some(jobsScheduled);
      jobsScheduled := jobsScheduled + 1;
    }

    /** `on_start`. Nothing happens while recording or without a task. Otherwise the
        recorder script is looked up (an error box if there is none), the command is
        built with a fresh recording id, and the child is spawned (an error box if that
        fails). On success the window switches to recording: the timer starts at
        "00:00", start is disabled, finish enabled, and the status names the recording. */
    method OnStart(env: map<string, string>, existing: set<string>, here: string, interpreter: string,
                   stamp: Stamp, spawn: Spawn, now: int)
      requires Valid()
      modifies this
      ensures Valid()
      ensures old(recording) || old(currentTask).None? ==> unchanged(this)
      ensures currentTask == old(currentTask) && submissions == old(submissions)
      ensures recording <==>
        (old(recording) || (old(currentTask).Some? && FirstExisting(ScriptCandidates(env, here), existing).Some? && spawn.Spawned?))
      ensures !old(recording) && old(currentTask).Some? ==>
        var script := FirstExisting(ScriptCandidates(env, here), existing);
        && (script.None? ==> dialogs == old(dialogs) + [RecorderNotFound])
        && (script.Some? && spawn.SpawnFailed? ==> dialogs == old(dialogs) + [LaunchFailed(spawn.reason)])
        && (script.Some? && spawn.Spawned? ==>
              && fresh(recProc) && recProc.trace == [] && recProc.alivePolls == spawn.alivePolls
              && recProc.argv == LaunchCommand(interpreter, script.value, RecId(stamp), old(currentTask).value.text, operator)
              && recStartTime == Some(now) && timerSeconds == 0
              && timerJob == Some(old(jobsScheduled)) && jobsScheduled == old(jobsScheduled) + 1
              && currentRec == Some(RecId(stamp)) && status == RecordingTo(RecId(stamp))
              && dialogs == old(dialogs))
      ensures !recording ==>
        && recProc == old(recProc) && timerJob == old(timerJob) && status == old(status)
        && timerSeconds == old(timerSeconds) && startEnabled == old(startEnabled) && finishEnabled == old(finishEnabled)
        && recStartTime == old(recStartTime) && currentRec == old(currentRec) && jobsScheduled == old(jobsScheduled)
    {
      if recording || currentTask.None? {
        return;
      }
      var script := FindRecorderScript(env, existing, here);
      if script.None? {
        dialogs := dialogs + [RecorderNotFound];
        return;
      }
      var recId := RecId(stamp);
      var cmd := LaunchCommand(interpreter, script.value, recId, currentTask.value.text, operator);
      match spawn {
        case SpawnFailed(reason) =>
          dialogs := dialogs + [LaunchFailed(reason)];
        case Spawned(alivePolls) =>
          BeginRecording(recId, cmd, alivePolls, now);
      }
    }

    /** The successful end of `on_start`: the spawned child is recorded, the timer starts,
        start is disabled, finish enabled, and the status names the recording. */
    method BeginRecording(recId: string, cmd: seq<string>, alivePolls: nat, now: int)
      requires Valid() && !recording && currentTask.Some?
      modifies this`recProc, this`recording, this`recStartTime, this`timerSeconds, this`timerJob,
               this`jobsScheduled, this`startEnabled, this`finishEnabled, this`status, this`currentRec
      ensures Valid() && recording
      ensures fresh(recProc) && recProc.argv == cmd && recProc.alivePolls == alivePolls && recProc.trace == []
      ensures recStartTime == Some(now) && timerSeconds == 0
      ensures timerJob == Some(old(jobsScheduled)) && jobsScheduled == old(jobsScheduled) + 1
      ensures currentRec == Some(recId) && status == RecordingTo(recId)
    {
      recProc := new Process(cmd, alivePolls);
      recording := true;
      recStartTime := Some(now);
      TickTimer(now);
      startEnabled := false;
      finishEnabled := true;
      status := RecordingTo(recId);
      currentRec := Some(recId);
    }

    /** `on_finish`: nothing happens unless recording; otherwise the status says the
        recording is being finished and the child goes through the staged shutdown. The
        window stays in the recording state until the child's exit is handled. */
    method OnFinish()
      requires Valid()
      modifies this`status, recProc
      ensures Valid()
      ensures !old(recording) ==> unchanged(this)
      ensures old(recording) ==>
        && status == Stopping && recProc == old(recProc)
        && recProc.trace == old(recProc.trace) + ShutdownTrace(old(recProc.alivePolls))
        && recProc.alivePolls == ShutdownLeft(old(recProc.alivePolls))
    {
      if !recording || recProc == null {
        return;
      }
      status := Stopping;
      StagedShutdown(recProc);
    }

    /** `_on_recorder_stopped`, run when the child has exited with `rc` (however it came
        to exit). A second notification changes nothing. The first one leaves the window
        idle: no child, no timer job, "00:00", finish disabled; it shows an error box for an
        abnormal exit, submits the result once (unless the meta file cannot be read),
        fetches the next task and enables start exactly when there is one. The watcher
        passes the id captured when the recording started, which is `_current_rec`. */
    method OnRecorderStopped(rc: Option<int>, recId: string, meta: MetaFile, response: Response)
      requires Valid()
      requires recording ==> currentRec == Some(recId)
      modifies this`recording, this`timerJob, this`timerSeconds, this`finishEnabled, this`dialogs,
               this`submissions, this`currentTask, this`status, this`startEnabled, this`recProc, ProviderObjects()
      ensures Valid()
      ensures !old(recording) ==> unchanged(this) && unchanged(ProviderObjects())
      ensures old(recording) ==>
        && !recording && recProc == null && timerJob.None? && timerSeconds == 0 && !finishEnabled
        && status == Ready && (startEnabled <==> currentTask.Some?)
        && dialogs == old(dialogs) + ExitDialogs(rc)
        && submissions == old(submissions) +
             (if MetaOf(meta).Some? then [Submission(old(currentTask).value.taskId, recId, MetaOf(meta).value)] else [])
        && (provider.Local? ==>
              (currentTask, provider.list.idx) == LocalStep(provider.list.tasks, old(provider.list.idx)))
        && (provider.Http? ==> currentTask == ParseTask(response))
    {
      if !recording {
        return;
      }
      EndRecording(rc, recId, meta);
      FetchAndShowNextTask(response);
      status := Ready;
      startEnabled := currentTask.Some?;
      recProc := null;
    }

    /** The part of `_on_recorder_stopped` before the next task is fetched: the timer is
        cancelled and reset, finish disabled, the exit reported, and the result submitted
        for the current task unless the meta file cannot be read. */
    method EndRecording(rc: Option<int>, recId: string, meta: MetaFile)
      requires currentTask.Some?
      modifies this`recording, this`timerJob, this`timerSeconds, this`finishEnabled, this`dialogs, this`submissions
      ensures !recording && timerJob.None? && timerSeconds == 0 && !finishEnabled
      ensures dialogs == old(dialogs) + ExitDialogs(rc)
      ensures submissions == old(submissions) +
        (if MetaOf(meta).Some? then [Submission(currentTask.value.taskId, recId, MetaOf(meta).value)] else [])
    {
      recording := false;
      timerJob := None;
      timerSeconds := 0;
      finishEnabled := false;
      dialogs := dialogs + ExitDialogs(rc);
      var doc := MetaOf(meta);
      if doc.Some? {
        submissions := submissions + [Submission(currentTask.value.taskId, recId, doc.value)];
      }
    }
  }

  /** `make_provider_from_env`'s choice turned into the provider object. */
  method NewProvider(config: ProviderConfig) returns (p: Provider)
    ensures config.HttpSource? ==> p == Http(config.baseUrl)
    ensures config.LocalSource? ==>
      p.Local? && fresh(p.list) && p.list.Valid() && p.list.tasks == KeepNonBlank(config.tasks) && p.list.idx == 0
  {
    match config
    case HttpSource(url) =>
      p := Http(url);
    case LocalSource(tasks) =>
      var list := new LocalProvider(tasks);
      p := Local(list);
  }
}
