/** The recorder process supervisor: finding the recorder script, building the command
    line and the recording id, the staged shutdown of the child (interrupt, then terminate,
    then kill, with bounded polling between stages) and the classification of its exit code. */
module Supervisor {
  import opened Builtins

  // ---------------------------------------------------------------------------
  // The child process and the staged shutdown (`App.on_finish`)
  // ---------------------------------------------------------------------------

  datatype Signal = Interrupt | Terminate | Kill

  /** What the supervisor does to or around the child: a liveness poll and what it
      reported, a 100 ms sleep, or a signal sent. */
  datatype Event = Polled(running: bool) | Slept | Sent(signal: Signal)

  /** Liveness polls per shutdown stage (`for _ in range(30)`). */
  const POLLS_PER_STAGE: nat := 30

  /** The recorder child as the supervisor sees it. The supervisor observes the child only
      through `poll()`, and every sequence of poll answers is "running" some number of
      times and "exited" from then on; `alivePolls` is that number for the polls still to
      come. `trace` logs what was done to the child. */
  class Process {
    const argv: seq<string>
    var alivePolls: nat
    var trace: seq<Event>

    constructor (argv: seq<string>, alivePolls: nat)
      ensures this.argv == argv && this.alivePolls == alivePolls && trace == []
    {
      this.argv := argv;
      this.alivePolls := alivePolls;
      trace := [];
    }

    /** `poll() is None`: whether the child is still running. */
    method Poll() returns (running: bool)
      modifies this
      ensures running <==> old(alivePolls) > 0
      ensures alivePolls == if running then old(alivePolls) - 1 else 0
      ensures trace == old(trace) + [Polled(running)]
    {
      running := alivePolls > 0;
      if running {
        alivePolls := alivePolls - 1;
      }
      trace := trace + [Polled(running)];
    }

    /** `time.sleep(0.1)` between two polls. */
    method Sleep()
      modifies this
      ensures alivePolls == old(alivePolls)
      ensures trace == old(trace) + [Slept]
    {
      trace := trace + [Slept];
    }

    /** `send_signal(SIGINT)`, `terminate()` or `kill()`. */
    method SendSignal(s: Signal)
      modifies this
      ensures alivePolls == old(alivePolls)
      ensures trace == old(trace) + [Sent(s)]
    {
      trace := trace + [Sent(s)];
    }
  }

  /** `n` polls that found the child running, each followed by a sleep. */
  function Waits(n: nat): (t: seq<Event>)
    ensures |t| == 2 * n
  {
    if n == 0 then [] else Waits(n - 1) + [Polled(true), Slept]
  }

  /** The events of one polling loop when the child will report "running" `r` more times:
      it stops at the first poll that finds the child exited, or after 30 polls. */
  function WaitTrace(r: nat): seq<Event>
  {
    Waits(StagePolls(r)) + if r < POLLS_PER_STAGE then [Polled(false)] else []
  }

  /** How many polls of one loop find the child running. */
  function StagePolls(r: nat): (n: nat)
    ensures n <= POLLS_PER_STAGE
  {
    if r < POLLS_PER_STAGE then r else POLLS_PER_STAGE
  }

  /** How many "running" answers remain after one polling loop. */
  function WaitLeft(r: nat): nat
  {
    if r < POLLS_PER_STAGE then 0 else r - POLLS_PER_STAGE
  }

  /** One polling loop of `on_finish`: up to 30 polls, leaving at the first that finds
      the child exited, sleeping after each that finds it running. */
  method WaitForExit(p: Process)
    modifies p
    ensures p.trace == old(p.trace) + WaitTrace(old(p.alivePolls))
    ensures p.alivePolls == WaitLeft(old(p.alivePolls))
  {
    for i := 0 to POLLS_PER_STAGE
      invariant i <= old(p.alivePolls)
      invariant p.alivePolls == old(p.alivePolls) - i
      invariant p.trace == old(p.trace) + Waits(i)
    {
      var running := p.Poll();
      if !running {
        return;
      }
      p.Sleep();
    }
  }

  /** Everything `on_finish` does to a child that will report "running" to the next
      `alive` polls: the interrupt stage, the terminate stage, then the last check. */
  function ShutdownTrace(alive: nat): seq<Event>
  {
    var r1 := AliveAfter(alive);
    Escalation(Interrupt, alive) + Escalation(Terminate, r1) + LastCheck(AliveAfter(r1))
  }

  /** One stage: a poll, and if it finds the child running, signal `s` and a polling loop. */
  function Escalation(s: Signal, alive: nat): seq<Event>
  {
    if alive == 0 then [Polled(false)] else [Polled(true), Sent(s)] + WaitTrace(alive - 1)
  }

  /** How many "running" answers remain after one stage. */
  function AliveAfter(alive: nat): nat
  {
    if alive == 0 then 0 else WaitLeft(alive - 1)
  }

  /** The third check: kill the child if it is still running. */
  function LastCheck(alive: nat): seq<Event>
  {
    if alive == 0 then [Polled(false)] else [Polled(true), Sent(Kill)]
  }

  /** One stage of `on_finish`: poll; if the child is running, send `s` and wait for it to exit. */
  method Escalate(p: Process, s: Signal)
    modifies p
    ensures p.trace == old(p.trace) + Escalation(s, old(p.alivePolls))
    ensures p.alivePolls == AliveAfter(old(p.alivePolls))
  {
    ghost var t0, k := p.trace, p.alivePolls;
    var running := p.Poll();
    if running {
      p.SendSignal(s);
      AppendPair(t0, Polled(true), Sent(s));
      WaitForExit(p);
      AppendAssoc(t0, [Polled(true), Sent(s)], WaitTrace(k - 1));
    }
  }

  /** The staged shutdown of `on_finish`: if the child is running, interrupt it and wait;
      if it is still running, terminate it and wait; if it is still running, kill it. */
  method StagedShutdown(p: Process)
    modifies p
    ensures p.trace == old(p.trace) + ShutdownTrace(old(p.alivePolls))
    ensures p.alivePolls == ShutdownLeft(old(p.alivePolls))
  {
    ghost var t0, a0 := p.trace, p.alivePolls;
    Escalate(p, Interrupt);
    ghost var t1, a1 := p.trace, p.alivePolls;
    Escalate(p, Terminate);
    ghost var t2 := p.trace;
    var running := p.Poll();
    if running {
      p.SendSignal(Kill);
      AppendPair(t2, Polled(true), Sent(Kill));
    }
    ghost var e1, e2, e3 := Escalation(Interrupt, a0), Escalation(Terminate, a1), LastCheck(AliveAfter(a1));
    assert p.trace == t0 + e1 + e2 + e3;
    AppendAssoc(t0, e1, e2);
    AppendAssoc(t0, e1 + e2, e3);
  }

  /** How many "running" answers remain after the whole shutdown: the two stages, then the
      last check, which uses one more when it finds the child running. */
  function ShutdownLeft(alive: nat): nat
  {
    var beforeKill := AliveAfter(AliveAfter(alive));
    if beforeKill == 0 then 0 else beforeKill - 1
  }

  /** A shutdown uses at most `2 * (1 + POLLS_PER_STAGE) + 1` running answers, and all of
      them when the child keeps running longer. */
  lemma ShutdownLeftClosed(alive: nat)
    ensures ShutdownLeft(alive) == if alive <= 3 + 2 * POLLS_PER_STAGE then 0 else alive - (3 + 2 * POLLS_PER_STAGE)
  {
  }

  // What the shutdown trace promises.

  /** The signals in a trace, in the order they were sent. */
  function SignalsOf(t: seq<Event>): seq<Signal>
  {
    if t == [] then []
    else SignalsOf(t[..|t| - 1]) + if t[|t| - 1].Sent? then [t[|t| - 1].signal] else []
  }

  /** The two kinds of events that are counted: polls and sleeps. */
  datatype Kind = Polls | Sleeps

  predicate IsKind(e: Event, k: Kind)
  {
    if k == Polls then e.Polled? else e.Slept?
  }

  /** How many events of a trace are of kind `k`. */
  function CountWhere(t: seq<Event>, k: Kind): nat
  {
    if t == [] then 0
    else CountWhere(t[..|t| - 1], k) + if IsKind(t[|t| - 1], k) then 1 else 0
  }

  function SleepCount(t: seq<Event>): nat
  {
    CountWhere(t, Sleeps)
  }

  function PollCount(t: seq<Event>): nat
  {
    CountWhere(t, Polls)
  }

  lemma {:induction false} SignalsOfAppend(a: seq<Event>, b: seq<Event>)
    ensures SignalsOf(a + b) == SignalsOf(a) + SignalsOf(b)
  {
    if b == [] {
      assert a + b == a;
    } else {
      SignalsOfAppend(a, b[..|b| - 1]);
      assert (a + b)[..|a + b| - 1] == a + b[..|b| - 1];
    }
  }

  lemma {:induction false} CountWhereAppend(a: seq<Event>, b: seq<Event>, k: Kind)
    ensures CountWhere(a + b, k) == CountWhere(a, k) + CountWhere(b, k)
  {
    if b == [] {
      assert a + b == a;
    } else {
      CountWhereAppend(a, b[..|b| - 1], k);
      assert (a + b)[..|a + b| - 1] == a + b[..|b| - 1];
    }
  }

  /** A polling loop sends nothing, sleeps at most 30 times and polls at most 30 times. */
  lemma {:induction false} WaitTraceBounds(r: nat)
    ensures SignalsOf(WaitTrace(r)) == []
    ensures SleepCount(WaitTrace(r)) <= POLLS_PER_STAGE
    ensures PollCount(WaitTrace(r)) <= POLLS_PER_STAGE
  {
    var n := StagePolls(r);
    var tail: seq<Event> := if r < POLLS_PER_STAGE then [Polled(false)] else [];
    WaitsCounts(n);
    SignalsOfAppend(Waits(n), tail);
    CountWhereAppend(Waits(n), tail, Sleeps);
    CountWhereAppend(Waits(n), tail, Polls);
    assert SignalsOf(tail) == [] && SleepCount(tail) == 0 && PollCount(tail) <= 1 by {
      if tail != [] { assert tail[..0] == []; }
    }
  }

  /** The signals and counts of a two-event piece. */
  lemma PairCounts(e1: Event, e2: Event)
    ensures SignalsOf([e1, e2]) == (if e1.Sent? then [e1.signal] else []) + (if e2.Sent? then [e2.signal] else [])
    ensures CountWhere([e1, e2], Polls) == (if e1.Polled? then 1 else 0) + (if e2.Polled? then 1 else 0)
    ensures CountWhere([e1, e2], Sleeps) == (if e1.Slept? then 1 else 0) + (if e2.Slept? then 1 else 0)
  {
    SingleCounts(e1);
    assert [e1, e2][..1] == [e1];
  }

  /** The signals and counts of a one-event piece. */
  lemma SingleCounts(e: Event)
    ensures SignalsOf([e]) == if e.Sent? then [e.signal] else []
    ensures CountWhere([e], Polls) == (if e.Polled? then 1 else 0)
    ensures CountWhere([e], Sleeps) == (if e.Slept? then 1 else 0)
  {
    assert [e][..0] == [];
  }

  lemma {:induction false} WaitsCounts(n: nat)
    ensures SignalsOf(Waits(n)) == []
    ensures SleepCount(Waits(n)) == n && PollCount(Waits(n)) == n
  {
    if n > 0 {
      WaitsCounts(n - 1);
      PairCounts(Polled(true), Slept);
      SignalsOfAppend(Waits(n - 1), [Polled(true), Slept]);
      CountWhereAppend(Waits(n - 1), [Polled(true), Slept], Sleeps);
      CountWhereAppend(Waits(n - 1), [Polled(true), Slept], Polls);
    }
  }

  /** How many of the three signals a child that reports "running" to `alive` polls
      receives: the first poll finds it running from `alive` 1 on, the check after the
      interrupt stage from 1 + 30 + 1 = 32 on, the check after the terminate stage from 63 on. */
  function StagesReached(alive: nat): (n: nat)
    ensures n <= 3
  {
    if alive == 0 then 0
    else if alive <= 1 + POLLS_PER_STAGE then 1
    else if alive <= 2 * (1 + POLLS_PER_STAGE) then 2
    else 3
  }

  /** What one stage sends: its signal if the child was running, nothing otherwise. */
  lemma EscalationSignals(s: Signal, alive: nat)
    ensures SignalsOf(Escalation(s, alive)) == if alive == 0 then [] else [s]
  {
    if alive == 0 {
      SingleCounts(Polled(false));
    } else {
      WaitTraceBounds(alive - 1);
      StageSignals(s, WaitTrace(alive - 1));
    }
  }

  /** A stage that signals and then waits without signalling sends exactly its signal. */
  lemma StageSignals(s: Signal, w: seq<Event>)
    requires SignalsOf(w) == []
    ensures SignalsOf([Polled(true), Sent(s)] + w) == [s]
  {
    PairCounts(Polled(true), Sent(s));
    SignalsOfAppend([Polled(true), Sent(s)], w);
  }

  /** A stage sleeps at most 30 times and polls at most 31 times. */
  lemma EscalationCounts(s: Signal, alive: nat)
    ensures SleepCount(Escalation(s, alive)) <= POLLS_PER_STAGE
    ensures PollCount(Escalation(s, alive)) <= POLLS_PER_STAGE + 1
  {
    if alive == 0 {
      SingleCounts(Polled(false));
    } else {
      var head, w := [Polled(true), Sent(s)], WaitTrace(alive - 1);
      assert Escalation(s, alive) == head + w;
      PairCounts(Polled(true), Sent(s));
      WaitTraceBounds(alive - 1);
      CountWhereAppend(head, w, Sleeps);
      CountWhereAppend(head, w, Polls);
    }
  }

  /** The poll and the signal that open a stage whose child is running. */
  lemma StageHead(s: Signal)
    ensures var head := [Polled(true), Sent(s)];
      SignalsGuarded(head) && NothingSentAfterExit(head) && !SawExit(head)
  {
  }

  /** One stage sends its signal only right after a poll that found the child running,
      nothing after one that found it exited, starts with a poll, and sees the child
      exit exactly when the child had at most 30 "running" answers left. */
  lemma EscalationGuards(s: Signal, alive: nat)
    ensures SignalsGuarded(Escalation(s, alive)) && NothingSentAfterExit(Escalation(s, alive))
    ensures SawExit(Escalation(s, alive)) <==> alive <= POLLS_PER_STAGE
    ensures Escalation(s, alive)[0].Polled?
  {
    var e := Escalation(s, alive);
    if alive == 0 {
      assert e == [Polled(false)];
      assert SawExit(e) by { assert e[0] == Polled(false); }
    } else {
      var head, w := [Polled(true), Sent(s)], WaitTrace(alive - 1);
      assert e == head + w;
      WaitTraceShape(alive - 1);
      StageHead(s);
      GuardedAppend(head, w);
      AfterExitAppend(head, w);
      assert e[0] == Polled(true);
    }
  }

  /** What the third check contributes: kill if the child was running, no sleep, one poll. */
  lemma LastCheckCounts(alive: nat)
    ensures SignalsOf(LastCheck(alive)) == if alive == 0 then [] else [Kill]
    ensures SleepCount(LastCheck(alive)) == 0 && PollCount(LastCheck(alive)) == 1
  {
    if alive == 0 {
      SingleCounts(Polled(false));
    } else {
      PairCounts(Polled(true), Sent(Kill));
    }
  }

  /** The third check sends kill only right after a poll that found the child running. */
  lemma LastCheckGuards(alive: nat)
    ensures SignalsGuarded(LastCheck(alive)) && NothingSentAfterExit(LastCheck(alive))
    ensures LastCheck(alive)[0].Polled?
  {
  }

  /** The thresholds behind `StagesReached`. */
  lemma AliveAfterStages(alive: nat)
    ensures AliveAfter(alive) > 0 <==> alive > 1 + POLLS_PER_STAGE
    ensures AliveAfter(AliveAfter(alive)) > 0 <==> alive > 2 * (1 + POLLS_PER_STAGE)
  {
  }

  /** The signals go out in the order interrupt, terminate, kill, none skipped: exactly
      the first `StagesReached(alive)` of them. No signal is sent to a child found exited
      at the first poll, and kill only to one still running after the terminate stage. */
  lemma ShutdownSignals(alive: nat)
    ensures SignalsOf(ShutdownTrace(alive)) == [Interrupt, Terminate, Kill][..StagesReached(alive)]
  {
    var r1 := AliveAfter(alive);
    var r2 := AliveAfter(r1);
    ShutdownSignalPieces(alive);
    EscalationSignals(Interrupt, alive);
    EscalationSignals(Terminate, r1);
    LastCheckCounts(r2);
    AliveAfterStages(alive);
    SignalsInOrder(alive, SignalsOf(Escalation(Interrupt, alive)), SignalsOf(Escalation(Terminate, r1)), SignalsOf(LastCheck(r2)));
  }

  /** The three stages' signals, each present exactly when its stage found the child
      running, add up to the first `StagesReached(alive)` signals. */
  lemma SignalsInOrder(alive: nat, s1: seq<Signal>, s2: seq<Signal>, s3: seq<Signal>)
    requires s1 == if alive == 0 then [] else [Interrupt]
    requires s2 == if alive <= 1 + POLLS_PER_STAGE then [] else [Terminate]
    requires s3 == if alive <= 2 * (1 + POLLS_PER_STAGE) then [] else [Kill]
    ensures s1 + s2 + s3 == [Interrupt, Terminate, Kill][..StagesReached(alive)]
  {
    var all := [Interrupt, Terminate, Kill];
    if alive == 0 {
      assert all[..0] == [];
    } else if alive <= 1 + POLLS_PER_STAGE {
      assert all[..1] == [Interrupt];
    } else if alive <= 2 * (1 + POLLS_PER_STAGE) {
      assert all[..2] == [Interrupt, Terminate];
    } else {
      assert all[..3] == all;
    }
  }

  /** The signals of the shutdown are those of its three pieces, in order. */
  lemma ShutdownSignalPieces(alive: nat)
    ensures var r1 := AliveAfter(alive);
      SignalsOf(ShutdownTrace(alive))
        == SignalsOf(Escalation(Interrupt, alive)) + SignalsOf(Escalation(Terminate, r1)) + SignalsOf(LastCheck(AliveAfter(r1)))
  {
    var r1 := AliveAfter(alive);
    var stage1, stage2, last := Escalation(Interrupt, alive), Escalation(Terminate, r1), LastCheck(AliveAfter(r1));
    SignalsOfAppend(stage1, stage2);
    SignalsOfAppend(stage1 + stage2, last);
  }

  /** `on_finish` blocks for at most 60 sleeps of 100 ms (two stages of 30) and polls the
      child at most 63 times (three checks and two loops of 30). */
  lemma ShutdownIsBounded(alive: nat)
    ensures SleepCount(ShutdownTrace(alive)) <= 2 * POLLS_PER_STAGE
    ensures PollCount(ShutdownTrace(alive)) <= 3 + 2 * POLLS_PER_STAGE
  {
    var r1 := AliveAfter(alive);
    var stage1, stage2, last := Escalation(Interrupt, alive), Escalation(Terminate, r1), LastCheck(AliveAfter(r1));
    EscalationCounts(Interrupt, alive);
    EscalationCounts(Terminate, r1);
    LastCheckCounts(AliveAfter(r1));
    CountWhereAppend(stage1, stage2, Sleeps);
    CountWhereAppend(stage1, stage2, Polls);
    CountWhereAppend(stage1 + stage2, last, Sleeps);
    CountWhereAppend(stage1 + stage2, last, Polls);
  }

  /** Every signal of the staged shutdown follows a poll that found the child running,
      and once a poll has found the child exited no signal is sent. */
  lemma ShutdownSignalsGuarded(alive: nat)
    ensures SignalsGuarded(ShutdownTrace(alive))
    ensures NothingSentAfterExit(ShutdownTrace(alive))
  {
    var r1 := AliveAfter(alive);
    var stage1, rest := Escalation(Interrupt, alive), Escalation(Terminate, r1) + LastCheck(AliveAfter(r1));
    EscalationGuards(Interrupt, alive);
    TailGuarded(r1);
    if alive <= POLLS_PER_STAGE {
      assert r1 == 0;
      assert rest == [Polled(false), Polled(false)];
    }
    GuardedAppend(stage1, rest);
    AfterExitAppend(stage1, rest);
    assert ShutdownTrace(alive) == stage1 + rest;
  }

  /** The terminate stage and the last check keep the two properties, and start with a poll. */
  lemma TailGuarded(r1: nat)
    ensures var rest := Escalation(Terminate, r1) + LastCheck(AliveAfter(r1));
      SignalsGuarded(rest) && NothingSentAfterExit(rest) && rest[0].Polled?
  {
    var stage2, last := Escalation(Terminate, r1), LastCheck(AliveAfter(r1));
    EscalationGuards(Terminate, r1);
    LastCheckGuards(AliveAfter(r1));
    GuardedAppend(stage2, last);
    AfterExitAppend(stage2, last);
    assert (stage2 + last)[0] == stage2[0];
  }

  /** Every signal is sent right after a poll that found the child running. */
  predicate SignalsGuarded(t: seq<Event>)
  {
    forall i :: 0 <= i < |t| && t[i].Sent? ==> 0 < i && t[i - 1] == Polled(true)
  }

  /** No signal follows a poll that found the child exited. */
  predicate NothingSentAfterExit(t: seq<Event>)
  {
    forall i, j :: 0 <= i < j < |t| && t[i] == Polled(false) ==> !t[j].Sent?
  }

  predicate NoSignals(t: seq<Event>)
  {
    forall i :: 0 <= i < |t| ==> !t[i].Sent?
  }

  predicate SawExit(t: seq<Event>)
  {
    exists i :: 0 <= i < |t| && t[i] == Polled(false)
  }

  lemma {:induction false} WaitsNoSignalNoExit(n: nat)
    ensures NoSignals(Waits(n)) && !SawExit(Waits(n))
  {
    if n > 0 {
      WaitsNoSignalNoExit(n - 1);
      var w := Waits(n);
      forall i | 0 <= i < |w| ensures !w[i].Sent? && w[i] != Polled(false) {
        if i < 2 * (n - 1) {
          assert w[i] == Waits(n - 1)[i];
        }
      }
    }
  }

  /** The last event of `t` is a poll that found the child running. */
  predicate EndsRunning(t: seq<Event>)
  {
    |t| > 0 && t[|t| - 1] == Polled(true)
  }

  lemma GuardedAppend(a: seq<Event>, b: seq<Event>)
    requires SignalsGuarded(a) && SignalsGuarded(b)
    requires b != [] && b[0].Sent? ==> EndsRunning(a)
    ensures SignalsGuarded(a + b)
  {
    var t := a + b;
    forall i | 0 <= i < |t| && t[i].Sent? ensures 0 < i && t[i - 1] == Polled(true) {
      if i > |a| {
        assert t[i] == b[i - |a|] && t[i - 1] == b[i - 1 - |a|];
      }
    }
  }

  lemma AfterExitAppend(a: seq<Event>, b: seq<Event>)
    requires NothingSentAfterExit(a) && NothingSentAfterExit(b)
    requires SawExit(a) ==> NoSignals(b)
    ensures NothingSentAfterExit(a + b)
    ensures SawExit(a + b) <==> SawExit(a) || SawExit(b)
  {
    var t := a + b;
    forall i, j | 0 <= i < j < |t| && t[i] == Polled(false) ensures !t[j].Sent? {
      if j >= |a| {
        assert t[j] == b[j - |a|];
        if i < |a| {
          assert a[i] == Polled(false);
        } else {
          assert b[i - |a|] == Polled(false);
        }
      }
    }
    if SawExit(a) {
      var k :| 0 <= k < |a| && a[k] == Polled(false);
      assert t[k] == Polled(false);
    }
    if SawExit(b) {
      var k :| 0 <= k < |b| && b[k] == Polled(false);
      assert t[|a| + k] == Polled(false);
    }
    if SawExit(t) {
      var k :| 0 <= k < |t| && t[k] == Polled(false);
      if k < |a| { assert a[k] == Polled(false); } else { assert b[k - |a|] == Polled(false); }
    }
  }

  /** A polling loop sends nothing, and it sees the child exit exactly when the child
      has fewer than 30 "running" answers left. */
  lemma WaitTraceShape(r: nat)
    ensures NoSignals(WaitTrace(r)) && SignalsGuarded(WaitTrace(r)) && NothingSentAfterExit(WaitTrace(r))
    ensures SawExit(WaitTrace(r)) <==> r < POLLS_PER_STAGE
  {
    var n := StagePolls(r);
    WaitsNoSignalNoExit(n);
    var w := WaitTrace(r);
    if r < POLLS_PER_STAGE {
      assert w[|w| - 1] == Polled(false);
      forall i | 0 <= i < |w| ensures !w[i].Sent? {
        if i < |w| - 1 { assert w[i] == Waits(r)[i]; }
      }
    } else {
      assert w == Waits(n);
    }
  }

  // ---------------------------------------------------------------------------
  // Exit-code classification (`App._on_recorder_stopped`)
  // ---------------------------------------------------------------------------

  /** What the operator is told when the recorder has exited. */
  datatype ExitReport = CleanStop | PermissionDenied | ExitedWithCode(code: int)

  /** The return code of a child stopped by SIGINT. */
  const INTERRUPTED_CODE: int := -2
  /** The return code of a child killed by SIGTRAP, which on macOS means the terminal
      lacks the screen-recording or input-monitoring permission. */
  const PERMISSION_CODE: int := -5

  /** No code, 0 and the interrupt code are a normal stop; the permission code has its
      own message; any other code is reported as it is. */
  function ClassifyExit(rc: Option<int>): (r: ExitReport)
    ensures r == CleanStop <==> rc == None || rc == Some(0) || rc == Some(INTERRUPTED_CODE)
    ensures r == PermissionDenied <==> rc == Some(PERMISSION_CODE)
    ensures r.ExitedWithCode? <==> rc.Some? && rc.value !in {0, INTERRUPTED_CODE, PERMISSION_CODE}
    ensures r.ExitedWithCode? ==> r.code == rc.value
  {
    match rc
    case None => CleanStop
    case Some(code) =>
      if code == 0 || code == INTERRUPTED_CODE then CleanStop
      else if code == PERMISSION_CODE then PermissionDenied
      else ExitedWithCode(code)
  }

  // ---------------------------------------------------------------------------
  // Launch: script lookup, recording id and command line (`App.on_start`)
  // ---------------------------------------------------------------------------

  /** The recorder file names looked for next to the GUI, in order of preference. */
  const RECORDER_NAMES: seq<string> := ["datagrabber_69.py", "pc_screen_dataset_recorder.py"]

  /** The paths `_find_recorder_script` tries, in order: the stripped `RECORDER_SCRIPT`
      override when it is non-empty, then each recorder name in the GUI's directory. */
  function ScriptCandidates(env: map<string, string>, here: string): seq<string>
  {
    var override := Strip(EnvGet(env, "RECORDER_SCRIPT"));
    (if override != "" then [override] else []) + NamePaths(here)
  }

  /** `here / name` for each recorder name. */
  function NamePaths(here: string): (paths: seq<string>)
    ensures |paths| == |RECORDER_NAMES|
    ensures forall i :: 0 <= i < |paths| ==> paths[i] == here + "/" + RECORDER_NAMES[i]
  {
    seq(|RECORDER_NAMES|, i requires 0 <= i < |RECORDER_NAMES| => here + "/" + RECORDER_NAMES[i])
  }

  /** The first of `paths` that exists, if any. */
  function FirstExisting(paths: seq<string>, existing: set<string>): (r: Option<string>)
    ensures r.Some? ==> r.value in existing
  {
    if paths == [] then None
    else if paths[0] in existing then Some(paths[0])
    else FirstExisting(paths[1..], existing)
  }

  /** `FirstExisting` finds nothing exactly when no path exists, and otherwise the path
      that exists with none before it existing. */
  lemma {:induction false} FirstExistingSpec(paths: seq<string>, existing: set<string>)
    ensures FirstExisting(paths, existing).None? <==> forall i :: 0 <= i < |paths| ==> paths[i] !in existing
    ensures FirstExisting(paths, existing).Some? ==>
      exists i :: FirstAt(paths, existing, i) && paths[i] == FirstExisting(paths, existing).value
  {
    if paths != [] && paths[0] !in existing {
      var tail := paths[1..];
      FirstExistingSpec(tail, existing);
      var r := FirstExisting(tail, existing);
      if r.Some? {
        var i :| FirstAt(tail, existing, i) && tail[i] == r.value;
        assert FirstAt(paths, existing, i + 1) by {
          forall j | 0 <= j < i + 1 ensures paths[j] !in existing {
            if j > 0 { assert paths[j] == tail[j - 1]; }
          }
        }
      } else {
        forall i | 0 <= i < |paths| ensures paths[i] !in existing {
          if i > 0 { assert paths[i] == tail[i - 1]; }
        }
      }
    } else if paths != [] {
      assert FirstAt(paths, existing, 0);
    }
  }

  /** `paths[i]` exists and no path before it does. */
  predicate FirstAt(paths: seq<string>, existing: set<string>, i: int)
  {
    && 0 <= i < |paths| && paths[i] in existing
    && forall j :: 0 <= j < i ==> paths[j] !in existing
  }

  /** `_find_recorder_script`: the override if it exists, else the first recorder name
      that exists next to the GUI, else nothing. The file system is given as the set of
      paths that exist. */
  method FindRecorderScript(env: map<string, string>, existing: set<string>, here: string)
    returns (script: Option<string>)
    ensures script == FirstExisting(ScriptCandidates(env, here), existing)
  {
    var override := Strip(EnvGet(env, "RECORDER_SCRIPT"));
    if override != "" && override in existing {
      return Some(override);
    }
    OverrideSkipped(env, existing, here);
    script := FindByName(existing, here);
  }

  /** The second half of `_find_recorder_script`: the first recorder name that exists
      next to the GUI. */
  method FindByName(existing: set<string>, here: string) returns (script: Option<string>)
    ensures script == FirstExisting(NamePaths(here), existing)
  {
    ghost var paths := NamePaths(here);
    for i := 0 to |RECORDER_NAMES|
      invariant FirstExisting(paths, existing) == FirstExisting(paths[i..], existing)
    {
      var path := here + "/" + RECORDER_NAMES[i];
      if path in existing {
        return Some(path);
      }
      assert paths[i..][1..] == paths[i + 1..];
    }
    return None;
  }

  /** An override that is empty or does not exist leaves the search to the recorder names. */
  lemma OverrideSkipped(env: map<string, string>, existing: set<string>, here: string)
    requires var override := Strip(EnvGet(env, "RECORDER_SCRIPT")); override == "" || override !in existing
    ensures FirstExisting(ScriptCandidates(env, here), existing) == FirstExisting(NamePaths(here), existing)
  {
    var override := Strip(EnvGet(env, "RECORDER_SCRIPT"));
    if override != "" {
      assert ScriptCandidates(env, here)[1..] == NamePaths(here);
    } else {
      assert ScriptCandidates(env, here) == NamePaths(here);
    }
  }

  /** A wall-clock reading with second resolution, as `datetime.now()` gives it. */
  datatype Stamp = Stamp(year: nat, month: nat, day: nat, hour: nat, minute: nat, second: nat)

  /** The range of Python's `datetime`. */
  predicate ValidStamp(t: Stamp)
  {
    && 1 <= t.year <= 9999 && 1 <= t.month <= 12 && 1 <= t.day <= 31
    && t.hour < 24 && t.minute < 60 && t.second < 60
  }

  /** `f"rec_{datetime.now().strftime('%Y%m%d_%H%M%S')}"`. */
  function RecId(t: Stamp): string
  {
    "rec_" + DatePart(t) + "_" + TimePart(t)
  }

  /** `%Y%m%d`. */
  function DatePart(t: Stamp): string
  {
    ZeroPad(t.year, 4) + ZeroPad(t.month, 2) + ZeroPad(t.day, 2)
  }

  /** `%H%M%S`. */
  function TimePart(t: Stamp): string
  {
    ZeroPad(t.hour, 2) + ZeroPad(t.minute, 2) + ZeroPad(t.second, 2)
  }

  /** Reads a recording id back into the stamp it was made from. */
  function ParseRecId(id: string): Option<Stamp>
  {
    if |id| == 19 && id[..4] == "rec_" && id[12] == '_'
      && AllDigits(id[4..8]) && AllDigits(id[8..10]) && AllDigits(id[10..12])
      && AllDigits(id[13..15]) && AllDigits(id[15..17]) && AllDigits(id[17..])
    then Some(Stamp(DigitsValue(id[4..8]), DigitsValue(id[8..10]), DigitsValue(id[10..12]),
                    DigitsValue(id[13..15]), DigitsValue(id[15..17]), DigitsValue(id[17..])))
    else None
  }

  /** Slicing a concatenation of three pieces gives the pieces back. */
  lemma Pieces3(a: string, b: string, c: string)
    ensures (a + b + c)[..|a|] == a
    ensures (a + b + c)[|a|..|a| + |b|] == b
    ensures (a + b + c)[|a| + |b|..] == c
  {
  }

  /** `%Y%m%d` is eight characters: the year in four digits, the month and the day in two. */
  lemma DatePartFields(t: Stamp)
    requires ValidStamp(t)
    ensures var d := DatePart(t);
      && |d| == 8 && d[..4] == ZeroPad(t.year, 4) && d[4..6] == ZeroPad(t.month, 2) && d[6..] == ZeroPad(t.day, 2)
  {
    ZeroPadFits(t.year, 4);
    ZeroPadFits(t.month, 2);
    ZeroPadFits(t.day, 2);
    Pieces3(ZeroPad(t.year, 4), ZeroPad(t.month, 2), ZeroPad(t.day, 2));
  }

  /** `%H%M%S` is six characters: the hour, the minute and the second in two digits each. */
  lemma TimePartFields(t: Stamp)
    requires ValidStamp(t)
    ensures var h := TimePart(t);
      && |h| == 6 && h[..2] == ZeroPad(t.hour, 2) && h[2..4] == ZeroPad(t.minute, 2) && h[4..] == ZeroPad(t.second, 2)
  {
    ZeroPadFits(t.hour, 2);
    ZeroPadFits(t.minute, 2);
    ZeroPadFits(t.second, 2);
    Pieces3(ZeroPad(t.hour, 2), ZeroPad(t.minute, 2), ZeroPad(t.second, 2));
  }

  /** A recording id is "rec_", eight date digits, "_" and six time digits (19 characters
      for every stamp of `datetime`'s range), and it reads back as the stamp it was made from. */
  lemma {:induction false} RecIdRoundTrip(t: Stamp)
    requires ValidStamp(t)
    ensures |RecId(t)| == 19 && RecId(t)[..4] == "rec_" && RecId(t)[12] == '_'
    ensures ParseRecId(RecId(t)) == Some(t)
  {
    var d, h := DatePart(t), TimePart(t);
    DatePartFields(t);
    TimePartFields(t);
    var id := RecId(t);
    assert id == ("rec_" + d) + "_" + h;
    Pieces3("rec_" + d, "_", h);
    assert id[4..12] == d;
    assert id[13..] == h;
    assert id[4..8] == d[..4] && id[8..10] == d[4..6] && id[10..12] == d[6..];
    assert id[13..15] == h[..2] && id[15..17] == h[2..4] && id[17..] == h[4..];
    ZeroPadFits(t.year, 4);
    ZeroPadFits(t.month, 2);
    ZeroPadFits(t.day, 2);
    ZeroPadFits(t.hour, 2);
    ZeroPadFits(t.minute, 2);
    ZeroPadFits(t.second, 2);
  }

  /** Two sessions get the same recording id only if they start in the same second. */
  lemma RecIdInjective(a: Stamp, b: Stamp)
    requires ValidStamp(a) && ValidStamp(b)
    ensures RecId(a) == RecId(b) ==> a == b
  {
    RecIdRoundTrip(a);
    RecIdRoundTrip(b);
  }

  /** The arguments the recorder receives. */
  datatype LaunchArgs = LaunchArgs(interpreter: string, script: string, recId: string, task: string, operator: string)

  /** `on_start`'s command: the interpreter, the script, `--rec-id`, `--task`, and
      `--operator` only when the operator name is non-empty. */
  function LaunchCommand(interpreter: string, script: string, recId: string, task: string, operator: string): (cmd: seq<string>)
    ensures |cmd| == if operator == "" then 6 else 8
    ensures ParseLaunchCommand(cmd) == Some(LaunchArgs(interpreter, script, recId, task, operator))
  {
    [interpreter, script, "--rec-id", recId, "--task", task]
      + if operator != "" then ["--operator", operator] else []
  }

  /** How the recorder reads its command line back; an absent `--operator` is the empty name. */
  function ParseLaunchCommand(cmd: seq<string>): Option<LaunchArgs>
  {
    if (|cmd| == 6 || (|cmd| == 8 && cmd[6] == "--operator" && cmd[7] != ""))
      && cmd[2] == "--rec-id" && cmd[4] == "--task"
    then Some(LaunchArgs(cmd[0], cmd[1], cmd[3], cmd[5], if |cmd| == 8 then cmd[7] else ""))
    else None
  }
}
