/** What holds of the task scheduler over whole runs: no wakeup is lost, waiting workers get their timers set,
    ids are never reused, no task disappears, and the state file tells a restart what memory knew. */
module TaskTheorems {
  import opened Text
  import opened TaskStore
  import opened TaskProtocol

  /* ----- Wakeups ----- */

  /** In every reachable state, a task that is present, not paused, not running and has a next run time, while
      nothing is paused globally, has a worker that will see that time. */
  lemma NoLostWakeup(s0: State, events: seq<Event>, id: string)
    requires Initial(s0) && CanRun(s0, events)
    requires var s := Run(s0, events);
             id in s.world.tasks && id !in s.doomed && Runnable(s.world.tasks[id], s.world.globallyPaused)
    ensures var s := Run(s0, events);
            id in s.workers && Cared(s.world.tasks[id], s.workers[id], s.signals[id])
  {
    InitialInv(s0);
    RunKeepsInv(s0, events);
  }

  /** A next run time is set exactly while a task is neither paused nor running, and a task runs exactly while its
      worker is in the runner. */
  lemma ScheduleInvariant(s0: State, events: seq<Event>, id: string)
    requires Initial(s0) && CanRun(s0, events) && id in Run(s0, events).world.tasks
    ensures var s := Run(s0, events);
            var t := s.world.tasks[id];
            && (t.nextRunAt.Some? <==> !t.paused && !t.running)
            && (t.running <==> AtPc(s, id, InRunner))
  {
    InitialInv(s0);
    RunKeepsInv(s0, events);
  }

  /** The events by which controllers deliver wakes to one worker and it sets its timer. */
  predicate IsInternal(e: Event, id: string) {
    e == Signal(id) || e == TakeWake(id) || e == Compute(id) || e == Arm(id)
  }

  ghost predicate AllInternal(events: seq<Event>, id: string) {
    forall i | 0 <= i < |events| :: IsInternal(events[i], id)
  }

  /** How many internal steps are left at most. */
  function Backlog(w: Worker, owed: nat): nat {
    4 * owed + (if w.wake then 3 else 0)
    + match w.pc
      case Starting => 2
      case Woken => 2
      case Refused => 2
      case Computed(_, _) => 1
      case _ => 0
  }

  /** Internal steps cannot go on for ever, in whatever order they come, and they change neither the tasks nor the
      files nor the clock. */
  lemma InternalStepShrinksBacklog(s: State, e: Event, id: string)
    requires Enabled(s, e) && IsInternal(e, id)
    ensures var s' := Apply(s, e);
            && id in s.workers && id in s'.workers
            && Backlog(s'.workers[id], s'.signals[id]) < Backlog(s.workers[id], s.signals[id])
            && s'.world == s.world && s'.now == s.now && s'.doomed == s.doomed
            && (s.workers[id].pc.Waiting? || s.workers[id].pc.Computed? || e == Signal(id) || e == Compute(id))
  {
  }

  predicate Settled(s: State, id: string) {
    AtPc(s, id, Waiting) && !s.workers[id].wake && s.signals[id] == 0
  }

  predicate Busy(w: Worker) {
    w.pc.Fired? || w.pc.InRunner? || w.pc.Exited?
  }

  /** While the backlog is not empty some internal step is enabled, so only a settled worker is at rest. */
  lemma UnsettledHasStep(s: State, id: string) returns (e: Event)
    requires id in s.workers && !Busy(s.workers[id]) && !Settled(s, id)
    ensures Enabled(s, e) && IsInternal(e, id)
    ensures var s' := Apply(s, e); id in s'.workers && !Busy(s'.workers[id])
  {
    var w := s.workers[id];
    if w.pc.Waiting? {
      e := if w.wake then TakeWake(id) else Signal(id);
    } else if w.pc.Computed? {
      e := Arm(id);
    } else {
      e := Compute(id);
    }
  }

  /** Wherever a worker stands in its loop, internal steps alone bring it to rest with its timer set for the next
      run time of its task, if the task is runnable. */
  lemma {:induction false} Settle(s: State, id: string) returns (events: seq<Event>)
    requires Inv(s) && id in s.world.tasks && id in s.workers && id !in s.doomed && !Busy(s.workers[id])
    ensures AllInternal(events, id) && CanRun(s, events)
    ensures var s' := Run(s, events);
            && Inv(s') && s'.world == s.world && s'.now == s.now && s'.doomed == s.doomed
            && Settled(s', id)
            && (Runnable(s.world.tasks[id], s.world.globallyPaused) ==>
                  s'.workers[id].timer.Some? && Some(s'.workers[id].timer.value.target) == s.world.tasks[id].nextRunAt)
    decreases if id in s.workers then Backlog(s.workers[id], s.signals[id]) else 0
  {
    if Settled(s, id) {
      events := [];
    } else {
      var e := UnsettledHasStep(s, id);
      InternalStepShrinksBacklog(s, e, id);
      StepKeepsInv(s, e);
      var rest := Settle(Apply(s, e), id);
      RunOne(s, e, rest);
      events := [e] + rest;
    }
  }

  lemma {:induction false} CanRunConcat(s: State, a: seq<Event>, b: seq<Event>)
    requires CanRun(s, a) && CanRun(Run(s, a), b)
    ensures CanRun(s, a + b) && Run(s, a + b) == Run(Run(s, a), b)
    decreases a
  {
    if |a| == 0 {
      assert a + b == b;
    } else {
      assert (a + b)[1..] == a[1..] + b;
      CanRunConcat(Apply(s, a[0]), a[1..], b);
    }
  }

  /** A runnable task is never stuck: letting the worker and the clock go on, with no control operation, starts a
      run; and not before its next run time, unless a timer set for another time has already rung. */
  lemma RunnableTaskRuns(s: State, id: string) returns (events: seq<Event>)
    requires Inv(s) && id in s.world.tasks && id !in s.doomed && Runnable(s.world.tasks[id], s.world.globallyPaused)
    ensures CanRun(s, events)
    ensures forall i | 0 <= i < |events| ::
              IsInternal(events[i], id) || events[i].Tick? || events[i] == Fire(id) || events[i] == TryRun(id)
    ensures AtPc(Run(s, events), id, InRunner) && id in Run(s, events).world.tasks
    ensures id in s.workers &&
            (s.workers[id].pc.Fired? ==> Some(s.workers[id].pc.tick) == s.world.tasks[id].nextRunAt) ==>
              s.world.tasks[id].nextRunAt.value <= Run(s, events).now
  {
    assert TaskOk(s.world.tasks[id], s.workers[id], s.signals[id], s.world.globallyPaused, id in s.doomed);
    if s.workers[id].pc.Fired? {
      events := FiredTaskRuns(s, id);
    } else {
      events := SettledTaskRuns(s, id);
    }
  }

  lemma FiredTaskRuns(s: State, id: string) returns (events: seq<Event>)
    requires Inv(s) && id in s.world.tasks && Runnable(s.world.tasks[id], s.world.globallyPaused)
    requires id in s.workers && s.workers[id].pc.Fired?
    ensures events == [TryRun(id)] && CanRun(s, events)
    ensures var s' := Run(s, events);
            AtPc(s', id, InRunner) && id in s'.world.tasks && s.workers[id].pc.tick <= s'.now
  {
    events := [TryRun(id)];
    assert WorkerOk(s.workers[id], s.now);
    RunOne(s, TryRun(id), []);
    assert [TryRun(id)] + [] == events;
  }

  lemma SettledTaskRuns(s: State, id: string) returns (events: seq<Event>)
    requires Inv(s) && id in s.world.tasks && id !in s.doomed && Runnable(s.world.tasks[id], s.world.globallyPaused)
    requires id in s.workers && !s.workers[id].pc.Fired?
    ensures CanRun(s, events)
    ensures forall i | 0 <= i < |events| ::
              IsInternal(events[i], id) || events[i].Tick? || events[i] == Fire(id) || events[i] == TryRun(id)
    ensures var s' := Run(s, events);
            AtPc(s', id, InRunner) && id in s'.world.tasks && s.world.tasks[id].nextRunAt.value <= s'.now
  {
    var settle := Settle(s, id);
    var s1 := Run(s, settle);
    var d, tail := ArmedTaskRuns(s1, id);
    CanRunConcat(s, settle, tail);
    events := settle + tail;
    forall i | 0 <= i < |events|
      ensures IsInternal(events[i], id) || events[i].Tick? || events[i] == Fire(id) || events[i] == TryRun(id)
    {
      assert events[i] == if i < |settle| then settle[i] else tail[i - |settle|];
    }
  }

  lemma ArmedTaskRuns(s: State, id: string) returns (d: nat, events: seq<Event>)
    requires Inv(s) && id in s.world.tasks && Runnable(s.world.tasks[id], s.world.globallyPaused)
    requires AtPc(s, id, Waiting) && s.workers[id].timer.Some? &&
             Some(s.workers[id].timer.value.target) == s.world.tasks[id].nextRunAt
    ensures events == [Tick(d), Fire(id), TryRun(id)] && CanRun(s, events)
    ensures var s' := Run(s, events);
            AtPc(s', id, InRunner) && id in s'.world.tasks && s.world.tasks[id].nextRunAt.value <= s'.now
  {
    var timer := s.workers[id].timer.value;
    assert WorkerOk(s.workers[id], s.now);
    d := if timer.deadline > s.now then timer.deadline - s.now else 0;
    var s2 := Apply(s, Tick(d));
    var s3 := Apply(s2, Fire(id));
    var s4 := Apply(s3, TryRun(id));
    events := [Tick(d), Fire(id), TryRun(id)];
    RunOne(s3, TryRun(id), []);
    RunOne(s2, Fire(id), [TryRun(id)]);
    RunOne(s, Tick(d), [Fire(id), TryRun(id)]);
    assert [Tick(d)] + [Fire(id), TryRun(id)] == events;
    assert [Fire(id)] + [TryRun(id)] == [Fire(id), TryRun(id)];
    assert [TryRun(id)] + [] == [TryRun(id)];
  }

  lemma RunOne(s: State, e: Event, rest: seq<Event>)
    requires Enabled(s, e) && CanRun(Apply(s, e), rest)
    ensures CanRun(s, [e] + rest) && Run(s, [e] + rest) == Run(Apply(s, e), rest)
  {
    assert ([e] + rest)[1..] == rest;
  }

  /* ----- When runs start ----- */

  /** A run starts only for a task that is present and not paused, with nothing paused globally; and not before the
      task's next run time, unless a wake is waiting for the worker or about to be sent. */
  lemma RunStarts(s: State, id: string)
    requires Inv(s) && Enabled(s, TryRun(id))
    ensures AtPc(Apply(s, TryRun(id)), id, InRunner) <==>
            id in s.world.tasks && !s.world.tasks[id].paused && !s.world.globallyPaused
    ensures AtPc(Apply(s, TryRun(id)), id, InRunner) && !s.workers[id].wake && s.signals[id] == 0 && id !in s.doomed ==>
              s.world.tasks[id].nextRunAt.Some? && s.world.tasks[id].nextRunAt.value <= s.now
  {
    assert id in s.world.tasks ==>
        TaskOk(s.world.tasks[id], s.workers[id], s.signals[id], s.world.globallyPaused, id in s.doomed);
    assert WorkerOk(s.workers[id], s.now);
  }

  /** The exception is real: whenever a timer rings, pausing and resuming the task before the worker gets the lock
      makes the run start before the next run time that the resumption has set. */
  lemma QuickPauseAndResumeRunsEarly(s: State, id: string) returns (s1: State, s2: State, s3: State)
    requires Inv(s) && id in s.world.tasks && Runnable(s.world.tasks[id], s.world.globallyPaused)
    requires Enabled(s, Fire(id))
    ensures s1 == Apply(s, Fire(id)) && s2 == Apply(s1, Pause(id, true)) && s3 == Apply(s2, Resume(id, true))
    ensures id in s3.world.tasks && s3.world.tasks[id].nextRunAt == Some(s.now + s.world.tasks[id].every)
    ensures s3.now == s.now < s.now + s.world.tasks[id].every
    ensures Enabled(s3, TryRun(id)) && AtPc(Apply(s3, TryRun(id)), id, InRunner)
  {
    assert TaskOk(s.world.tasks[id], s.workers[id], s.signals[id], s.world.globallyPaused, id in s.doomed);
    s1 := FiredState(s, id);
    s2, s3 := FiredTaskRunsEarly(s1, id);
  }

  lemma FiredState(s: State, id: string) returns (s1: State)
    requires Enabled(s, Fire(id))
    ensures s1 == Apply(s, Fire(id)) && s1.world == s.world && s1.now == s.now
    ensures id in s1.workers && s1.workers[id].pc.Fired?
  {
    s1 := Apply(s, Fire(id));
  }

  lemma FiredTaskRunsEarly(s: State, id: string) returns (s2: State, s3: State)
    requires id in s.world.tasks && Runnable(s.world.tasks[id], s.world.globallyPaused) && s.world.tasks[id].every > 0
    requires id in s.workers && s.workers[id].pc.Fired?
    ensures s2 == Apply(s, Pause(id, true)) && s3 == Apply(s2, Resume(id, true))
    ensures id in s3.world.tasks && s3.world.tasks[id].nextRunAt == Some(s.now + s.world.tasks[id].every)
    ensures s3.now == s.now && Enabled(s3, TryRun(id)) && AtPc(Apply(s3, TryRun(id)), id, InRunner)
  {
    var w1 := PauseTask(s.world, id, true).world;
    assert w1.tasks[id] == s.world.tasks[id].(paused := true, nextRunAt := None);
    var w2 := ResumeTask(w1, id, s.now, true).world;
    assert w2.tasks[id] == s.world.tasks[id].(nextRunAt := Some(s.now + s.world.tasks[id].every));
    s2 := Apply(s, Pause(id, true));
    s3 := Apply(s2, Resume(id, true));
    assert s3.world == w2 && s3.workers == s.workers;
  }

  /** A new task never takes over the worker of an earlier one: every worker already there is left alone, so no task
      ever has two runs in flight. */
  lemma AdditionKeepsWorkers(s0: State, events: seq<Event>, every: int, commandLine: string, ok: bool, id: string)
    requires Initial(s0) && CanRun(s0, events) && id in Run(s0, events).workers
    requires Enabled(Run(s0, events), Add(every, commandLine, ok))
    ensures var s := Run(s0, events);
            var s' := Apply(s, Add(every, commandLine, ok));
            id in s'.workers && s'.workers[id] == s.workers[id]
  {
    InitialInv(s0);
    RunKeepsInv(s0, events);
    var s := Run(s0, events);
    AddAppends(s, every, commandLine, ok);
  }

  /* ----- Run counts ----- */

  function FinishCount(events: seq<Event>, id: string): nat {
    if |events| == 0 then 0
    else (if events[0].Finish? && events[0].id == id then 1 else 0) + FinishCount(events[1..], id)
  }

  ghost predicate NoRestart(events: seq<Event>) {
    forall i | 0 <= i < |events| :: events[i] != Restart
  }

  /** The events that leave tasks and files alone. */
  predicate IsQuiet(e: Event) {
    e.Tick? || e.Close? || e.Signal? || e.TakeWake? || e.Compute? || e.Arm? || e.Fire? || e.Exit?
  }

  lemma QuietStep(s: State, e: Event)
    requires Enabled(s, e) && IsQuiet(e)
    ensures Apply(s, e).world == s.world && Apply(s, e).issued == s.issued && Apply(s, e).lost == s.lost
    ensures Apply(s, e).workers.Keys == s.workers.Keys
  {
  }

  /** Without a restart, only an addition brings an id into the task set, and only a new one. */
  lemma TaskSetStep(s: State, e: Event)
    requires Inv(s) && Enabled(s, e) && e != Restart && !e.Add?
    ensures Apply(s, e).world.tasks.Keys <= s.world.tasks.Keys
    ensures Apply(s, e).workers.Keys == s.workers.Keys
  {
    assert Scheduled(s.world);
    match e
    case Pause(id, ok) => PauseSignals(s.world, id, ok);
    case Resume(id, ok) => ResumeSignals(s.world, id, s.now, ok);
    case GlobalPause(ok) => GlobalControlsSignal(s.world, s.now, ok);
    case GlobalResume(ok) => GlobalControlsSignal(s.world, s.now, ok);
    case Remove(_, _, _, _) => RemovalKeepsOthers(s.world, e, s.now);
    case TryRun(_) =>
    case Finish(_, _) =>
    case _ => QuietStep(s, e);
  }

  lemma RemovedStaysRemovedStep(s: State, e: Event, id: string)
    requires Inv(s) && Enabled(s, e) && e != Restart && id in s.workers && id !in s.world.tasks
    ensures id in Apply(s, e).workers && id !in Apply(s, e).world.tasks
  {
    if e.Add? {
      AddAppends(s, e.every, e.commandLine, e.ok);
    } else {
      TaskSetStep(s, e);
    }
  }

  /** An addition brings in one new task and one new worker, or nothing when its save fails. */
  lemma AddAppends(s: State, every: int, commandLine: string, ok: bool)
    requires Inv(s)
    ensures var s' := Added(s, every, commandLine, ok);
            var id := TaskId(s.world.nextID + 1);
            && id !in s.workers && id !in s.world.tasks
            && s'.world.nextID == s.world.nextID + 1 && s'.world.history == s.world.history
            && s'.world.paths == s.world.paths
            && s'.lost == s.lost
            && if SaveWorks(s.world, ok)
               then && s'.world.tasks == s.world.tasks[id := Task(every, commandLine, 0, true, false, None)]
                    && s'.workers == s.workers[id := Worker(Starting, None, false)]
                    && s'.issued == s.issued + {id}
                    && s'.world == Saved(s'.world, ok)
               else s'.world == s.world.(nextID := s.world.nextID + 1) && s'.workers == s.workers &&
                    s'.issued == s.issued
  {
    NewIdIsFree(s);
    var id := TaskId(s.world.nextID + 1);
    assert s.world.tasks[id := Task(every, commandLine, 0, true, false, None)] - {id} == s.world.tasks;
  }

  lemma {:induction false} RemovedStaysRemoved(s: State, events: seq<Event>, id: string)
    requires Inv(s) && CanRun(s, events) && NoRestart(events) && id in s.workers && id !in s.world.tasks
    ensures id !in Run(s, events).world.tasks
    decreases events
  {
    if |events| > 0 {
      assert events[0] != Restart;
      RemovedStaysRemovedStep(s, events[0], id);
      StepKeepsInv(s, events[0]);
      assert forall i | 0 <= i < |events[1..]| :: events[1..][i] == events[i + 1];
      RemovedStaysRemoved(Apply(s, events[0]), events[1..], id);
    }
  }

  lemma StepCountsRuns(s: State, e: Event, id: string)
    requires Inv(s) && Enabled(s, e) && e != Restart && id in s.world.tasks && id in Apply(s, e).world.tasks
    ensures Apply(s, e).world.tasks[id].runCount
            == s.world.tasks[id].runCount + (if e.Finish? && e.id == id then 1 else 0)
  {
    if e.Add? {
      AddAppends(s, e.every, e.commandLine, e.ok);
    } else if e.Remove? {
      RemovalKeepsOthers(s.world, e, s.now);
    } else if e.Pause? || e.Resume? || e.GlobalPause? || e.GlobalResume? {
      ControlCountsNothing(s, e, id);
    } else if e.TryRun? || e.Finish? {
      WorkerCountsRuns(s, e, id);
    } else {
      QuietStep(s, e);
    }
  }

  lemma ControlCountsNothing(s: State, e: Event, id: string)
    requires Inv(s) && Enabled(s, e) && (e.Pause? || e.Resume? || e.GlobalPause? || e.GlobalResume?)
    requires id in s.world.tasks
    ensures id in Apply(s, e).world.tasks && Apply(s, e).world.tasks[id].runCount == s.world.tasks[id].runCount
  {
    assert Scheduled(s.world);
    match e {
      case Pause(other, ok) => PauseSignals(s.world, other, ok);
      case Resume(other, ok) => ResumeSignals(s.world, other, s.now, ok);
      case GlobalPause(ok) => GlobalControlsSignal(s.world, s.now, ok);
      case GlobalResume(ok) => GlobalControlsSignal(s.world, s.now, ok);
    }
  }

  lemma WorkerCountsRuns(s: State, e: Event, id: string)
    requires Inv(s) && Enabled(s, e) && (e.TryRun? || e.Finish?) && id in s.world.tasks && id in Apply(s, e).world.tasks
    ensures Apply(s, e).world.tasks[id].runCount
            == s.world.tasks[id].runCount + (if e.Finish? && e.id == id then 1 else 0)
  {
    assert id in s.workers;
  }

  lemma RemovalKeepsOthers(w: World, e: Event, now: Time)
    requires e.Remove?
    ensures var w' := CancelTask(w, e.id, now, e.ok, e.okHistory, e.okRollback).world;
            forall id | id in w'.tasks :: id in w.tasks && w'.tasks[id] == w.tasks[id]
  {
  }

  /** Between restarts, the run count of a task that stays is its count at the start and one for each run that its
      worker finished in between, whether or not the saves succeeded. */
  lemma {:induction false} RunCountCountsRuns(s: State, events: seq<Event>, id: string)
    requires Inv(s) && CanRun(s, events) && NoRestart(events)
    requires id in s.world.tasks && id in Run(s, events).world.tasks
    ensures Run(s, events).world.tasks[id].runCount == s.world.tasks[id].runCount + FinishCount(events, id)
    decreases events
  {
    if |events| > 0 {
      var s' := Apply(s, events[0]);
      StepKeepsInv(s, events[0]);
      assert forall i | 0 <= i < |events[1..]| :: events[1..][i] == events[i + 1];
      assert events[0] != Restart;
      if id !in s'.world.tasks {
        assert id in s.workers;
        WorkersStay(s, events[0], id);
        RemovedStaysRemoved(s', events[1..], id);
      }
      StepCountsRuns(s, events[0], id);
      RunCountCountsRuns(s', events[1..], id);
    }
  }

  lemma WorkersStay(s: State, e: Event, id: string)
    requires Enabled(s, e) && e != Restart && id in s.workers
    ensures id in Apply(s, e).workers
  {
  }
}
