/** What each operation on the tasks means to a caller: which task it changes and how, what it leaves alone, and what
    a pause keeps from running, over whole runs and across restarts. */
module TaskControls {
  import opened Text
  import opened TaskStore
  import opened TaskProtocol
  import opened TaskTheorems

  /* ----- One operation ----- */

  /** Every task but one is as it was, and so is everything else in memory. */
  ghost predicate OnlyTask(w: World, w': World, id: string) {
    && w'.tasks.Keys - {id} == w.tasks.Keys - {id}
    && (forall other | other in w.tasks && other != id :: other in w'.tasks && w'.tasks[other] == w.tasks[other])
    && w'.globallyPaused == w.globallyPaused && w'.nextID == w.nextID && w'.paths == w.paths
  }

  /** The file holds exactly what memory holds. */
  ghost predicate FileIsCurrent(w: World) {
    w.paths.state ==>
      && w.stateFile.Some?
      && w.stateFile.value.nextID == w.nextID && w.stateFile.value.globallyPaused == w.globallyPaused
      && w.stateFile.value.tasks.Keys == w.tasks.Keys
      && forall id | id in w.tasks ::
           var r := w.stateFile.value.tasks[id];
           r.every == w.tasks[id].every && r.commandLine == w.tasks[id].commandLine
           && r.runCount == w.tasks[id].runCount && r.paused == w.tasks[id].paused
  }

  /** The task goes on as before but for the pause flag and the next run time. */
  predicate SameButSchedule(t: Task, t': Task) {
    t'.every == t.every && t'.commandLine == t.commandLine && t'.runCount == t.runCount && t'.running == t.running
  }

  /** A pause that is done pauses the named task, takes its next run time away and stores that; any other leaves
      everything alone. */
  lemma PauseMeans(w: World, id: string, ok: bool)
    ensures var c := PauseTask(w, id, ok);
            && (c.outcome == Done <==> id in w.tasks && SaveWorks(w, ok))
            && (c.outcome == NotFound <==> id !in w.tasks)
            && (c.outcome != Done ==> c.world == w && c.signals == {})
            && (c.outcome == Done ==>
                  && OnlyTask(w, c.world, id) && id in c.world.tasks && c.world.history == w.history
                  && c.world.tasks[id].paused && c.world.tasks[id].nextRunAt == None
                  && SameButSchedule(w.tasks[id], c.world.tasks[id]) && FileIsCurrent(c.world))
  {
  }

  /** A resumption that is done clears the flag; a task that was paused and does not run is due one interval from
      now, any other when it was due before. */
  lemma ResumeMeans(w: World, id: string, now: Time, ok: bool)
    ensures var c := ResumeTask(w, id, now, ok);
            && (c.outcome == Done <==> id in w.tasks && SaveWorks(w, ok))
            && (c.outcome == NotFound <==> id !in w.tasks)
            && (c.outcome != Done ==> c.world == w && c.signals == {})
            && (c.outcome == Done ==>
                  && OnlyTask(w, c.world, id) && id in c.world.tasks && c.world.history == w.history
                  && !c.world.tasks[id].paused
                  && (w.tasks[id].paused && !w.tasks[id].running && w.tasks[id].every > 0 ==>
                        c.world.tasks[id].nextRunAt == Some(now + w.tasks[id].every))
                  && (!w.tasks[id].paused || w.tasks[id].running ==>
                        c.world.tasks[id].nextRunAt == w.tasks[id].nextRunAt)
                  && SameButSchedule(w.tasks[id], c.world.tasks[id]) && FileIsCurrent(c.world)
                  && (id in c.signals <==> w.tasks[id].paused))
  {
  }

  /** A global pause that is done sets the flag and changes no task; any other leaves everything alone. */
  lemma PauseAllMeans(w: World, ok: bool)
    ensures var c := PauseAll(w, ok);
            && (c.outcome == Done <==> w.globallyPaused || SaveWorks(w, ok))
            && (c.outcome != Done ==> c.world == w && c.signals == {})
            && (c.outcome == Done ==>
                  && c.world.globallyPaused && c.world.tasks == w.tasks && c.world.nextID == w.nextID
                  && c.world.history == w.history && c.world.paths == w.paths
                  && (w.globallyPaused ==> c.world == w) && (!w.globallyPaused ==> FileIsCurrent(c.world)))
  {
  }

  /** The task is due one interval from now if it is neither paused nor running, else when it was due before. */
  predicate DueAgain(t: Task, t': Task, now: Time) {
    && SameButSchedule(t, t') && t'.paused == t.paused
    && (!t.paused && !t.running && t.every > 0 ==> t'.nextRunAt == Some(now + t.every))
    && (t.paused || t.running ==> t'.nextRunAt == t.nextRunAt)
  }

  /** A global resumption that is done clears the flag, and every idle task is due one interval from now; one whose
      save fails keeps the flag, and has moved the times all the same. */
  lemma ResumeAllMeans(w: World, now: Time, ok: bool)
    ensures var c := ResumeAll(w, now, ok);
            && (c.outcome == Done <==> !w.globallyPaused || SaveWorks(w, ok))
            && (c.outcome == Done <==> !c.world.globallyPaused)
            && (!w.globallyPaused ==> c.world == w)
            && c.world.tasks.Keys == w.tasks.Keys && c.world.nextID == w.nextID
            && c.world.history == w.history && c.world.paths == w.paths
            && (w.globallyPaused ==> forall id | id in w.tasks :: DueAgain(w.tasks[id], c.world.tasks[id], now))
            && (w.globallyPaused && c.outcome == Done ==> FileIsCurrent(c.world))
            && (c.outcome != Done ==> c.world.stateFile == w.stateFile)
  {
  }

  /** A removal that is done takes the task out of memory and file, and archives it as it was, at the end of the
      history; a removal that fails keeps it in memory as it was. */
  lemma CancelMeans(w: World, id: string, now: Time, ok: bool, okHistory: bool, okRollback: bool)
    ensures var c := CancelTask(w, id, now, ok, okHistory, okRollback);
            && OnlyTask(w, c.world, id)
            && (c.outcome == Done <==> id in w.tasks && SaveWorks(w, ok) && (w.paths.history ==> okHistory))
            && (c.outcome == Done ==> id !in c.world.tasks && FileIsCurrent(c.world))
            && (c.outcome == Done && w.paths.history ==>
                  && |c.world.history| == |w.history| + 1 && c.world.history[..|w.history|] == w.history
                  && var e := c.world.history[|w.history|];
                     && e.id == id && e.removedAt == now && e.record.every == w.tasks[id].every
                     && e.record.commandLine == w.tasks[id].commandLine && e.record.runCount == w.tasks[id].runCount
                     && e.record.paused == w.tasks[id].paused)
            && (c.outcome == Done && !w.paths.history ==> c.world.history == w.history)
            && (c.outcome != Done ==> c.world.tasks == w.tasks && c.world.history == w.history)
            && (c.outcome == BackupFailed ==> FileIsCurrent(c.world))
  {
  }

  /** A run that starts marks its task and takes its next run time away; a run that does not start changes nothing. */
  lemma MarkRunningMeans(w: World, id: string)
    ensures var (w', started) := MarkRunning(w, id);
            && (started <==> id in w.tasks && !w.tasks[id].paused && !w.globallyPaused)
            && (!started ==> w' == w)
            && (started ==>
                  && OnlyTask(w, w', id) && id in w'.tasks && w'.stateFile == w.stateFile && w'.history == w.history
                  && w'.tasks[id].running && w'.tasks[id].nextRunAt == None && !w'.tasks[id].paused
                  && w'.tasks[id].every == w.tasks[id].every && w'.tasks[id].commandLine == w.tasks[id].commandLine
                  && w'.tasks[id].runCount == w.tasks[id].runCount)
  {
  }

  /** A run that ends is counted, and the task is due one interval later unless it was paused meanwhile. */
  lemma MarkFinishedMeans(w: World, id: string, now: Time, ok: bool)
    ensures var (w', target) := MarkFinished(w, id, now, ok);
            && (id !in w.tasks ==> w' == w && target == None)
            && (id in w.tasks ==>
                  && OnlyTask(w, w', id) && id in w'.tasks && w'.history == w.history
                  && !w'.tasks[id].running && w'.tasks[id].runCount == w.tasks[id].runCount + 1
                  && w'.tasks[id].every == w.tasks[id].every && w'.tasks[id].commandLine == w.tasks[id].commandLine
                  && w'.tasks[id].paused == w.tasks[id].paused && target == w'.tasks[id].nextRunAt
                  && (w.tasks[id].paused ==> target == None)
                  && (!w.tasks[id].paused && w.tasks[id].every > 0 ==> target == Some(now + w.tasks[id].every))
                  && (ok ==> FileIsCurrent(w')) && (!ok ==> w'.stateFile == w.stateFile))
  {
  }

  /** A worker is given a time exactly when its task is there, idle and not paused in either way. */
  lemma NextTargetMeans(w: World, id: string, at: Time)
    ensures NextTarget(w, id) == Some(at) <==>
            && id in w.tasks && !w.tasks[id].paused && !w.tasks[id].running && !w.globallyPaused
            && w.tasks[id].nextRunAt == Some(at)
  {
  }

  /** An addition that is done stores one more task: the interval and line that were asked for, paused and never
      run. One that fails leaves the tasks alone, and in both cases the number is used up. */
  lemma AddMeans(w: World, every: int, commandLine: string, ok: bool)
    requires TaskId(w.nextID + 1) !in w.tasks
    ensures var (w', id) := AddTask(w, every, commandLine, ok);
            && w'.nextID == w.nextID + 1 && w'.globallyPaused == w.globallyPaused && w'.history == w.history
            && (id.Some? <==> SaveWorks(w, ok))
            && (id.None? ==> w'.tasks == w.tasks && w'.stateFile == w.stateFile)
            && (id.Some? ==>
                  && id.value == "task-" + Decimal(w.nextID + 1) && id.value in w'.tasks
                  && w'.tasks.Keys == w.tasks.Keys + {id.value}
                  && (forall other | other in w.tasks :: w'.tasks[other] == w.tasks[other])
                  && var t := w'.tasks[id.value];
                     && t.every == every && t.commandLine == commandLine && t.runCount == 0 && t.paused && !t.running
                     && t.nextRunAt == None && FileIsCurrent(w'))
  {
    var id := TaskId(w.nextID + 1);
    assert w.tasks[id := Task(every, commandLine, 0, true, false, None)] - {id} == w.tasks;
  }

  /** A task that is loaded is idle, and due one interval from the start of the process unless it is stored as
      paused. */
  lemma LoadedMeans(accepts: Acceptance, w: World, now: Time, id: string)
    requires w.paths.state && w.stateFile.Some?
    ensures var records := w.stateFile.value.tasks;
            var w' := Load(accepts, w, now);
            && (id in w'.tasks <==> id in records && Loadable(accepts, id, records[id]))
            && w'.globallyPaused == w.stateFile.value.globallyPaused
            && w'.history == w.history && w'.stateFile == w.stateFile && w'.paths == w.paths
            && (id in w'.tasks ==>
                  && w'.tasks[id].every == records[id].every
                  && w'.tasks[id].commandLine == Trim(records[id].commandLine)
                  && w'.tasks[id].runCount == records[id].runCount && w'.tasks[id].paused == records[id].paused
                  && !w'.tasks[id].running
                  && w'.tasks[id].nextRunAt == if records[id].paused then None else Some(now + records[id].every))
  {
    LoadedRecord(accepts, w.stateFile.value.tasks, now, id);
  }

  lemma LoadedRecord(accepts: Acceptance, records: map<string, Record>, now: Time, id: string)
    ensures var tasks := RestoredAll(accepts, records, now);
            && (id in tasks <==> id in records && Loadable(accepts, id, records[id]))
            && (id in tasks ==> tasks[id] == Restored(records[id], now) && records[id].every > 0)
  {
  }

  /* ----- What stays paused ----- */

  /** Memory and file agree on the global flag; without a file, nothing is paused. */
  predicate FlagStored(w: World) {
    w.paths.state ==> w.globallyPaused == (w.stateFile.Some? && w.stateFile.value.globallyPaused)
  }

  lemma LoadStoresFlag(accepts: Acceptance, w: World, now: Time)
    ensures FlagStored(Load(accepts, w, now))
    ensures w.paths.state && FlagStored(w) ==> Load(accepts, w, now).globallyPaused == w.globallyPaused
  {
  }

  /** The event lifts a global pause: a resumption that is done or, without a state file, a restart. */
  predicate Lifts(s: State, e: Event) {
    (e.GlobalResume? && ResumeAll(s.world, s.now, e.ok).outcome == Done) || (e == Restart && !s.world.paths.state)
  }

  ghost predicate NoneLifts(s: State, events: seq<Event>)
    requires CanRun(s, events)
    decreases events
  {
    |events| == 0 || (!Lifts(s, events[0]) && NoneLifts(Apply(s, events[0]), events[1..]))
  }

  lemma ControlKeepsFlag(s: State, e: Event)
    requires Enabled(s, e) && FlagStored(s.world) && (e.GlobalPause? || e.GlobalResume? || e.Pause? || e.Resume?)
    ensures FlagStored(Apply(s, e).world) && Apply(s, e).world.paths == s.world.paths
    ensures s.world.globallyPaused && !Lifts(s, e) ==> Apply(s, e).world.globallyPaused
  {
  }

  lemma StepKeepsFlag(s: State, e: Event)
    requires Enabled(s, e) && FlagStored(s.world)
    ensures FlagStored(Apply(s, e).world) && Apply(s, e).world.paths == s.world.paths
    ensures s.world.globallyPaused && !Lifts(s, e) ==> Apply(s, e).world.globallyPaused
  {
    if e.GlobalPause? || e.GlobalResume? || e.Pause? || e.Resume? {
      ControlKeepsFlag(s, e);
    } else if e.Restart? {
      LoadStoresFlag(s.accepts, s.world, s.now);
    }
  }

  lemma {:induction false} FlagIsStored(s: State, events: seq<Event>)
    requires FlagStored(s.world) && CanRun(s, events)
    ensures FlagStored(Run(s, events).world) && Run(s, events).world.paths == s.world.paths
    decreases events
  {
    if |events| > 0 {
      StepKeepsFlag(s, events[0]);
      FlagIsStored(Apply(s, events[0]), events[1..]);
    }
  }

  lemma {:induction false} FlagStays(s: State, events: seq<Event>)
    requires FlagStored(s.world) && s.world.globallyPaused && CanRun(s, events) && NoneLifts(s, events)
    ensures Run(s, events).world.globallyPaused
    decreases events
  {
    if |events| > 0 {
      StepKeepsFlag(s, events[0]);
      FlagStays(Apply(s, events[0]), events[1..]);
    }
  }

  lemma InitialStoresFlag(s0: State)
    requires Initial(s0)
    ensures FlagStored(s0.world)
  {
    var start: State :| start.issued == {} && start.lost == {} && FilesOk(start.world) && s0 == Restarted(start);
    LoadStoresFlag(start.accepts, start.world, start.now);
  }

  lemma GlobalPauseSetsFlag(s: State, ok: bool)
    requires FlagStored(s.world) && PauseAll(s.world, ok).outcome == Done
    ensures FlagStored(Apply(s, GlobalPause(ok)).world) && Apply(s, GlobalPause(ok)).world.globallyPaused
  {
    PauseAllMeans(s.world, ok);
    StepKeepsFlag(s, GlobalPause(ok));
  }

  lemma PausedIsRefused(t: State, id: string)
    requires t.world.globallyPaused && Enabled(t, TryRun(id))
    ensures AtPc(Apply(t, TryRun(id)), id, Refused)
  {
  }

  /** In every reachable state: after a global pause that is done, no run of any task starts, whatever happens, until
      a global resumption is done. Where there is a state file, the pause also survives restarts. */
  lemma GlobalPauseStopsRuns(s0: State, before: seq<Event>, ok: bool, events: seq<Event>, id: string)
    requires Initial(s0) && CanRun(s0, before)
    requires PauseAll(Run(s0, before).world, ok).outcome == Done
    requires var s := Apply(Run(s0, before), GlobalPause(ok)); CanRun(s, events) && NoneLifts(s, events)
    ensures var t := Run(Apply(Run(s0, before), GlobalPause(ok)), events);
            t.world.globallyPaused && (Enabled(t, TryRun(id)) ==> AtPc(Apply(t, TryRun(id)), id, Refused))
  {
    InitialStoresFlag(s0);
    FlagIsStored(s0, before);
    GlobalPauseSetsFlag(Run(s0, before), ok);
    FlagStays(Apply(Run(s0, before), GlobalPause(ok)), events);
    var t := Run(Apply(Run(s0, before), GlobalPause(ok)), events);
    if Enabled(t, TryRun(id)) {
      PausedIsRefused(t, id);
    }
  }

  /** The task is paused in memory and in the file, wherever it is there at all. */
  predicate PausedEverywhere(w: World, id: string) {
    && (id in w.tasks ==> w.tasks[id].paused)
    && (w.paths.state && w.stateFile.Some? && id in w.stateFile.value.tasks ==>
          w.stateFile.value.tasks[id].paused)
  }

  predicate ResumesTask(s: State, e: Event, id: string) {
    e.Resume? && e.id == id && ResumeTask(s.world, id, s.now, e.ok).outcome == Done
  }

  ghost predicate NoneResumes(s: State, events: seq<Event>, id: string)
    requires CanRun(s, events)
    decreases events
  {
    |events| == 0 || (!ResumesTask(s, events[0], id) && NoneResumes(Apply(s, events[0]), events[1..], id))
  }

  lemma ControlKeepsPaused(s: State, e: Event, id: string)
    requires PausedEverywhere(s.world, id) && !ResumesTask(s, e, id)
    requires e.Pause? || e.Resume? || e.GlobalPause? || e.GlobalResume?
    ensures PausedEverywhere(Apply(s, e).world, id)
  {
  }

  lemma AddKeepsPaused(w: World, id: string, every: int, commandLine: string, ok: bool)
    requires PausedEverywhere(w, id)
    ensures PausedEverywhere(AddTask(w, every, commandLine, ok).0, id)
  {
  }

  lemma RemoveKeepsPaused(w: World, id: string, e: Event, now: Time)
    requires PausedEverywhere(w, id) && e.Remove?
    ensures PausedEverywhere(CancelTask(w, e.id, now, e.ok, e.okHistory, e.okRollback).world, id)
  {
  }

  lemma WorkerKeepsPaused(s: State, e: Event, id: string)
    requires PausedEverywhere(s.world, id) && Enabled(s, e) && (e.TryRun? || e.Finish? || IsQuiet(e))
    ensures PausedEverywhere(Apply(s, e).world, id)
  {
  }

  lemma StepKeepsPaused(s: State, e: Event, id: string)
    requires PausedEverywhere(s.world, id) && Enabled(s, e) && !ResumesTask(s, e, id)
    ensures PausedEverywhere(Apply(s, e).world, id)
  {
    if e.Pause? || e.Resume? || e.GlobalPause? || e.GlobalResume? {
      ControlKeepsPaused(s, e, id);
    } else if e.Add? {
      AddKeepsPaused(s.world, id, e.every, e.commandLine, e.ok);
    } else if e.Remove? {
      RemoveKeepsPaused(s.world, id, e, s.now);
    } else if e != Restart {
      WorkerKeepsPaused(s, e, id);
    }
  }

  lemma {:induction false} PauseStays(s: State, events: seq<Event>, id: string)
    requires PausedEverywhere(s.world, id) && CanRun(s, events) && NoneResumes(s, events, id)
    ensures PausedEverywhere(Run(s, events).world, id)
    decreases events
  {
    if |events| > 0 {
      StepKeepsPaused(s, events[0], id);
      PauseStays(Apply(s, events[0]), events[1..], id);
    }
  }

  /** After a pause of a task that is done, no run of it starts, whatever happens, restarts included, until a
      resumption of that task is done. */
  lemma PauseStopsRuns(s: State, id: string, ok: bool, events: seq<Event>)
    requires PauseTask(s.world, id, ok).outcome == Done
    requires var s' := Apply(s, Pause(id, ok)); CanRun(s', events) && NoneResumes(s', events, id)
    ensures var t := Run(Apply(s, Pause(id, ok)), events);
            && (id in t.world.tasks ==> t.world.tasks[id].paused)
            && (Enabled(t, TryRun(id)) ==> AtPc(Apply(t, TryRun(id)), id, Refused))
  {
    PauseMeans(s.world, id, ok);
    PauseStays(Apply(s, Pause(id, ok)), events, id);
  }

  /** After a resumption that is done, with nothing paused globally, a task that does not run is brought to a run by
      its own worker and the clock alone. */
  lemma ResumedTaskRuns(s: State, id: string, ok: bool) returns (events: seq<Event>)
    requires Inv(s) && ResumeTask(s.world, id, s.now, ok).outcome == Done && id !in s.doomed
    requires id in s.world.tasks && !s.world.tasks[id].running && !s.world.globallyPaused
    ensures CanRun(Apply(s, Resume(id, ok)), events)
    ensures forall i | 0 <= i < |events| ::
              IsInternal(events[i], id) || events[i].Tick? || events[i] == Fire(id) || events[i] == TryRun(id)
    ensures AtPc(Run(Apply(s, Resume(id, ok)), events), id, InRunner)
  {
    ResumeMeans(s.world, id, s.now, ok);
    StepKeepsInv(s, Resume(id, ok));
    assert TaskOk(s.world.tasks[id], s.workers[id], s.signals[id], s.world.globallyPaused, id in s.doomed);
    events := RunnableTaskRuns(Apply(s, Resume(id, ok)), id);
  }

  /* ----- The end of the workers ----- */

  /** The worker is told to end, and if it has ended already it stays so. */
  predicate Ending(s: State, id: string, ended: bool) {
    id in s.doomed && id in s.workers && (ended ==> s.workers[id].pc == Exited)
  }

  lemma AddKeepsEnding(s: State, e: Event, id: string, ended: bool)
    requires NumbersOk(s) && Enabled(s, e) && e.Add? && Ending(s, id, ended)
    ensures Ending(Apply(s, e), id, ended)
  {
    NewIdIsFree(s);
  }

  lemma StepKeepsEnding(s: State, e: Event, id: string, ended: bool)
    requires Inv(s) && Enabled(s, e) && e != Restart && Ending(s, id, ended)
    ensures Ending(Apply(s, e), id, ended)
  {
    if e.Add? {
      AddKeepsEnding(s, e, id, ended);
    }
  }

  ghost predicate NoRestart(events: seq<Event>) {
    forall i | 0 <= i < |events| :: events[i] != Restart
  }

  lemma {:induction false} EndingGoesOn(s: State, events: seq<Event>, id: string, ended: bool)
    requires Inv(s) && CanRun(s, events) && NoRestart(events) && Ending(s, id, ended)
    ensures Ending(Run(s, events), id, ended)
    decreases events
  {
    if |events| > 0 {
      StepKeepsEnding(s, events[0], id, ended);
      StepKeepsInv(s, events[0]);
      assert forall i | 0 <= i < |events| - 1 :: events[1..][i] == events[i + 1];
      EndingGoesOn(Apply(s, events[0]), events[1..], id, ended);
    }
  }

  /** The event ends the worker: the manager is closed, or the task is cancelled. */
  predicate EndsWorker(s: State, e: Event, id: string) {
    e == Close || (e.Remove? && e.id == id &&
                   CancelTask(s.world, id, s.now, e.ok, e.okHistory, e.okRollback).outcome == Done)
  }

  lemma EndingBegins(s: State, e: Event, id: string)
    requires Inv(s) && id in s.world.tasks && EndsWorker(s, e, id)
    ensures Ending(Apply(s, e), id, false)
  {
  }

  lemma EndingMayExit(t: State, id: string, ended: bool)
    requires Ending(t, id, ended)
    ensures AtPc(t, id, Waiting) ==> Enabled(t, Exit(id)) && Ending(Apply(t, Exit(id)), id, true)
    ensures ended ==> !Enabled(t, TryRun(id)) && !Enabled(t, Finish(id, true))
  {
  }

  /** Closing the manager ends every worker, and so does a cancellation that is done: from then on the worker may end
      whenever it waits ... */
  lemma WorkersEnd(s: State, e: Event, events: seq<Event>, id: string)
    requires Inv(s) && id in s.world.tasks && EndsWorker(s, e, id)
    requires CanRun(Apply(s, e), events) && NoRestart(events)
    ensures var t := Run(Apply(s, e), events);
            AtPc(t, id, Waiting) ==> Enabled(t, Exit(id)) && Ending(Apply(t, Exit(id)), id, true)
  {
    StepKeepsInv(s, e);
    EndingBegins(s, e, id);
    EndingGoesOn(Apply(s, e), events, id, false);
    EndingMayExit(Run(Apply(s, e), events), id, false);
  }

  /** ... and once it has ended it runs nothing for the rest of the process. */
  lemma EndedWorkerRunsNothing(s: State, events: seq<Event>, id: string)
    requires Inv(s) && Ending(s, id, true) && CanRun(s, events) && NoRestart(events)
    ensures AtPc(Run(s, events), id, Exited) && !Enabled(Run(s, events), TryRun(id))
  {
    EndingGoesOn(s, events, id, true);
    EndingMayExit(Run(s, events), id, true);
  }

  /* ----- Timers ----- */

  /** A worker that takes up a run time sets its timer for that time, or for now if it has passed; only the time it
      loses between computing the delay and setting the timer comes on top. */
  lemma TimerIsPrompt(s: State, id: string, d: nat)
    requires Enabled(s, Compute(id)) && NextTarget(s.world, id).Some?
    ensures var target := NextTarget(s.world, id).value;
            var s1 := Apply(Apply(s, Compute(id)), Tick(d));
            Enabled(s1, Arm(id)) &&
            Apply(s1, Arm(id)).workers[id].timer == Some(Timer(target, (if target < s.now then s.now else target) + d))
  {
  }
}
