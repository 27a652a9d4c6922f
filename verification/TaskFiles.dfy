/** What the state file and the removal history keep of the tasks: saves and roll-backs agree with memory, ids are
    never given out twice, and no task disappears. */
module TaskFiles {
  import opened Text
  import opened TaskStore
  import opened TaskProtocol
  import opened TaskTheorems

  /* ----- Memory and state file agree ----- */

  /** The state file tells what memory knows: the same tasks with the same schedules, lines, run counts and pause
      flags, and the same global flag. Before the first save there is no file, which tells of no tasks and no pause. */
  predicate Agrees(w: World) {
    w.paths.state ==>
      if w.stateFile.Some? then
        w.stateFile.value.tasks == RecordsOf(w.tasks) && w.stateFile.value.globallyPaused == w.globallyPaused
      else
        w.tasks == map[] && !w.globallyPaused
  }

  lemma PauseKeepsAgreement(w: World, id: string, ok: bool)
    requires Agrees(w)
    ensures Agrees(PauseTask(w, id, ok).world) && Agrees(PauseAll(w, ok).world)
  {
  }

  lemma ResumeKeepsAgreement(w: World, id: string, now: Time, ok: bool)
    requires Agrees(w)
    ensures Agrees(ResumeTask(w, id, now, ok).world) && Agrees(ResumeAll(w, now, ok).world)
  {
    assert RecordsOf(RescheduledAll(w.tasks, now)) == RecordsOf(w.tasks);
  }

  lemma AddKeepsAgreement(w: World, every: int, commandLine: string, ok: bool)
    requires Agrees(w) && TaskId(w.nextID + 1) !in w.tasks
    ensures Agrees(AddTask(w, every, commandLine, ok).0)
  {
    var id := TaskId(w.nextID + 1);
    assert w.tasks[id := Task(every, commandLine, 0, true, false, None)] - {id} == w.tasks;
  }

  /** The task is taken out of the file, cannot be archived, and cannot be put back into the file. */
  predicate RollbackFails(w: World, id: string, ok: bool, okHistory: bool, okRollback: bool) {
    id in w.tasks && SaveWorks(w, ok) && w.paths.history && !okHistory && !SaveWorks(w, okRollback)
  }

  /** Removal keeps the agreement unless the task had to be put back and that could not be saved. */
  lemma RemoveAgreement(w: World, id: string, now: Time, ok: bool, okHistory: bool, okRollback: bool)
    requires Agrees(w)
    ensures Agrees(CancelTask(w, id, now, ok, okHistory, okRollback).world) <==>
            !RollbackFails(w, id, ok, okHistory, okRollback)
  {
    if id in w.tasks {
      assert id in RecordsOf(w.tasks) && id !in RecordsOf(w.tasks - {id});
    }
  }

  /** Starting a run keeps the agreement; ending one keeps it exactly when its save succeeds or the task is gone. */
  lemma RunAgreement(w: World, id: string, now: Time, ok: bool)
    requires Agrees(w)
    ensures Agrees(MarkRunning(w, id).0)
    ensures Agrees(MarkFinished(w, id, now, ok).0) <==> SaveWorks(w, ok) || id !in w.tasks
  {
    var w1 := MarkRunning(w, id).0;
    assert RecordsOf(w1.tasks) == RecordsOf(w.tasks);
    if id in w.tasks {
      var t := Finished(w.tasks[id], now);
      assert RecordsOf(w.tasks)[id].runCount != RecordsOf(w.tasks[id := t])[id].runCount;
    }
  }

  /** The event leaves memory and state file in disagreement: a roll-back save or the save after a run has failed. */
  predicate BreaksAgreement(s: State, e: Event) {
    match e
    case Remove(id, ok, okHistory, okRollback) => RollbackFails(s.world, id, ok, okHistory, okRollback)
    case Finish(id, ok) => id in s.world.tasks && !SaveWorks(s.world, ok)
    case _ => false
  }

  /** Every event but a restart keeps the agreement, except exactly the two that `BreaksAgreement` names. */
  lemma StepAgreement(s: State, e: Event)
    requires Inv(s) && Enabled(s, e) && e != Restart && Agrees(s.world)
    ensures Agrees(Apply(s, e).world) <==> !BreaksAgreement(s, e)
  {
    match e
    case Add(every, commandLine, ok) =>
      AddAppends(s, every, commandLine, ok);
      AddKeepsAgreement(s.world, every, commandLine, ok);
    case Pause(id, ok) => PauseKeepsAgreement(s.world, id, ok);
    case Resume(id, ok) => ResumeKeepsAgreement(s.world, id, s.now, ok);
    case GlobalPause(ok) => PauseKeepsAgreement(s.world, "", ok);
    case GlobalResume(ok) => ResumeKeepsAgreement(s.world, "", s.now, ok);
    case Remove(id, ok, okHistory, okRollback) => RemoveAgreement(s.world, id, s.now, ok, okHistory, okRollback);
    case TryRun(id) => RunAgreement(s.world, id, s.now, true);
    case Finish(id, ok) => RunAgreement(s.world, id, s.now, ok);
    case _ => QuietStep(s, e);
  }

  /* ----- Restarts ----- */

  /** Lines and intervals that a restart accepts. */
  predicate Sound(accepts: Acceptance, t: Task) {
    t.every > 0 && t.commandLine != "" && Trim(t.commandLine) == t.commandLine && accepts(t.commandLine)
  }

  /** When memory and file agree, a restart brings back every task whose line and interval are acceptable, with
      its schedule, line, run count and pause flag, and the global flag; nothing else. */
  lemma RestartRestores(accepts: Acceptance, w: World, now: Time)
    requires w.paths.state && Agrees(w)
    requires forall id | id in w.tasks :: id != "" && Sound(accepts, w.tasks[id])
    ensures RecordsOf(Load(accepts, w, now).tasks) == RecordsOf(w.tasks)
    ensures Load(accepts, w, now).globallyPaused == w.globallyPaused
    ensures Agrees(Load(accepts, w, now))
  {
    if w.stateFile.Some? {
      SoundRecordsComeBack(accepts, w.tasks, now);
    }
  }

  lemma SoundRecordsComeBack(accepts: Acceptance, tasks: map<string, Task>, now: Time)
    requires forall id | id in tasks :: id != "" && Sound(accepts, tasks[id])
    ensures RecordsOf(RestoredAll(accepts, RecordsOf(tasks), now)) == RecordsOf(tasks)
  {
    var records := RecordsOf(tasks);
    assert LoadableIds(accepts, records) == records.Keys;
  }

  lemma NoFileAgrees(accepts: Acceptance, w: World, now: Time)
    requires w.stateFile.None?
    ensures Agrees(Load(accepts, w, now))
  {
  }

  ghost predicate AllSound(s: State) {
    forall id | id in s.world.tasks :: id != "" && Sound(s.accepts, s.world.tasks[id])
  }

  /** Whatever the file holds, a restart only brings in tasks with acceptable lines and intervals. */
  lemma LoadedAreSound(s: State)
    ensures AllSound(Restarted(s))
  {
    forall id | id in Restarted(s).world.tasks
      ensures id != "" && Sound(s.accepts, Restarted(s).world.tasks[id])
    {
      TrimIdempotent(s.world.stateFile.value.tasks[id].commandLine);
    }
  }

  lemma StepAllSound(s: State, e: Event)
    requires Inv(s) && Enabled(s, e) && AllSound(s)
    ensures AllSound(Apply(s, e))
  {
    if e.Restart? {
      LoadedAreSound(s);
    } else if e.Add? {
      AddAppends(s, e.every, e.commandLine, e.ok);
    } else if e.Remove? {
    } else if e.Pause? || e.Resume? || e.GlobalPause? || e.GlobalResume? {
      ControlIsSameTasks(s, e);
      SameTasksAreSound(s, Apply(s, e));
    } else {
      WorkerIsSameTasks(s, e);
      SameTasksAreSound(s, Apply(s, e));
    }
  }

  lemma SameTasksAreSound(s: State, s': State)
    requires AllSound(s) && SameTasks(s, s')
    ensures AllSound(s')
  {
    forall id | id in s'.world.tasks
      ensures Sound(s'.accepts, s'.world.tasks[id])
    {
      assert Sound(s.accepts, s.world.tasks[id]);
    }
  }

  ghost predicate NothingBreaks(s: State, events: seq<Event>)
    requires CanRun(s, events)
    decreases events
  {
    |events| == 0 || (!BreaksAgreement(s, events[0]) && NothingBreaks(Apply(s, events[0]), events[1..]))
  }

  /** Once memory and file agree, as they do on a first start without a file, they agree through every run whose
      events break nothing, restarts included. */
  lemma {:induction false} RunsAgree(s: State, events: seq<Event>)
    requires Inv(s) && AllSound(s) && Agrees(s.world) && CanRun(s, events) && NothingBreaks(s, events)
    ensures Agrees(Run(s, events).world) && AllSound(Run(s, events))
    decreases events
  {
    if |events| > 0 {
      StepKeepsInv(s, events[0]);
      StepAllSound(s, events[0]);
      if events[0] != Restart {
        StepAgreement(s, events[0]);
      } else if s.world.paths.state {
        RestartRestores(s.accepts, s.world, s.now);
      }
      RunsAgree(Apply(s, events[0]), events[1..]);
    }
  }

  /** A first start, on paths where no file is yet. */
  lemma FirstStartAgrees(before: State)
    requires before.world.stateFile.None? && before.world.history == [] && before.issued == {} && before.lost == {}
    ensures Initial(Restarted(before)) && Inv(Restarted(before)) && AllSound(Restarted(before)) &&
            Agrees(Restarted(before).world)
  {
    assert FilesOk(before.world);
    assert Initial(Restarted(before));
    InitialInv(Restarted(before));
    LoadedAreSound(before);
    NoFileAgrees(before.accepts, before.world, before.now);
  }

  /* ----- Ids ----- */

  ghost predicate InHistory(w: World, id: string) {
    exists i :: 0 <= i < |w.history| && w.history[i].id == id
  }

  /** No id that was ever issued or archived has a number above the id counters of memory and file. */
  ghost predicate CountersOk(s: State) {
    && (forall id | id in s.issued :: TaskIdNumber(id) <= s.world.nextID)
    && (forall i | 0 <= i < |s.world.history| :: TaskIdNumber(s.world.history[i].id) <= s.world.nextID)
    && (forall id | id in s.issued ::
          s.world.stateFile.Some? && TaskIdNumber(id) <= s.world.stateFile.value.nextID)
    && FilesOk(s.world)
  }

  /** Every issued id is in exactly one place: the task set, the removal history, or among the lost. A task that the
      state file holds under an issued id is one that memory holds and that a restart accepts. */
  ghost predicate Accounted(s: State) {
    && (forall id | id in s.issued ::
          && (id in s.world.tasks || id in s.lost || (s.world.paths.history ==> InHistory(s.world, id)))
          && !(id in s.world.tasks && id in s.lost)
          && !(id in s.world.tasks && InHistory(s.world, id))
          && !(id in s.lost && InHistory(s.world, id)))
    && s.lost <= s.issued
    && (forall id | id in s.issued && id in s.world.tasks :: id != "" && Sound(s.accepts, s.world.tasks[id]))
    && (s.world.stateFile.Some? ==>
          forall id | id in s.issued && id in s.world.stateFile.value.tasks ::
            id in s.world.tasks && Loadable(s.accepts, id, s.world.stateFile.value.tasks[id]))
  }

  ghost predicate Kept(s: State) {
    s.world.paths.state && Inv(s) && CountersOk(s) && Accounted(s)
  }

  /** The task set, its schedules and lines, the archive and the counters are as before, and the state file is
      either as before or a fresh copy. */
  ghost predicate SameTasks(s: State, s': State) {
    && s'.issued == s.issued && s'.lost == s.lost && s'.accepts == s.accepts
    && s'.world.history == s.world.history && s'.world.nextID == s.world.nextID && s'.world.paths == s.world.paths
    && s'.world.tasks.Keys == s.world.tasks.Keys
    && (forall id | id in s.world.tasks ::
          s'.world.tasks[id].every == s.world.tasks[id].every &&
          s'.world.tasks[id].commandLine == s.world.tasks[id].commandLine)
    && (s'.world.stateFile == s.world.stateFile || s'.world.stateFile == Some(Snapshot(s'.world)))
  }

  lemma SameTasksKept(s: State, s': State)
    requires CountersOk(s) && Accounted(s) && SameTasks(s, s')
    ensures CountersOk(s') && Accounted(s')
  {
    forall id | id in s'.issued && id in s'.world.tasks
      ensures id != "" && Sound(s'.accepts, s'.world.tasks[id])
    {
      assert Sound(s.accepts, s.world.tasks[id]);
    }
    assert InHistoryEqual(s.world, s'.world);
    CountersAbove(s, s');
  }

  /** A fresh copy of the counter is above every number the old one was above. */
  lemma CountersAbove(s: State, s': State)
    requires CountersOk(s) && s'.world.history == s.world.history && s.world.nextID <= s'.world.nextID
    requires s'.world.stateFile == s.world.stateFile ||
             (s'.world.stateFile.Some? && s'.world.stateFile.value.nextID == s'.world.nextID)
    ensures FilesOk(s'.world)
    ensures forall i | 0 <= i < |s'.world.history| :: TaskIdNumber(s'.world.history[i].id) <= s'.world.nextID
  {
    forall i | 0 <= i < |s'.world.history|
      ensures TaskIdNumber(s'.world.history[i].id) <= s'.world.nextID
      ensures NumberedBelow(s'.world.history[i], s'.world.stateFile)
    {
      assert NumberedBelow(s.world.history[i], s.world.stateFile);
    }
  }

  ghost predicate InHistoryEqual(w: World, w': World)
    ensures w.history == w'.history ==> InHistoryEqual(w, w')
  {
    forall id :: InHistory(w, id) <==> InHistory(w', id)
  }

  ghost predicate FileStep(w: World, w': World) {
    && w'.history == w.history && w'.paths == w.paths
    && (w'.stateFile == w.stateFile || w'.stateFile == Some(Snapshot(w')))
  }

  lemma ControlFiles(w: World, id: string, now: Time, ok: bool)
    ensures FileStep(w, PauseTask(w, id, ok).world)
    ensures FileStep(w, ResumeTask(w, id, now, ok).world)
    ensures FileStep(w, PauseAll(w, ok).world)
    ensures FileStep(w, ResumeAll(w, now, ok).world)
  {
  }

  lemma ControlledIsSameTasks(s: State, c: Control)
    requires WorldControlled(s.world, c) && FileStep(s.world, c.world)
    ensures SameTasks(s, Controlled(s, c))
  {
    forall id | id in s.world.tasks
      ensures c.world.tasks[id].every == s.world.tasks[id].every &&
              c.world.tasks[id].commandLine == s.world.tasks[id].commandLine
    {
    }
  }

  lemma ControlIsSameTasks(s: State, e: Event)
    requires Inv(s) && (e.Pause? || e.Resume? || e.GlobalPause? || e.GlobalResume?)
    ensures SameTasks(s, Apply(s, e))
  {
    assert Scheduled(s.world);
    match e
    case Pause(id, ok) =>
      PauseSignals(s.world, id, ok);
      ControlFiles(s.world, id, s.now, ok);
      ControlledIsSameTasks(s, PauseTask(s.world, id, ok));
    case Resume(id, ok) =>
      ResumeSignals(s.world, id, s.now, ok);
      ControlFiles(s.world, id, s.now, ok);
      ControlledIsSameTasks(s, ResumeTask(s.world, id, s.now, ok));
    case GlobalPause(ok) =>
      GlobalControlsSignal(s.world, s.now, ok);
      ControlFiles(s.world, "", s.now, ok);
      ControlledIsSameTasks(s, PauseAll(s.world, ok));
    case GlobalResume(ok) =>
      GlobalControlsSignal(s.world, s.now, ok);
      ControlFiles(s.world, "", s.now, ok);
      ControlledIsSameTasks(s, ResumeAll(s.world, s.now, ok));
  }

  lemma WorkerIsSameTasks(s: State, e: Event)
    requires Inv(s) && Enabled(s, e) && (e.TryRun? || e.Finish? || IsQuiet(e))
    ensures SameTasks(s, Apply(s, e))
  {
    if e.TryRun? {
    } else if e.Finish? {
    } else {
      QuietStep(s, e);
      QuietAccepts(s, e);
    }
  }

  lemma QuietAccepts(s: State, e: Event)
    requires Enabled(s, e) && IsQuiet(e)
    ensures Apply(s, e).accepts == s.accepts
  {
  }

  lemma AddKept(s: State, e: Event)
    requires Kept(s) && e.Add? && Enabled(s, e)
    requires e.ok ==> Apply(s, e).world.stateFile == Some(Snapshot(Apply(s, e).world))
    ensures CountersOk(Apply(s, e)) && Accounted(Apply(s, e))
  {
    var s' := Apply(s, e);
    var id := TaskId(s.world.nextID + 1);
    AddAppends(s, e.every, e.commandLine, e.ok);
    TaskIdRoundTrip(s.world.nextID + 1);
    assert id !in s.issued && !InHistory(s.world, id);
    assert InHistoryEqual(s.world, s'.world);
    CountersAbove(s, s');
    if e.ok {
      assert Sound(s'.accepts, s'.world.tasks[id]);
      assert s'.world.stateFile == Some(Snapshot(s'.world));
      forall other | other in s'.issued && other in s'.world.tasks
        ensures other != "" && Sound(s'.accepts, s'.world.tasks[other])
        ensures Loadable(s'.accepts, other, RecordOf(s'.world.tasks[other]))
      {
      }
    }
  }

  lemma RemoveKept(s: State, e: Event)
    requires Kept(s) && e.Remove? && Enabled(s, e)
    ensures CountersOk(Apply(s, e)) && Accounted(Apply(s, e))
  {
    var s' := Apply(s, e);
    var c := CancelTask(s.world, e.id, s.now, e.ok, e.okHistory, e.okRollback);
    if e.id in s.world.tasks && e.ok {
      assert TaskIdNumber(e.id) <= s.world.nextID;
      if c.outcome == Done {
        RemovalDone(s, e);
      } else {
        assert s'.world.tasks == s.world.tasks;
        assert InHistoryEqual(s.world, s'.world);
      }
    }
  }

  lemma RemovalDone(s: State, e: Event)
    requires Kept(s) && e.Remove? && e.id in s.world.tasks && e.ok
    requires TaskIdNumber(e.id) <= s.world.nextID
    requires CancelTask(s.world, e.id, s.now, e.ok, e.okHistory, e.okRollback).outcome == Done
    ensures CountersOk(Apply(s, e)) && Accounted(Apply(s, e))
  {
    var s' := Apply(s, e);
    assert s'.world.tasks == s.world.tasks - {e.id};
    assert s'.world.stateFile.value.nextID == s.world.nextID;
    assert s'.world.stateFile.value.tasks == RecordsOf(s'.world.tasks);
    if s.world.paths.history {
      var h, h' := s.world.history, s'.world.history;
      assert h' == h + [HistoryEntry(e.id, RecordOf(s.world.tasks[e.id]), s.now)];
      assert h'[|h|].id == e.id;
      assert forall i | 0 <= i < |h| :: h'[i] == h[i];
      assert forall id :: InHistory(s'.world, id) <==> InHistory(s.world, id) || id == e.id;
    } else {
      assert InHistoryEqual(s.world, s'.world);
    }
    forall id | id in s'.issued && id in s'.world.tasks
      ensures Loadable(s'.accepts, id, RecordOf(s'.world.tasks[id]))
    {
      assert Sound(s.accepts, s.world.tasks[id]);
    }
  }

  lemma AddSaves(s: State, every: int, commandLine: string)
    requires s.world.paths.state
    ensures var w := Added(s, every, commandLine, true).world; w.stateFile == Some(Snapshot(w))
  {
  }

  lemma RestartKept(s: State)
    requires Kept(s)
    ensures Kept(Restarted(s))
  {
    var s' := Restarted(s);
    RestartKeepsInv(s);
    LoadIsQuiet(s.accepts, s.world, s.now);
    assert s'.world.history == s.world.history && s'.world.stateFile == s.world.stateFile;
    assert InHistoryEqual(s.world, s'.world);
    if s.world.stateFile.Some? {
      var records := s.world.stateFile.value.tasks;
      assert s'.world.tasks == RestoredAll(s.accepts, records, s.now);
      forall id | id in s.issued && id in records
        ensures id in s'.world.tasks
      {
        assert id in LoadableIds(s.accepts, records);
      }
      forall id | id in s'.issued && id in s'.world.tasks
        ensures id in records && id in s.world.tasks && id != "" && Sound(s.accepts, s'.world.tasks[id])
      {
        TrimIdempotent(records[id].commandLine);
      }
      CountersAboveFile(s, s');
    }
  }

  lemma CountersAboveFile(s: State, s': State)
    requires CountersOk(s) && s.world.stateFile.Some? && s'.world.history == s.world.history &&
             s'.world.stateFile == s.world.stateFile
    requires s'.issued == s.issued && s.world.stateFile.value.nextID <= s'.world.nextID
    ensures CountersOk(s')
  {
    forall i | 0 <= i < |s'.world.history|
      ensures TaskIdNumber(s'.world.history[i].id) <= s'.world.nextID
    {
      assert NumberedBelow(s.world.history[i], s.world.stateFile);
    }
  }

  lemma StepKept(s: State, e: Event)
    requires Kept(s) && Enabled(s, e)
    ensures Kept(Apply(s, e))
  {
    StepKeepsInv(s, e);
    PathsStay(s, e);
    if e.Restart? {
      RestartKept(s);
    } else if e.Add? {
      if e.ok {
        AddSaves(s, e.every, e.commandLine);
      }
      AddKept(s, e);
    } else if e.Remove? {
      RemoveKept(s, e);
    } else if e.Pause? || e.Resume? || e.GlobalPause? || e.GlobalResume? {
      ControlIsSameTasks(s, e);
      SameTasksKept(s, Apply(s, e));
    } else {
      WorkerIsSameTasks(s, e);
      SameTasksKept(s, Apply(s, e));
    }
  }

  lemma PathsStay(s: State, e: Event)
    requires Enabled(s, e)
    ensures Apply(s, e).world.paths == s.world.paths
  {
  }

  lemma InitialKept(s: State)
    requires Initial(s) && s.world.paths.state
    ensures Kept(s)
  {
    var before: State :| before.issued == {} && before.lost == {} && FilesOk(before.world) && s == Restarted(before);
    RestartKeepsInv(before);
    LoadIsQuiet(before.accepts, before.world, before.now);
    assert s.world.history == before.world.history && s.world.stateFile == before.world.stateFile;
  }

  lemma {:induction false} RunKept(s: State, events: seq<Event>)
    requires Kept(s) && CanRun(s, events)
    ensures Kept(Run(s, events))
    decreases events
  {
    if |events| > 0 {
      StepKept(s, events[0]);
      RunKept(Apply(s, events[0]), events[1..]);
    }
  }

  /* ----- The results over whole runs ----- */

  /** An id that a successful addition returns has never been returned before: not since the start of the run, and
      whatever removals, failed additions and restarts lie between; nor does it belong to a task that is live or
      archived. */
  lemma IdsAreNeverReused(s0: State, events: seq<Event>, e: Event)
    requires Initial(s0) && s0.world.paths.state && CanRun(s0, events)
    requires e.Add? && e.ok && Enabled(Run(s0, events), e)
    ensures var s := Run(s0, events);
            var s' := Apply(s, e);
            exists id :: && s'.issued == s.issued + {id} && id in s'.world.tasks
                         && id !in s.issued && id !in s.world.tasks && id !in s.workers && !InHistory(s.world, id)
  {
    InitialKept(s0);
    RunKept(s0, events);
    var s := Run(s0, events);
    var id := TaskId(s.world.nextID + 1);
    AddAppends(s, e.every, e.commandLine, e.ok);
    TaskIdRoundTrip(s.world.nextID + 1);
    assert Apply(s, e).issued == s.issued + {id};
  }

  /** With both files in place, every id that was ever issued is in exactly one of the task set, the removal
      history, and the ids that a restart did not find. */
  lemma TasksAreConserved(s0: State, events: seq<Event>, id: string)
    requires Initial(s0) && s0.world.paths == Paths(true, true) && CanRun(s0, events)
    requires id in Run(s0, events).issued
    ensures var s := Run(s0, events);
            && (id in s.world.tasks || InHistory(s.world, id) || id in s.lost)
            && !(id in s.world.tasks && InHistory(s.world, id))
            && !(id in s.lost && (id in s.world.tasks || InHistory(s.world, id)))
  {
    InitialKept(s0);
    RunKept(s0, events);
    RunPaths(s0, events);
  }

  lemma {:induction false} RunPaths(s: State, events: seq<Event>)
    requires CanRun(s, events)
    ensures Run(s, events).world.paths == s.world.paths
    decreases events
  {
    if |events| > 0 {
      PathsStay(s, events[0]);
      RunPaths(Apply(s, events[0]), events[1..]);
    }
  }

  /** Every issued task that memory holds is in the state file. */
  ghost predicate FileHolds(s: State) {
    forall id | id in s.issued && id in s.world.tasks ::
      s.world.stateFile.Some? && id in s.world.stateFile.value.tasks
  }

  /** A removal whose roll-back fails. */
  predicate LosesTask(s: State, e: Event) {
    e.Remove? && RollbackFails(s.world, e.id, e.ok, e.okHistory, e.okRollback)
  }

  ghost predicate NoRollbackFails(s: State, events: seq<Event>)
    requires CanRun(s, events)
    decreases events
  {
    |events| == 0 || (!LosesTask(s, events[0]) && NoRollbackFails(Apply(s, events[0]), events[1..]))
  }

  lemma RestartLoses(s: State)
    requires Kept(s)
    ensures Restarted(s).lost == s.lost <==> FileHolds(s)
    ensures FileHolds(Restarted(s))
  {
    RestartKept(s);
    var s' := Restarted(s);
    assert s'.world.stateFile == s.world.stateFile;
    if s.world.stateFile.Some? {
      var records := s.world.stateFile.value.tasks;
      assert s'.world.tasks == RestoredAll(s.accepts, records, s.now);
      assert forall id | id in s.issued && id in records :: id in LoadableIds(s.accepts, records);
      assert forall id | id in s'.world.tasks :: id in records;
    } else {
      assert s'.world.tasks == map[];
    }
    if Restarted(s).lost == s.lost {
      forall id | id in s.issued && id in s.world.tasks
        ensures s.world.stateFile.Some? && id in s.world.stateFile.value.tasks
      {
        assert id !in s.lost;
        assert id in s'.world.tasks;
      }
    }
  }

  lemma StepHolds(s: State, e: Event)
    requires Kept(s) && Enabled(s, e) && FileHolds(s) && !LosesTask(s, e)
    ensures FileHolds(Apply(s, e)) && Apply(s, e).lost == s.lost
  {
    if e.Restart? {
      RestartLoses(s);
    } else if e.Add? {
      AddAppends(s, e.every, e.commandLine, e.ok);
      if e.ok {
        AddSaves(s, e.every, e.commandLine);
      }
    } else if e.Remove? {
      RemoveHolds(s, e);
    } else if e.Pause? || e.Resume? || e.GlobalPause? || e.GlobalResume? {
      ControlIsSameTasks(s, e);
    } else {
      WorkerIsSameTasks(s, e);
    }
  }

  lemma RemoveHolds(s: State, e: Event)
    requires Kept(s) && e.Remove? && FileHolds(s) && !LosesTask(s, e)
    ensures FileHolds(Apply(s, e)) && Apply(s, e).lost == s.lost
  {
    if e.id in s.world.tasks && e.ok {
      var s' := Apply(s, e);
      assert s'.world.stateFile.Some? && s'.world.stateFile.value.tasks == RecordsOf(s'.world.tasks);
    }
  }

  /** As long as no roll-back save fails, nothing is lost: every issued id is in exactly one of the task set and
      the removal history, across any number of restarts. */
  lemma {:induction false} NothingLostWithoutRollbackFailure(s: State, events: seq<Event>)
    requires Kept(s) && FileHolds(s) && CanRun(s, events)
    requires NoRollbackFails(s, events)
    ensures Run(s, events).lost == s.lost && FileHolds(Run(s, events))
    decreases events
  {
    if |events| > 0 {
      StepHolds(s, events[0]);
      StepKept(s, events[0]);
      NothingLostWithoutRollbackFailure(Apply(s, events[0]), events[1..]);
    }
  }

  /** The exception is real: removing a task when the archive and the roll-back save fail, and then restarting,
      loses the task, although the removal was refused. */
  lemma FailedRollbackLosesTask(s: State, id: string)
    requires Kept(s) && s.world.paths.history && id in s.issued && id in s.world.tasks
    ensures var refused := Apply(s, Remove(id, true, false, false));
            id in refused.world.tasks && id in Restarted(refused).lost && id !in Restarted(refused).world.tasks
  {
    var refused := Apply(s, Remove(id, true, false, false));
    assert refused.world.tasks == s.world.tasks;
    assert refused.world.stateFile.value.tasks == RecordsOf(s.world.tasks - {id});
    StepKept(s, Remove(id, true, false, false));
    var records := refused.world.stateFile.value.tasks;
    assert id !in records;
    assert Restarted(refused).world.tasks == RestoredAll(s.accepts, records, s.now);
  }
}
