/** The scheduler as a concurrent protocol: the locked regions of `TaskStore`, one worker per task with its timer
    and its one-slot wake channel, and the gap between a control operation releasing the lock and sending its
    wake signals. Every event is one atomic step; a run is any sequence of enabled events. */
module TaskProtocol {
  import opened Text
  import opened TaskStore

  /** A timer set for a run time; it rings at the deadline. */
  datatype Timer = Timer(target: Time, deadline: Time)

  /** Where a worker stands in its event loop. */
  datatype Pc =
    | Starting                                              // spawned, timer not yet set up
    | Waiting                                               // in the select
    | Woken                                                 // took a wake, about to compute its delay
    | Fired(tick: Time)                                     // took a tick, about to ask whether it may run
    | Refused                                               // may not run, about to compute its delay
    | InRunner                                              // running the commands
    | Computed(target: Option<Time>, delay: nat)            // released the lock, timer not yet reset
    | Exited

  datatype Worker = Worker(pc: Pc, timer: Option<Timer>, wake: bool)

  /** `signals` counts the wakes that control operations still have to send, `doomed` holds the ids of the workers
      whose cancellation has been decided, `issued` the ids that successful additions returned, and `lost` those
      of them that a restart did not find in the state file. `accepts` never changes; the results hold whatever
      lines are acceptable. */
  datatype State = State(
    world: World,
    workers: map<string, Worker>,
    signals: multiset<string>,
    doomed: set<string>,
    now: Time,
    issued: set<string>,
    lost: set<string>,
    accepts: Acceptance)

  datatype Event =
    | Tick(d: nat)
    | Add(every: int, commandLine: string, ok: bool)
    | Pause(id: string, ok: bool)
    | Resume(id: string, ok: bool)
    | GlobalPause(ok: bool)
    | GlobalResume(ok: bool)
    | Remove(id: string, ok: bool, okHistory: bool, okRollback: bool)
    | Close
    | Signal(id: string)
    | TakeWake(id: string)
    | Compute(id: string)
    | Arm(id: string)
    | Fire(id: string)
    | TryRun(id: string)
    | Finish(id: string, ok: bool)
    | Exit(id: string)
    | Restart

  predicate AtPc(s: State, id: string, pc: Pc) {
    id in s.workers && s.workers[id].pc == pc
  }

  /** What the callers and the runtime allow: only validated lines with a positive interval are added, and a worker
      takes the step its program counter names. */
  predicate Enabled(s: State, e: Event) {
    match e
    case Add(every, commandLine, _) =>
      every > 0 && commandLine != "" && Trim(commandLine) == commandLine && s.accepts(commandLine)
    case Signal(id) => id in s.signals && id in s.workers
    case TakeWake(id) => AtPc(s, id, Waiting) && s.workers[id].wake
    case Compute(id) => AtPc(s, id, Starting) || AtPc(s, id, Woken) || AtPc(s, id, Refused)
    case Arm(id) => id in s.workers && s.workers[id].pc.Computed?
    case Fire(id) => AtPc(s, id, Waiting) && s.workers[id].timer.Some? && s.workers[id].timer.value.deadline <= s.now
    case TryRun(id) => id in s.workers && s.workers[id].pc.Fired?
    case Finish(id, _) => AtPc(s, id, InRunner)
    case Exit(id) => AtPc(s, id, Waiting) && id in s.doomed
    case _ => true
  }

  function Controlled(s: State, c: Control): State {
    s.(world := c.world, signals := s.signals + multiset(c.signals))
  }

  function SetWorker(s: State, id: string, w: Worker): State {
    s.(workers := s.workers[id := w])
  }

  function ComputedFor(target: Option<Time>, now: Time): Pc {
    Computed(target, if target.Some? then Delay(target.value, now) else 0)
  }

  function Added(s: State, every: int, commandLine: string, ok: bool): State {
    var (world, id) := AddTask(s.world, every, commandLine, ok);
    if id.None? then s.(world := world)
    else s.(world := world,
            workers := s.workers[id.value := Worker(Starting, None, false)],
            issued := s.issued + {id.value})
  }

  ghost function Apply(s: State, e: Event): State
    requires Enabled(s, e)
  {
    match e
    case Tick(d) => s.(now := s.now + d)
    case Add(every, commandLine, ok) => Added(s, every, commandLine, ok)
    case Pause(id, ok) => Controlled(s, PauseTask(s.world, id, ok))
    case Resume(id, ok) => Controlled(s, ResumeTask(s.world, id, s.now, ok))
    case GlobalPause(ok) => Controlled(s, PauseAll(s.world, ok))
    case GlobalResume(ok) => Controlled(s, ResumeAll(s.world, s.now, ok))
    case Remove(id, ok, okHistory, okRollback) =>
      var c := CancelTask(s.world, id, s.now, ok, okHistory, okRollback);
      s.(world := c.world, doomed := if c.outcome == Done then s.doomed + {id} else s.doomed)
    case Close => s.(doomed := s.doomed + s.world.tasks.Keys)
    case Signal(id) =>
      SetWorker(s.(signals := s.signals - multiset{id}), id, s.workers[id].(wake := true))
    case TakeWake(id) => SetWorker(s, id, s.workers[id].(pc := Woken, wake := false))
    case Compute(id) => SetWorker(s, id, s.workers[id].(pc := ComputedFor(NextTarget(s.world, id), s.now)))
    case Arm(id) =>
      var w := s.workers[id];
      var timer := if w.pc.target.None? then None else Some(Timer(w.pc.target.value, s.now + w.pc.delay));
      SetWorker(s, id, w.(pc := Waiting, timer := timer))
    case Fire(id) =>
      var w := s.workers[id];
      SetWorker(s, id, w.(pc := Fired(w.timer.value.target), timer := None))
    case TryRun(id) =>
      var (world, started) := MarkRunning(s.world, id);
      SetWorker(s.(world := world), id, s.workers[id].(pc := if started then InRunner else Refused))
    case Finish(id, ok) =>
      var (world, target) := MarkFinished(s.world, id, s.now, ok);
      SetWorker(s.(world := world), id, s.workers[id].(pc := ComputedFor(target, s.now)))
    case Exit(id) => SetWorker(s, id, s.workers[id].(pc := Exited))
    case Restart => Restarted(s)
  }

  /** The process ends and a new one loads the state file. */
  ghost function Restarted(s: State): State {
    RestartedWith(s, Load(s.accepts, s.world, s.now))
  }

  function RestartedWith(s: State, world: World): State {
    s.(world := world,
       workers := map id | id in world.tasks :: Worker(Starting, None, false),
       signals := multiset{},
       doomed := {},
       lost := s.lost + ((s.issued * s.world.tasks.Keys) - world.tasks.Keys))
  }

  /* ----- Runs ----- */

  ghost predicate CanRun(s: State, events: seq<Event>)
    decreases events
  {
    |events| == 0 || (Enabled(s, events[0]) && CanRun(Apply(s, events[0]), events[1..]))
  }

  ghost function Run(s: State, events: seq<Event>): State
    requires CanRun(s, events)
    decreases events
  {
    if |events| == 0 then s else Run(Apply(s, events[0]), events[1..])
  }

  predicate NumberedBelow(entry: HistoryEntry, file: Option<StateFile>) {
    file.Some? && TaskIdNumber(entry.id) <= file.value.nextID
  }

  /** Files a consistent earlier process left: no removed task has a number above the stored next id. */
  ghost predicate FilesOk(w: World) {
    && (w.history != [] ==> w.stateFile.Some?)
    && (forall i | 0 <= i < |w.history| :: NumberedBelow(w.history[i], w.stateFile))
  }

  /** A process that has just loaded such files. */
  ghost predicate Initial(s: State) {
    exists before: State :: before.issued == {} && before.lost == {} && FilesOk(before.world) && s == Restarted(before)
  }

  /* ----- The invariant ----- */

  predicate Runnable(t: Task, globallyPaused: bool) {
    !t.paused && !t.running && !globallyPaused && t.nextRunAt.Some?
  }

  /** The worker will see the task's next run time without any further control operation: a wake is in its channel
      or about to be sent, or it is about to compute its delay, or it has computed it for that time, or its timer
      is set for that time or has just rung for it. */
  predicate Cared(t: Task, w: Worker, owed: nat) {
    || w.wake
    || owed > 0
    || w.pc.Starting? || w.pc.Woken? || w.pc.Refused?
    || (w.pc.Computed? && w.pc.target == t.nextRunAt)
    || (w.pc.Fired? && Some(w.pc.tick) == t.nextRunAt)
    || (w.pc.Waiting? && w.timer.Some? && Some(w.timer.value.target) == t.nextRunAt)
  }

  predicate TaskOk(t: Task, w: Worker, owed: nat, globallyPaused: bool, doomed: bool) {
    && t.every > 0
    && (t.nextRunAt.Some? <==> !t.paused && !t.running)
    && (t.running <==> w.pc.InRunner?)
    && (w.pc.Exited? ==> doomed)
    && (Runnable(t, globallyPaused) && !doomed ==> Cared(t, w, owed))
  }

  /** No timer rings before the run time it was set for. */
  predicate WorkerOk(w: Worker, now: Time) {
    && (w.timer.Some? ==> w.timer.value.target <= w.timer.value.deadline)
    && (w.pc.Fired? ==> w.pc.tick <= now)
    && (w.pc.Computed? && w.pc.target.Some? ==> w.pc.target.value <= now + w.pc.delay)
  }

  ghost predicate TasksOk(s: State) {
    forall id | id in s.world.tasks ::
      id in s.workers && TaskOk(s.world.tasks[id], s.workers[id], s.signals[id], s.world.globallyPaused, id in s.doomed)
  }

  ghost predicate WorkersOk(s: State) {
    forall id | id in s.workers :: WorkerOk(s.workers[id], s.now)
  }

  /** No id in use has a number above the last one given out. */
  ghost predicate NumbersOk(s: State) {
    && (forall id | id in s.workers :: TaskIdNumber(id) <= s.world.nextID)
    && (forall id | id in s.signals :: id in s.workers)
    && (forall id | id in s.doomed :: id in s.workers)
  }

  ghost predicate Inv(s: State) {
    TasksOk(s) && WorkersOk(s) && NumbersOk(s)
  }

  /** The number of a new id is above every number in use, so no worker answers to it yet. */
  lemma NewIdIsFree(s: State)
    requires NumbersOk(s)
    ensures TaskId(s.world.nextID + 1) !in s.workers
  {
    TaskIdRoundTrip(s.world.nextID + 1);
  }

  lemma AddKeepsInv(s: State, every: int, commandLine: string, ok: bool)
    requires Inv(s) && every > 0
    ensures Inv(Added(s, every, commandLine, ok))
  {
    NewIdIsFree(s);
    TaskIdRoundTrip(s.world.nextID + 1);
    var id := TaskId(s.world.nextID + 1);
    var s' := Added(s, every, commandLine, ok);
    assert id !in s.world.tasks && id !in s.signals && id !in s.doomed;
    var t := Task(every, commandLine, 0, true, false, None);
    if SaveWorks(s.world, ok) {
      assert s'.world.tasks == s.world.tasks[id := t];
      assert s'.workers == s.workers[id := Worker(Starting, None, false)];
      assert TaskOk(t, s'.workers[id], 0, s.world.globallyPaused, false);
      NewWorkerKeepsInv(s, s', id);
    } else {
      assert s'.world.tasks == s.world.tasks;
    }
  }

  lemma NewWorkerKeepsInv(s: State, s': State, id: string)
    requires Inv(s) && id !in s.workers && id in s'.world.tasks
    requires s'.world.tasks == s.world.tasks[id := s'.world.tasks[id]]
    requires s'.workers == s.workers[id := Worker(Starting, None, false)]
    requires s'.world.globallyPaused == s.world.globallyPaused && s.world.nextID <= s'.world.nextID
    requires s'.signals == s.signals && s'.doomed == s.doomed && s'.now == s.now
    requires TaskIdNumber(id) <= s'.world.nextID
    requires TaskOk(s'.world.tasks[id], s'.workers[id], s'.signals[id], s'.world.globallyPaused, id in s'.doomed)
    ensures Inv(s')
  {
    forall other | other in s'.world.tasks
      ensures other in s'.workers
      ensures TaskOk(s'.world.tasks[other], s'.workers[other], s'.signals[other], s'.world.globallyPaused,
                     other in s'.doomed)
    {
      assert other != id ==> other in s.world.tasks;
    }
  }

  /** What a control operation may do to a task: a task it leaves or makes runnable is signalled, unless it was
      runnable before for the same time. */
  predicate TaskControlled(t: Task, globallyPaused: bool, t': Task, globallyPaused': bool, signalled: bool) {
    && t'.every == t.every && t'.commandLine == t.commandLine && t'.runCount == t.runCount && t'.running == t.running
    && (t'.nextRunAt.Some? <==> !t'.paused && !t'.running)
    && (Runnable(t', globallyPaused') ==> signalled || (Runnable(t, globallyPaused) && t'.nextRunAt == t.nextRunAt))
  }

  ghost predicate WorldControlled(w: World, c: Control) {
    && c.world.tasks.Keys == w.tasks.Keys && c.signals <= w.tasks.Keys && c.world.nextID == w.nextID
    && forall id | id in w.tasks ::
         TaskControlled(w.tasks[id], w.globallyPaused, c.world.tasks[id], c.world.globallyPaused, id in c.signals)
  }

  /** Pausing and resuming a task, and the global forms, signal every worker whose next run time they bring back
      or move, whether or not the save fails. */
  lemma PauseSignals(w: World, id: string, ok: bool)
    requires Scheduled(w)
    ensures WorldControlled(w, PauseTask(w, id, ok))
  {
  }

  lemma ResumeSignals(w: World, id: string, now: Time, ok: bool)
    requires Scheduled(w)
    ensures WorldControlled(w, ResumeTask(w, id, now, ok))
  {
  }

  lemma GlobalControlsSignal(w: World, now: Time, ok: bool)
    requires Scheduled(w)
    ensures WorldControlled(w, PauseAll(w, ok))
    ensures WorldControlled(w, ResumeAll(w, now, ok))
  {
  }

  lemma ControlledKeepsInv(s: State, c: Control)
    requires Inv(s) && WorldControlled(s.world, c)
    ensures Inv(Controlled(s, c))
  {
    var s' := Controlled(s, c);
    forall id | id in s'.world.tasks
      ensures id in s'.workers
      ensures TaskOk(s'.world.tasks[id], s'.workers[id], s'.signals[id], s'.world.globallyPaused, id in s'.doomed)
    {
      assert TaskControlled(s.world.tasks[id], s.world.globallyPaused, s'.world.tasks[id], s'.world.globallyPaused,
                            id in c.signals);
    }
  }

  lemma ControlKeepsInv(s: State, e: Event)
    requires Inv(s)
    requires e.Pause? || e.Resume? || e.GlobalPause? || e.GlobalResume?
    ensures Inv(Apply(s, e))
  {
    assert Scheduled(s.world);
    match e
    case Pause(id, ok) =>
      PauseSignals(s.world, id, ok);
      ControlledKeepsInv(s, PauseTask(s.world, id, ok));
    case Resume(id, ok) =>
      ResumeSignals(s.world, id, s.now, ok);
      ControlledKeepsInv(s, ResumeTask(s.world, id, s.now, ok));
    case GlobalPause(ok) =>
      GlobalControlsSignal(s.world, s.now, ok);
      ControlledKeepsInv(s, PauseAll(s.world, ok));
    case GlobalResume(ok) =>
      GlobalControlsSignal(s.world, s.now, ok);
      ControlledKeepsInv(s, ResumeAll(s.world, s.now, ok));
  }

  lemma RemoveKeepsInv(s: State, e: Event)
    requires Inv(s) && e.Remove?
    ensures Inv(Apply(s, e))
  {
    var s' := Apply(s, e);
    forall id | id in s'.world.tasks
      ensures id in s.world.tasks && s'.world.tasks[id] == s.world.tasks[id]
      ensures id in s'.doomed ==> id in s.doomed
    {
    }
  }

  lemma CloseKeepsInv(s: State)
    requires Inv(s)
    ensures Inv(Apply(s, Close))
  {
  }

  /** Only the worker `id`, its task and the signals owed to it have changed. */
  ghost predicate OnlyAbout(s: State, s': State, id: string) {
    && s'.world == s.world.(tasks := s'.world.tasks, stateFile := s'.world.stateFile)
    && s'.world.tasks.Keys == s.world.tasks.Keys && s'.workers.Keys == s.workers.Keys
    && s'.doomed == s.doomed && s'.now == s.now
    && (forall other | other in s.world.tasks && other != id :: s'.world.tasks[other] == s.world.tasks[other])
    && (forall other | other in s.workers && other != id :: s'.workers[other] == s.workers[other])
    && (forall other | other != id :: s'.signals[other] == s.signals[other])
    && id in s.workers
  }

  lemma LocalStepKeepsInv(s: State, s': State, id: string)
    requires Inv(s) && OnlyAbout(s, s', id)
    requires WorkerOk(s'.workers[id], s'.now)
    requires id in s'.world.tasks ==>
               TaskOk(s'.world.tasks[id], s'.workers[id], s'.signals[id], s'.world.globallyPaused, id in s'.doomed)
    ensures Inv(s')
  {
    forall other | other in s'.world.tasks
      ensures other in s'.workers
      ensures TaskOk(s'.world.tasks[other], s'.workers[other], s'.signals[other], s'.world.globallyPaused,
                     other in s'.doomed)
    {
    }
    forall other | other in s'.signals
      ensures other in s'.workers
    {
      assert other != id ==> other in s.signals;
    }
  }

  lemma WakeKeepsInv(s: State, e: Event)
    requires Inv(s) && Enabled(s, e) && (e.Signal? || e.TakeWake?)
    ensures Inv(Apply(s, e))
  {
    LocalStepKeepsInv(s, Apply(s, e), e.id);
  }

  lemma LeaveSelectKeepsInv(s: State, e: Event)
    requires Inv(s) && Enabled(s, e) && (e.Fire? || e.Exit?)
    ensures Inv(Apply(s, e))
  {
    LocalStepKeepsInv(s, Apply(s, e), e.id);
  }

  lemma ResetKeepsInv(s: State, e: Event)
    requires Inv(s) && Enabled(s, e) && (e.Compute? || e.Arm?)
    ensures Inv(Apply(s, e))
  {
    LocalStepKeepsInv(s, Apply(s, e), e.id);
  }

  lemma TryRunKeepsInv(s: State, id: string)
    requires Inv(s) && Enabled(s, TryRun(id))
    ensures Inv(Apply(s, TryRun(id)))
  {
    LocalStepKeepsInv(s, Apply(s, TryRun(id)), id);
  }

  lemma FinishKeepsInv(s: State, id: string, ok: bool)
    requires Inv(s) && Enabled(s, Finish(id, ok))
    ensures Inv(Apply(s, Finish(id, ok)))
  {
    if id in s.world.tasks {
      var t := Finished(s.world.tasks[id], s.now);
      assert TaskOk(s.world.tasks[id], s.workers[id], s.signals[id], s.world.globallyPaused, id in s.doomed);
      assert Apply(s, Finish(id, ok)).world.tasks == s.world.tasks[id := t];
    }
    LocalStepKeepsInv(s, Apply(s, Finish(id, ok)), id);
  }

  lemma RestartedWithKeepsInv(s: State, world: World)
    requires Scheduled(world)
    requires forall id | id in world.tasks :: !world.tasks[id].running && TaskIdNumber(id) <= world.nextID
    ensures Inv(RestartedWith(s, world))
  {
    var s' := RestartedWith(s, world);
    assert forall id | id in s'.workers :: s'.workers[id] == Worker(Starting, None, false) && id in s'.world.tasks;
  }

  lemma RestartKeepsInv(s: State)
    ensures Inv(Restarted(s))
  {
    LoadIsQuiet(s.accepts, s.world, s.now);
    RestartedWithKeepsInv(s, Load(s.accepts, s.world, s.now));
  }

  lemma InitialInv(s: State)
    requires Initial(s)
    ensures Inv(s)
  {
    var before: State :| before.issued == {} && before.lost == {} && FilesOk(before.world) && s == Restarted(before);
    RestartKeepsInv(before);
  }

  lemma StepKeepsInv(s: State, e: Event)
    requires Inv(s) && Enabled(s, e)
    ensures Inv(Apply(s, e))
  {
    match e
    case Tick(_) =>
    case Add(every, commandLine, ok) => AddKeepsInv(s, every, commandLine, ok);
    case Pause(_, _) => ControlKeepsInv(s, e);
    case Resume(_, _) => ControlKeepsInv(s, e);
    case GlobalPause(_) => ControlKeepsInv(s, e);
    case GlobalResume(_) => ControlKeepsInv(s, e);
    case Remove(_, _, _, _) => RemoveKeepsInv(s, e);
    case Close => CloseKeepsInv(s);
    case Signal(_) => WakeKeepsInv(s, e);
    case TakeWake(_) => WakeKeepsInv(s, e);
    case Compute(_) => ResetKeepsInv(s, e);
    case Arm(_) => ResetKeepsInv(s, e);
    case Fire(_) => LeaveSelectKeepsInv(s, e);
    case TryRun(id) => TryRunKeepsInv(s, id);
    case Finish(id, ok) => FinishKeepsInv(s, id, ok);
    case Exit(_) => LeaveSelectKeepsInv(s, e);
    case Restart => RestartKeepsInv(s);
  }

  /** The invariant holds in every state of every run. */
  lemma {:induction false} RunKeepsInv(s: State, events: seq<Event>)
    requires Inv(s) && CanRun(s, events)
    ensures Inv(Run(s, events))
    decreases events
  {
    if |events| > 0 {
      StepKeepsInv(s, events[0]);
      RunKeepsInv(Apply(s, events[0]), events[1..]);
    }
  }
}
