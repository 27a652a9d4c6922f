/** The state the daemon's task manager keeps in memory and on disk, and what each of its locked regions does to
    it, as in `internal/service/daemon_task.go`. Files are values; whether a write succeeds is a parameter. */
module TaskStore {
  import opened Text

  type Time = int

  datatype Task = Task(every: int, commandLine: string, runCount: int, paused: bool, running: bool,
                       nextRunAt: Option<Time>)

  /** The part of a task that the state file keeps. */
  datatype Record = Record(every: int, commandLine: string, runCount: int, paused: bool)

  datatype StateFile = StateFile(nextID: int, tasks: map<string, Record>, globallyPaused: bool)

  datatype HistoryEntry = HistoryEntry(id: string, record: Record, removedAt: Time)

  /** Which of the two files the manager was given a path for. */
  datatype Paths = Paths(state: bool, history: bool)

  datatype World = World(
    tasks: map<string, Task>,
    nextID: nat,
    globallyPaused: bool,
    paths: Paths,
    stateFile: Option<StateFile>,
    history: seq<HistoryEntry>)

  datatype Outcome = Done | NotFound | SaveFailed | BackupFailed | RollbackFailed

  /** The result of a control operation; the workers of `signals` are woken once the lock is released. */
  datatype Control = Control(world: World, outcome: Outcome, signals: set<string>)

  function TaskId(n: nat): string {
    "task-" + Decimal(n)
  }

  function TaskIdNumber(id: string): (n: nat) {
    if "task-" <= id then
      match ParseInt(id[5..])
      case None => 0
      case Some(v) => if v < 0 then 0 else v
    else 0
  }

  lemma TaskIdRoundTrip(n: nat)
    ensures TaskIdNumber(TaskId(n)) == n
  {
    ParseIntOfDecimal(n);
    assert TaskId(n)[..5] == "task-";
    assert TaskId(n)[5..] == Decimal(n);
  }

  function Next(every: int, from: Time): Option<Time> {
    if every <= 0 then None else Some(from + every)
  }

  function RecordOf(t: Task): Record {
    Record(t.every, t.commandLine, t.runCount, t.paused)
  }

  function RecordsOf(tasks: map<string, Task>): map<string, Record> {
    map id | id in tasks :: RecordOf(tasks[id])
  }

  function Snapshot(w: World): StateFile {
    StateFile(w.nextID, RecordsOf(w.tasks), w.globallyPaused)
  }

  /** Without a path a save does nothing and succeeds; a failed write leaves the old file. */
  predicate SaveWorks(w: World, ok: bool) {
    w.paths.state ==> ok
  }

  function Saved(w: World, ok: bool): World {
    if w.paths.state && ok then w.(stateFile := Some(Snapshot(w))) else w
  }

  function AddTask(w: World, every: int, commandLine: string, ok: bool): (World, Option<string>) {
    var n := w.nextID + 1;
    var id := TaskId(n);
    var w1 := w.(nextID := n, tasks := w.tasks[id := Task(every, commandLine, 0, true, false, None)]);
    if SaveWorks(w, ok) then (Saved(w1, ok), Some(id)) else (w1.(tasks := w1.tasks - {id}), None)
  }

  function PauseTask(w: World, id: string, ok: bool): Control {
    if id !in w.tasks then Control(w, NotFound, {})
    else
      var w1 := w.(tasks := w.tasks[id := w.tasks[id].(paused := true, nextRunAt := None)]);
      if SaveWorks(w, ok) then Control(Saved(w1, ok), Done, {id}) else Control(w, SaveFailed, {})
  }

  function Resumed(t: Task, now: Time): Task {
    t.(paused := false, nextRunAt := if t.paused && !t.running then Next(t.every, now) else t.nextRunAt)
  }

  function ResumeTask(w: World, id: string, now: Time, ok: bool): Control {
    if id !in w.tasks then Control(w, NotFound, {})
    else
      var w1 := w.(tasks := w.tasks[id := Resumed(w.tasks[id], now)]);
      if SaveWorks(w, ok) then Control(Saved(w1, ok), Done, if w.tasks[id].paused then {id} else {})
      else Control(w, SaveFailed, {})
  }

  function PauseAll(w: World, ok: bool): Control {
    if w.globallyPaused then Control(w, Done, {})
    else if SaveWorks(w, ok) then Control(Saved(w.(globallyPaused := true), ok), Done, w.tasks.Keys)
    else Control(w, SaveFailed, {})
  }

  function Rescheduled(t: Task, now: Time): Task {
    if !t.paused && !t.running then t.(nextRunAt := Next(t.every, now)) else t
  }

  function RescheduledAll(tasks: map<string, Task>, now: Time): map<string, Task> {
    map id | id in tasks :: Rescheduled(tasks[id], now)
  }

  /** A failed save restores the global flag but not the next run times it has moved. */
  function ResumeAll(w: World, now: Time, ok: bool): Control {
    if !w.globallyPaused then Control(w, Done, {})
    else
      var w1 := w.(globallyPaused := false, tasks := RescheduledAll(w.tasks, now));
      if SaveWorks(w, ok) then Control(Saved(w1, ok), Done, w.tasks.Keys)
      else Control(w1.(globallyPaused := true), SaveFailed, {})
  }

  function CancelTask(w: World, id: string, now: Time, ok: bool, okHistory: bool, okRollback: bool): Control {
    if id !in w.tasks then Control(w, NotFound, {})
    else if !SaveWorks(w, ok) then Control(w, SaveFailed, {})
    else
      var w1 := Saved(w.(tasks := w.tasks - {id}), ok);
      if !w.paths.history then Control(w1, Done, {})
      else if okHistory then
        Control(w1.(history := w1.history + [HistoryEntry(id, RecordOf(w.tasks[id]), now)]), Done, {})
      else
        var w2 := w1.(tasks := w.tasks);
        if SaveWorks(w, okRollback) then Control(Saved(w2, okRollback), BackupFailed, {})
        else Control(w2, RollbackFailed, {})
  }

  function MarkRunning(w: World, id: string): (World, bool) {
    if id !in w.tasks || w.tasks[id].paused || w.globallyPaused then (w, false)
    else (w.(tasks := w.tasks[id := w.tasks[id].(running := true, nextRunAt := None)]), true)
  }

  function Finished(t: Task, now: Time): Task {
    t.(running := false, runCount := t.runCount + 1, nextRunAt := if t.paused then None else Next(t.every, now))
  }

  /** The run is counted in memory whether or not the save that follows succeeds. */
  function MarkFinished(w: World, id: string, now: Time, ok: bool): (World, Option<Time>) {
    if id !in w.tasks then (w, None)
    else
      var t := Finished(w.tasks[id], now);
      (Saved(w.(tasks := w.tasks[id := t]), ok), t.nextRunAt)
  }

  /** The run time a worker should set its timer for, if any. */
  function NextTarget(w: World, id: string): Option<Time> {
    if id !in w.tasks || w.tasks[id].paused || w.tasks[id].running || w.globallyPaused then None
    else w.tasks[id].nextRunAt
  }

  function Delay(target: Time, now: Time): nat {
    if target < now then 0 else target - now
  }

  /* ----- Loading after a restart ----- */

  /** Which command lines the pipeline parser and the check on task commands accept; a parameter here. */
  type Acceptance = string -> bool

  predicate Loadable(accepts: Acceptance, id: string, r: Record) {
    id != "" && r.every > 0 && Trim(r.commandLine) != "" && accepts(Trim(r.commandLine))
  }

  function Restored(r: Record, now: Time): Task {
    Task(r.every, Trim(r.commandLine), r.runCount, r.paused, false, if r.paused then None else Next(r.every, now))
  }

  function LoadableIds(accepts: Acceptance, records: map<string, Record>): set<string> {
    set id | id in records && Loadable(accepts, id, records[id])
  }

  function RestoredAll(accepts: Acceptance, records: map<string, Record>, now: Time): map<string, Task> {
    map id | id in LoadableIds(accepts, records) :: Restored(records[id], now)
  }

  /** The largest number among the ids, at least `least` and at least zero. */
  ghost predicate IsMaxNumber(ids: set<string>, least: int, max: nat) {
    && least <= max
    && (forall id | id in ids :: TaskIdNumber(id) <= max)
    && (max == 0 || max == least || exists id :: id in ids && TaskIdNumber(id) == max)
  }

  lemma MaxNumberExists(ids: set<string>, least: int) returns (max: nat)
    ensures IsMaxNumber(ids, least, max)
  {
    if ids == {} {
      max := if least > 0 then least else 0;
    } else {
      var id :| id in ids;
      max := MaxNumberExists(ids - {id}, least);
      if TaskIdNumber(id) > max {
        max := TaskIdNumber(id);
      }
      assert ids == ids - {id} + {id};
    }
  }

  lemma MaxNumberUnique(ids: set<string>, least: int, a: nat, b: nat)
    requires IsMaxNumber(ids, least, a) && IsMaxNumber(ids, least, b)
    ensures a == b
  {
  }

  ghost function MaxNumber(ids: set<string>, least: int): (max: nat)
    ensures IsMaxNumber(ids, least, max)
  {
    assert exists m: nat :: IsMaxNumber(ids, least, m) by {
      var m := MaxNumberExists(ids, least);
    }
    var m: nat :| IsMaxNumber(ids, least, m);
    m
  }

  /** A new manager on the same files: nothing is loaded without a path or before the first save. */
  ghost function Load(accepts: Acceptance, w: World, now: Time): World {
    var empty := w.(tasks := map[], nextID := 0, globallyPaused := false);
    if !w.paths.state || w.stateFile.None? then empty
    else
      var file := w.stateFile.value;
      var tasks := RestoredAll(accepts, file.tasks, now);
      empty.(tasks := tasks, nextID := MaxNumber(tasks.Keys, file.nextID), globallyPaused := file.globallyPaused)
  }

  ghost predicate Scheduled(w: World) {
    forall id | id in w.tasks ::
      w.tasks[id].every > 0 && (w.tasks[id].nextRunAt.Some? <==> !w.tasks[id].paused && !w.tasks[id].running)
  }

  /** After a restart no task runs, every task that is not paused has a next run time, and the id counter is not
      below any id in use or any stored counter. */
  lemma LoadIsQuiet(accepts: Acceptance, w: World, now: Time)
    ensures Scheduled(Load(accepts, w, now))
    ensures forall id | id in Load(accepts, w, now).tasks :: !Load(accepts, w, now).tasks[id].running
    ensures forall id | id in Load(accepts, w, now).tasks :: TaskIdNumber(id) <= Load(accepts, w, now).nextID
    ensures w.paths.state && w.stateFile.Some? ==> w.stateFile.value.nextID <= Load(accepts, w, now).nextID
  {
    if w.paths.state && w.stateFile.Some? {
      var file := w.stateFile.value;
      var tasks := RestoredAll(accepts, file.tasks, now);
      assert IsMaxNumber(tasks.Keys, file.nextID, MaxNumber(tasks.Keys, file.nextID));
      assert Load(accepts, w, now).tasks == tasks;
    }
  }
}
