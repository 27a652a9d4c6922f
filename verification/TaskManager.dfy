/** The daemon's task manager as the program writes it: fields updated in place under the lock, a save, and the
    roll-back that follows a failed save. Every method is proved to have the effect `TaskStore` gives it.
    Parameters named `ok` say whether the file write of that step succeeds. */
module TaskManager {
  import opened Text
  import S = TaskStore
  import Pipeline
  import TaskCommand

  class DaemonTaskManager {
    var tasks: map<string, S.Task>
    var nextID: nat
    var globallyPaused: bool
    const paths: S.Paths
    // The files, as the last successful write left them.
    var stateFile: Option<S.StateFile>
    var history: seq<S.HistoryEntry>

    ghost function View(): S.World
      reads this
    {
      S.World(tasks, nextID, globallyPaused, paths, stateFile, history)
    }

    constructor (paths: S.Paths, stateFile: Option<S.StateFile>, history: seq<S.HistoryEntry>)
      ensures View() == S.World(map[], 0, false, paths, stateFile, history)
    {
      this.tasks, this.nextID, this.globallyPaused := map[], 0, false;
      this.paths, this.stateFile, this.history := paths, stateFile, history;
    }

    /** Fills the manager from the state file. Without a file it stays as it is; with one, a manager that already holds
        a task refuses and stays as it is, and any other takes over tasks, counter and global flag. */
    method Load(now: S.Time) returns (loaded: bool)
      modifies this
      ensures !loaded <==> paths.state && old(stateFile).Some? && old(tasks) != map[]
      ensures View() == if !loaded || !paths.state || old(stateFile).None? then old(View())
                        else S.Load(TaskCommand.TaskLine, old(View()), now)
    {
      if !paths.state || stateFile.None? {
        return true;
      }
      var file := stateFile.value;
      var restored := RestoreTasks(file.tasks, now);
      var maxID := LargestNumber(restored.Keys, file.nextID);
      if tasks != map[] {
        return false;
      }
      S.MaxNumberUnique(restored.Keys, file.nextID, maxID, S.MaxNumber(restored.Keys, file.nextID));
      tasks, nextID, globallyPaused := restored, maxID, file.globallyPaused;
      return true;
    }

    static method RestoreTasks(records: map<string, S.Record>, now: S.Time) returns (restored: map<string, S.Task>)
      ensures restored == S.RestoredAll(TaskCommand.TaskLine, records, now)
    {
      restored := map[];
      var left := records.Keys;
      ghost var good := S.LoadableIds(TaskCommand.TaskLine, records);
      while left != {}
        invariant left <= records.Keys
        invariant restored.Keys == good - left
        invariant forall id | id in restored :: restored[id] == S.Restored(records[id], now)
      {
        var id :| id in left;
        left := left - {id};
        var ok := IsLoadable(id, records[id]);
        assert ok <==> id in good;
        if ok {
          restored := restored[id := S.Restored(records[id], now)];
        }
      }
    }

    static method LargestNumber(ids: set<string>, least: int) returns (max: nat)
      ensures S.IsMaxNumber(ids, least, max)
    {
      max := 0;
      if least > 0 {
        max := least;
      }
      var left := ids;
      while left != {}
        invariant left <= ids
        invariant S.IsMaxNumber(ids - left, least, max)
      {
        var id :| id in left;
        assert ids - (left - {id}) == (ids - left) + {id};
        if S.TaskIdNumber(id) > max {
          max := S.TaskIdNumber(id);
        }
        left := left - {id};
      }
      assert ids - left == ids;
    }

    static method IsLoadable(id: string, record: S.Record) returns (ok: bool)
      ensures ok == S.Loadable(TaskCommand.TaskLine, id, record)
    {
      var line := Trim(record.commandLine);
      TrimIdempotent(record.commandLine);
      if id == "" || line == "" || record.every <= 0 {
        return false;
      }
      var parsed := Pipeline.ParsePipelineCommandLine(line);
      match parsed
      case Err(_) => return false;
      case Ok(commands) => ok := TaskCommand.ValidateTaskCommands(commands);
    }

    method SaveState(ok: bool) returns (saved: bool)
      modifies this`stateFile
      ensures saved == S.SaveWorks(old(View()), ok)
      ensures View() == S.Saved(old(View()), ok)
    {
      if !paths.state {
        return true;
      }
      var records: map<string, S.Record> := map[];
      var left := tasks.Keys;
      while left != {}
        invariant left <= tasks.Keys
        invariant records == map id | id in tasks && id !in left :: S.RecordOf(tasks[id])
      {
        var id :| id in left;
        records := records[id := S.RecordOf(tasks[id])];
        left := left - {id};
      }
      assert records == S.RecordsOf(tasks);
      if ok {
        stateFile := Some(S.StateFile(nextID, records, globallyPaused));
      }
      return ok;
    }

    method AddTask(every: int, commandLine: string, ok: bool) returns (r: Option<string>)
      modifies this
      ensures (View(), r) == S.AddTask(old(View()), every, commandLine, ok)
    {
      nextID := nextID + 1;
      var id := S.TaskId(nextID);
      tasks := tasks[id := S.Task(every, commandLine, 0, true, false, None)];
      var saved := SaveState(ok);
      if !saved {
        tasks := tasks - {id};
        return None;
      }
      return Some(id);
    }

    method PauseTask(id: string, ok: bool) returns (outcome: S.Outcome, signals: set<string>)
      modifies this`tasks, this`stateFile
      ensures S.Control(View(), outcome, signals) == S.PauseTask(old(View()), id, ok)
    {
      if id !in tasks {
        return S.NotFound, {};
      }
      var prevPaused, prevNextRunAt := tasks[id].paused, tasks[id].nextRunAt;
      tasks := tasks[id := tasks[id].(paused := true, nextRunAt := None)];
      var saved := SaveState(ok);
      if !saved {
        tasks := tasks[id := tasks[id].(paused := prevPaused, nextRunAt := prevNextRunAt)];
        assert tasks == old(tasks);
        return S.SaveFailed, {};
      }
      return S.Done, {id};
    }

    method ResumeTask(id: string, now: S.Time, ok: bool) returns (outcome: S.Outcome, signals: set<string>)
      modifies this`tasks, this`stateFile
      ensures S.Control(View(), outcome, signals) == S.ResumeTask(old(View()), id, now, ok)
    {
      if id !in tasks {
        return S.NotFound, {};
      }
      var wasPaused, prevNextRunAt := tasks[id].paused, tasks[id].nextRunAt;
      var task := tasks[id].(paused := false);
      if wasPaused && !task.running {
        task := task.(nextRunAt := S.Next(task.every, now));
      }
      tasks := tasks[id := task];
      var saved := SaveState(ok);
      if !saved {
        tasks := tasks[id := tasks[id].(paused := wasPaused, nextRunAt := prevNextRunAt)];
        assert tasks == old(tasks);
        return S.SaveFailed, {};
      }
      return S.Done, if wasPaused then {id} else {};
    }

    method PauseAll(ok: bool) returns (outcome: S.Outcome, signals: set<string>)
      modifies this`globallyPaused, this`stateFile
      ensures S.Control(View(), outcome, signals) == S.PauseAll(old(View()), ok)
    {
      if globallyPaused {
        return S.Done, {};
      }
      globallyPaused := true;
      var saved := SaveState(ok);
      if !saved {
        globallyPaused := false;
        return S.SaveFailed, {};
      }
      return S.Done, tasks.Keys;
    }

    method ResumeAll(now: S.Time, ok: bool) returns (outcome: S.Outcome, signals: set<string>)
      modifies this`tasks, this`globallyPaused, this`stateFile
      ensures S.Control(View(), outcome, signals) == S.ResumeAll(old(View()), now, ok)
    {
      if !globallyPaused {
        return S.Done, {};
      }
      globallyPaused := false;
      var left := tasks.Keys;
      while left != {}
        invariant left <= tasks.Keys && tasks.Keys == old(tasks).Keys
        invariant forall id | id in tasks ::
                    tasks[id] == if id in left then old(tasks)[id] else S.Rescheduled(old(tasks)[id], now)
        invariant !globallyPaused && stateFile == old(stateFile)
      {
        var id :| id in left;
        if !tasks[id].paused && !tasks[id].running {
          tasks := tasks[id := tasks[id].(nextRunAt := S.Next(tasks[id].every, now))];
        }
        left := left - {id};
      }
      assert tasks == S.RescheduledAll(old(tasks), now);
      var saved := SaveState(ok);
      if !saved {
        globallyPaused := true;
        return S.SaveFailed, {};
      }
      return S.Done, tasks.Keys;
    }

    method AppendHistory(id: string, task: S.Task, removedAt: S.Time, ok: bool) returns (appended: bool)
      modifies this`history
      ensures appended == (paths.history ==> ok)
      ensures history == if paths.history && ok
                         then old(history) + [S.HistoryEntry(id, S.RecordOf(task), removedAt)]
                         else old(history)
    {
      if !paths.history {
        return true;
      }
      if ok {
        history := history + [S.HistoryEntry(id, S.RecordOf(task), removedAt)];
      }
      return ok;
    }

    method CancelTask(id: string, now: S.Time, ok: bool, okHistory: bool, okRollback: bool) returns (outcome: S.Outcome)
      modifies this`tasks, this`stateFile, this`history
      ensures S.Control(View(), outcome, {}) == S.CancelTask(old(View()), id, now, ok, okHistory, okRollback)
    {
      if id !in tasks {
        return S.NotFound;
      }
      var task := tasks[id];
      tasks := tasks - {id};
      var saved := SaveState(ok);
      if !saved {
        tasks := tasks[id := task];
        assert tasks == old(tasks);
        return S.SaveFailed;
      }
      var appended := AppendHistory(id, task, now, okHistory);
      if !appended {
        tasks := tasks[id := task];
        assert tasks == old(tasks);
        var restored := SaveState(okRollback);
        return if restored then S.BackupFailed else S.RollbackFailed;
      }
      return S.Done;
    }

    method MarkTaskRunning(id: string) returns (started: bool)
      modifies this`tasks
      ensures (View(), started) == S.MarkRunning(old(View()), id)
    {
      if id !in tasks || tasks[id].paused || globallyPaused {
        return false;
      }
      tasks := tasks[id := tasks[id].(running := true, nextRunAt := None)];
      return true;
    }

    method MarkTaskFinished(id: string, now: S.Time, ok: bool) returns (target: Option<S.Time>)
      modifies this`tasks, this`stateFile
      ensures (View(), target) == S.MarkFinished(old(View()), id, now, ok)
    {
      if id !in tasks {
        return None;
      }
      var task := tasks[id].(running := false, runCount := tasks[id].runCount + 1);
      if task.paused {
        tasks := tasks[id := task.(nextRunAt := None)];
        var _ := SaveState(ok);
        return None;
      }
      var nextRun := S.Next(task.every, now);
      tasks := tasks[id := task.(nextRunAt := nextRun)];
      var _ := SaveState(ok);
      return nextRun;
    }

    method NextTaskTarget(id: string) returns (target: Option<S.Time>)
      ensures target == S.NextTarget(View(), id)
    {
      if id !in tasks || tasks[id].paused || tasks[id].running || globallyPaused {
        return None;
      }
      return tasks[id].nextRunAt;
    }
  }
}
