/** The table of running monitors and their stored configurations: the critical sections of starting,
    stopping and removing (internal/service/daemon_command.go). */
module Monitors {
  import opened Text

  datatype Runtime = Runtime(recordId: string, key: string)

  datatype Record = Record(id: string, commandLine: string, paused: bool)

  datatype Table = Table(monitors: map<nat, Runtime>, records: map<string, Record>, lastRuntime: nat, nextRecord: nat)

  function PersistentId(n: nat): string {
    "m-" + Decimal(if n == 0 then 1 else n)
  }

  predicate KeyRuns(monitors: map<nat, Runtime>, key: string) {
    exists id :: id in monitors && monitors[id].key == key
  }

  /** The record a persistent start leaves behind. */
  function ClaimedRecord(t: Table, key: string, line: string): Record {
    var id :=
      if key in t.records && Trim(t.records[key].id) != "" then t.records[key].id
      else PersistentId(t.nextRecord);
    Record(id, line, false)
  }

  function TakesRecordId(t: Table, key: string): bool {
    key !in t.records || Trim(t.records[key].id) == ""
  }

  /** The first critical section of a start, when the key is not running. */
  function Claimed(t: Table, key: string, line: string, persist: bool): Table {
    var record := ClaimedRecord(t, key, line);
    var recordId := if persist then record.id else if key in t.records then t.records[key].id else "";
    Table(t.monitors[t.lastRuntime + 1 := Runtime(recordId, key)],
          if persist then t.records[key := record] else t.records,
          t.lastRuntime + 1,
          if persist && TakesRecordId(t, key) then t.nextRecord + 1 else t.nextRecord)
  }

  /** The second critical section of a start whose save failed. */
  function RolledBack(t: Table, id: nat, key: string, previous: Option<Record>): Table {
    t.(monitors := t.monitors - {id},
       records := if previous.Some? then t.records[key := previous.value] else t.records - {key})
  }

  function Paused(records: map<string, Record>, key: string): map<string, Record> {
    if key in records then records[key := records[key].(paused := true)] else records
  }

  function Stopped(t: Table, id: nat): Table
    requires id in t.monitors
  {
    t.(monitors := t.monitors - {id}, records := Paused(t.records, t.monitors[id].key))
  }

  function AllStopped(t: Table): Table {
    t.(monitors := map[],
       records := map key | key in t.records ::
         if KeyRuns(t.monitors, key) then t.records[key].(paused := true) else t.records[key])
  }

  /** A runtime that belongs to the removed configuration. */
  predicate BelongsTo(r: Runtime, key: string, configId: string) {
    r.key == key || FoldKey(r.recordId) == FoldKey(configId)
  }

  function Removed(t: Table, key: string, configId: string): Table {
    t.(monitors := map id | id in t.monitors && !BelongsTo(t.monitors[id], key, configId) :: t.monitors[id],
       records := t.records - {key})
  }

  /** A runtime number as typed: with or without `run-` in front. */
  function RuntimeNumber(raw: string): Option<int> {
    var text := FoldKey(raw);
    var digits := if |text| >= 4 && text[..4] == "run-" then Trim(text[4..]) else text;
    match ParseInt(digits)
    case Some(n) => if n > 0 then Some(n) else None
    case None => None
  }

  predicate NamesRuntime(t: Table, id: nat, target: string) {
    id in t.monitors && Lower(t.monitors[id].recordId) == FoldKey(target)
  }

  predicate NamesRecord(t: Table, key: string, target: string) {
    key in t.records && FoldKey(target) != "" && FoldKey(t.records[key].id) == FoldKey(target)
  }

  /** What stopping a target does: the runtime of that configuration if one runs, else the runtime of that
      number, else the stored configuration alone. */
  ghost predicate StopOutcome(t: Table, target: string, t': Table, stopped: Option<nat>, found: bool) {
    if exists id :: NamesRuntime(t, id, target) then
      found && stopped.Some? && NamesRuntime(t, stopped.value, target) && t' == Stopped(t, stopped.value)
    else if RuntimeNumber(target).Some? && RuntimeNumber(target).value in t.monitors then
      found && stopped == RuntimeNumber(target) && t' == Stopped(t, stopped.value)
    else if exists key :: NamesRecord(t, key, target) then
      found && stopped.None? && exists key :: NamesRecord(t, key, target) && t' == t.(records := Paused(t.records, key))
    else
      !found && stopped.None? && t' == t
  }

  class MonitorTable {
    var monitors: map<nat, Runtime>
    var records: map<string, Record>
    var lastRuntime: nat
    var nextRecord: nat

    constructor ()
      ensures Contents() == Table(map[], map[], 0, 1)
    {
      monitors, records, lastRuntime, nextRecord := map[], map[], 0, 1;
    }

    function Contents(): Table
      reads this
    {
      Table(monitors, records, lastRuntime, nextRecord)
    }

    method FindByKey(key: string) returns (found: bool)
      ensures found == KeyRuns(monitors, key)
    {
      var rest := monitors.Keys;
      while rest != {}
        invariant rest <= monitors.Keys
        invariant forall id | id in monitors && id !in rest :: monitors[id].key != key
        decreases |rest|
      {
        var id :| id in rest;
        if monitors[id].key == key {
          return true;
        }
        rest := rest - {id};
      }
      return false;
    }

    /** The first half of `startDaemonMonitor`: refuse a running key, else claim it. */
    method Claim(key: string, line: string, persist: bool) returns (id: Option<nat>, previous: Option<Record>)
      modifies this
      ensures KeyRuns(old(monitors), key) ==> id == None && Contents() == old(Contents())
      ensures !KeyRuns(old(monitors), key) ==>
                && id == Some(old(lastRuntime) + 1)
                && previous == (if key in old(records) then Some(old(records)[key]) else None)
                && Contents() == Claimed(old(Contents()), key, line, persist)
    {
      previous := None;
      var running := FindByKey(key);
      if running {
        return None, previous;
      }
      if key in records {
        previous := Some(records[key]);
      }
      var recordId := "";
      if persist {
        var record: Record;
        if key in records {
          record := records[key];
        } else {
          record := Record(PersistentId(nextRecord), line, false);
          nextRecord := nextRecord + 1;
        }
        if Trim(record.id) == "" {
          record := record.(id := PersistentId(nextRecord));
          nextRecord := nextRecord + 1;
        }
        record := record.(commandLine := line, paused := false);
        records := records[key := record];
        recordId := record.id;
      } else if key in records {
        recordId := records[key].id;
      }
      lastRuntime := lastRuntime + 1;
      monitors := monitors[lastRuntime := Runtime(recordId, key)];
      return Some(lastRuntime), previous;
    }

    method FindRuntime(target: string) returns (id: Option<nat>)
      ensures id.Some? ==> NamesRuntime(Contents(), id.value, target)
      ensures id.None? ==> forall n :: !NamesRuntime(Contents(), n, target)
    {
      var rest := monitors.Keys;
      while rest != {}
        invariant rest <= monitors.Keys
        invariant forall n | n in monitors && n !in rest :: !NamesRuntime(Contents(), n, target)
        decreases |rest|
      {
        var n :| n in rest;
        if Lower(monitors[n].recordId) == FoldKey(target) {
          return Some(n);
        }
        rest := rest - {n};
      }
      return None;
    }

    method FindRecord(target: string) returns (key: Option<string>)
      ensures key.Some? ==> NamesRecord(Contents(), key.value, target)
      ensures key.None? ==> forall k :: !NamesRecord(Contents(), k, target)
    {
      if FoldKey(target) == "" {
        return None;
      }
      var rest := records.Keys;
      while rest != {}
        invariant rest <= records.Keys
        invariant forall k | k in records && k !in rest :: !NamesRecord(Contents(), k, target)
        decreases |rest|
      {
        var k :| k in rest;
        if FoldKey(records[k].id) == FoldKey(target) {
          return Some(k);
        }
        rest := rest - {k};
      }
      return None;
    }

    method StopRuntime(id: nat)
      requires id in monitors
      modifies this
      ensures Contents() == Stopped(old(Contents()), id)
    {
      var key := monitors[id].key;
      monitors := monitors - {id};
      if key in records {
        records := records[key := records[key].(paused := true)];
      }
    }

    /** `stopDaemonMonitorByTarget`; the runtime it returns is cancelled after the lock is released. */
    method StopByTarget(target: string) returns (stopped: Option<nat>, found: bool)
      modifies this
      ensures StopOutcome(old(Contents()), target, Contents(), stopped, found)
    {
      ghost var before := Contents();
      stopped := FindRuntime(target);
      if stopped.None? {
        var number := RuntimeNumber(target);
        if number.Some? && number.value in monitors {
          stopped := Some(number.value);
        }
      }
      if stopped.Some? {
        StopRuntime(stopped.value);
        return stopped, true;
      }
      var key := FindRecord(target);
      if key.Some? {
        if !records[key.value].paused {
          records := records[key.value := records[key.value].(paused := true)];
        }
        assert NamesRecord(before, key.value, target) &&
               Contents() == before.(records := Paused(before.records, key.value));
        return None, true;
      }
      return None, false;
    }

    /** Pauses the stored configuration of every running key. */
    method PauseRunning()
      modifies this`records
      ensures records.Keys == old(records).Keys
      ensures forall key | key in records ::
                records[key] == if KeyRuns(monitors, key) then old(records)[key].(paused := true) else old(records)[key]
    {
      var rest := monitors.Keys;
      ghost var before := records;
      while rest != {}
        invariant rest <= monitors.Keys
        invariant records.Keys == before.Keys
        invariant forall id | id in monitors && id !in rest && monitors[id].key in records ::
                    records[monitors[id].key] == before[monitors[id].key].(paused := true)
        invariant forall key | key in records && !KeyRuns(monitors, key) :: records[key] == before[key]
        invariant forall key | key in records ::
                    records[key] == before[key] || records[key] == before[key].(paused := true)
        decreases |rest|
      {
        var id :| id in rest;
        var key := monitors[id].key;
        if key in records {
          records := records[key := records[key].(paused := true)];
        }
        rest := rest - {id};
      }
    }

    /** `stopAllDaemonMonitors`: every running key is paused and the table is emptied. */
    method StopAll() returns (stopped: set<nat>)
      modifies this
      ensures stopped == old(monitors).Keys
      ensures Contents() == AllStopped(old(Contents()))
    {
      ghost var before := Contents();
      stopped := monitors.Keys;
      PauseRunning();
      assert records == AllStopped(before).records;
      monitors := map[];
    }

    /** `removeDaemonMonitorByConfigID`; the runtimes it returns are cancelled after the lock is released. */
    method RemoveByConfigId(configId: string) returns (key: Option<string>, stopped: set<nat>)
      modifies this
      ensures key.None? ==>
                && stopped == {} && Contents() == old(Contents())
                && forall k :: !NamesRecord(old(Contents()), k, configId)
      ensures key.Some? ==>
                && NamesRecord(old(Contents()), key.value, configId)
                && Contents() == Removed(old(Contents()), key.value, configId)
                && stopped == old(monitors).Keys - monitors.Keys
    {
      stopped := {};
      key := FindRecord(configId);
      if key.None? {
        return;
      }
      records := records - {key.value};
      var rest := monitors.Keys;
      ghost var before := monitors;
      while rest != {}
        invariant rest <= before.Keys
        invariant records == old(records) - {key.value}
        invariant lastRuntime == old(lastRuntime) && nextRecord == old(nextRecord)
        invariant forall id ::
                    id in monitors <==> id in before && (id in rest || !BelongsTo(before[id], key.value, configId))
        invariant forall id | id in monitors :: monitors[id] == before[id]
        invariant forall id :: id in stopped <==> id in before && id !in monitors
        decreases |rest|
      {
        var id :| id in rest;
        assert id in monitors;
        if BelongsTo(monitors[id], key.value, configId) {
          stopped := stopped + {id};
          monitors := monitors - {id};
        }
        rest := rest - {id};
      }
      assert monitors == map id | id in before && !BelongsTo(before[id], key.value, configId) :: before[id];
    }

    /** The second half of a start whose save failed. */
    method RollBack(id: nat, key: string, previous: Option<Record>)
      modifies this
      ensures Contents() == RolledBack(old(Contents()), id, key, previous)
    {
      monitors := monitors - {id};
      if previous.Some? {
        records := records[key := previous.value];
      } else {
        records := records - {key};
      }
    }
  }

  /* ----- Runs: tables, goroutines and cancellations ----- */

  /** A start between its two critical sections. */
  datatype Pending = Pending(key: string, persist: bool, previous: Option<Record>)

  /** `live` are the goroutines that run, `cancelled` the contexts that were cancelled, `stopping` the
      runtimes whose cancellation is still to come, and `keyOf` remembers every runtime's key. */
  datatype State = State(table: Table, pending: map<nat, Pending>, live: set<nat>, cancelled: set<nat>,
                         stopping: set<nat>, keyOf: map<nat, string>)

  datatype Event =
    | Start(key: string, line: string, persist: bool)
    | Saved(id: nat, ok: bool)
    | Stop(id: nat)
    | PauseRecord(key: string)
    | StopEvery
    | Remove(key: string, configId: string)
    | Cancel(id: nat)
    | Exit(id: nat)

  function Step(s: State, e: Event): State {
    match e
    case Start(key, line, persist) =>
      if KeyRuns(s.table.monitors, key) then s
      else
        var id := s.table.lastRuntime + 1;
        var previous := if key in s.table.records then Some(s.table.records[key]) else None;
        s.(table := Claimed(s.table, key, line, persist),
           pending := s.pending[id := Pending(key, persist, previous)],
           keyOf := s.keyOf[id := key])
    case Saved(id, ok) =>
      if id !in s.pending then s
      else if ok || !s.pending[id].persist then s.(pending := s.pending - {id}, live := s.live + {id})
      else s.(table := RolledBack(s.table, id, s.pending[id].key, s.pending[id].previous), pending := s.pending - {id})
    case Stop(id) =>
      if id in s.table.monitors then s.(table := Stopped(s.table, id), stopping := s.stopping + {id}) else s
    case PauseRecord(key) => s.(table := s.table.(records := Paused(s.table.records, key)))
    case StopEvery => s.(table := AllStopped(s.table), stopping := s.stopping + s.table.monitors.Keys)
    case Remove(key, configId) =>
      if key in s.table.records then
        var t := Removed(s.table, key, configId);
        s.(table := t, stopping := s.stopping + (s.table.monitors.Keys - t.monitors.Keys))
      else s
    case Cancel(id) =>
      if id in s.stopping then s.(stopping := s.stopping - {id}, cancelled := s.cancelled + {id}) else s
    case Exit(id) =>
      if id in s.live then s.(table := s.table.(monitors := s.table.monitors - {id}), live := s.live - {id}) else s
  }

  function Run(s: State, es: seq<Event>): State
    decreases |es|
  {
    if |es| == 0 then s else Run(Step(s, es[0]), es[1..])
  }

  ghost predicate KeysApart(monitors: map<nat, Runtime>) {
    forall a, b | a in monitors && b in monitors && monitors[a].key == monitors[b].key :: a == b
  }

  ghost predicate Inv(s: State) {
    && KeysApart(s.table.monitors)
    && (forall id | id in s.keyOf :: 0 < id <= s.table.lastRuntime)
    && (forall id | id in s.table.monitors :: id in s.keyOf && s.keyOf[id] == s.table.monitors[id].key)
    && (forall id | id in s.pending :: id in s.keyOf && id !in s.live)
    && (forall id | id in s.live + s.cancelled + s.stopping :: id in s.keyOf)
    // The table holds only monitors that run or are about to ...
    && (forall id | id in s.table.monitors :: id in s.live || id in s.pending)
    // ... and those it has let go are told to stop.
    && (forall id | id in s.live || id in s.pending :: id in s.table.monitors || id in s.cancelled || id in s.stopping)
    && (forall id | id in s.table.monitors :: id !in s.cancelled && id !in s.stopping)
  }

  lemma NothingStartedInv()
    ensures Inv(State(Table(map[], map[], 0, 1), map[], {}, {}, {}, map[]))
  {
  }

  lemma StepKeepsInv(s: State, e: Event)
    requires Inv(s)
    ensures Inv(Step(s, e))
  {
    match e
    case Start(key, line, persist) => StartKeepsInv(s, key, line, persist);
    case Remove(key, configId) => RemoveKeepsInv(s, key, configId);
    case Saved(id, ok) => SavedKeepsInv(s, id, ok);
    case _ => ReleaseKeepsInv(s, e);
  }

  lemma SavedKeepsInv(s: State, id: nat, ok: bool)
    requires Inv(s)
    ensures Inv(Step(s, Saved(id, ok)))
  {
  }

  lemma RemoveKeepsInv(s: State, key: string, configId: string)
    requires Inv(s)
    ensures Inv(Step(s, Remove(key, configId)))
  {
  }

  lemma ReleaseKeepsInv(s: State, e: Event)
    requires Inv(s) && !e.Start? && !e.Saved? && !e.Remove?
    ensures Inv(Step(s, e))
  {
  }

  lemma StartKeepsInv(s: State, key: string, line: string, persist: bool)
    requires Inv(s)
    ensures Inv(Step(s, Start(key, line, persist)))
  {
    if !KeyRuns(s.table.monitors, key) {
      var id := s.table.lastRuntime + 1;
      assert id !in s.keyOf;
    }
  }

  lemma {:induction false} RunKeepsInv(s: State, es: seq<Event>)
    requires Inv(s)
    ensures Inv(Run(s, es))
    decreases |es|
  {
    if |es| > 0 {
      StepKeepsInv(s, es[0]);
      RunKeepsInv(Step(s, es[0]), es[1..]);
    }
  }

  /** At any moment of any interleaving, of the goroutines and pending starts of one key at most one has not
      been told to stop, and it is the one in the table. */
  lemma OneRuntimePerKey(s: State, es: seq<Event>, a: nat, b: nat)
    requires Inv(s)
    requires var r := Run(s, es);
             && (a in r.live || a in r.pending) && a !in r.cancelled && a !in r.stopping
             && (b in r.live || b in r.pending) && b !in r.cancelled && b !in r.stopping
             && a in r.keyOf && b in r.keyOf && r.keyOf[a] == r.keyOf[b]
    ensures a == b && a in Run(s, es).table.monitors
  {
    RunKeepsInv(s, es);
  }

  /** When an old runtime ends, whatever replaced it stays in the table. */
  lemma ExitKeepsReplacement(s: State, earlier: nat, es: seq<Event>, id: nat)
    requires Inv(s) && earlier in s.live
    requires id in Run(s, es).table.monitors && id != earlier
    ensures id in Step(Run(s, es), Exit(earlier)).table.monitors
    ensures id !in s.keyOf ==> id > earlier
  {
    ExitLeavesOthers(Run(s, es), earlier, id);
    TableIdsAreKnown(s, es, id);
    LaterIdsAreLarger(s, es, id);
    LiveIdsAreSmall(s, earlier);
  }

  lemma ExitLeavesOthers(r: State, earlier: nat, id: nat)
    requires id in r.table.monitors && id != earlier
    ensures id in Step(r, Exit(earlier)).table.monitors
  {
  }

  lemma TableIdsAreKnown(s: State, es: seq<Event>, id: nat)
    requires Inv(s) && id in Run(s, es).table.monitors
    ensures id in Run(s, es).keyOf
  {
    RunKeepsInv(s, es);
  }

  lemma LiveIdsAreSmall(s: State, id: nat)
    requires Inv(s) && id in s.live
    ensures id <= s.table.lastRuntime
  {
  }

  lemma StepAddsLargerIds(s: State, e: Event, id: nat)
    ensures Step(s, e).table.lastRuntime >= s.table.lastRuntime
    ensures id in Step(s, e).keyOf ==> id in s.keyOf || id > s.table.lastRuntime
  {
  }

  /** Runtime numbers are never reused. */
  lemma {:induction false} LaterIdsAreLarger(s: State, es: seq<Event>, id: nat)
    requires id in Run(s, es).keyOf
    ensures id in s.keyOf || id > s.table.lastRuntime
    decreases |es|
  {
    if |es| > 0 {
      StepAddsLargerIds(s, es[0], id);
      LaterIdsAreLarger(Step(s, es[0]), es[1..], id);
    }
  }

  /* ----- Starts whose save fails ----- */

  function Entry(records: map<string, Record>, key: string): Option<Record> {
    if key in records then Some(records[key]) else None
  }

  lemma PendingStep(s: State, e: Event, id: nat)
    requires id <= s.table.lastRuntime && id in Step(s, e).pending
    ensures id in s.pending && Step(s, e).pending[id] == s.pending[id]
    ensures id <= Step(s, e).table.lastRuntime
  {
  }

  /** A start that is still pending has been pending, unchanged, since its number was given. */
  lemma {:induction false} PendingStays(s: State, es: seq<Event>, id: nat)
    requires id <= s.table.lastRuntime && id in Run(s, es).pending
    ensures id in s.pending && Run(s, es).pending[id] == s.pending[id]
    decreases |es|
  {
    if |es| > 0 {
      StepAddsLargerIds(s, es[0], id);
      PendingStays(Step(s, es[0]), es[1..], id);
      PendingStep(s, es[0], id);
    }
  }

  lemma StartIsPending(s: State, key: string, line: string)
    requires !KeyRuns(s.table.monitors, key)
    ensures var s1 := Step(s, Start(key, line, true));
            && s1.table.lastRuntime == s.table.lastRuntime + 1
            && s.table.lastRuntime + 1 in s1.pending
            && s1.pending[s.table.lastRuntime + 1] == Pending(key, true, Entry(s.table.records, key))
  {
  }

  lemma FailedSaveReverts(t: State, id: nat)
    requires id in t.pending && t.pending[id].persist
    ensures var t' := Step(t, Saved(id, false)).table;
            && t'.monitors == t.table.monitors - {id}
            && Step(t, Saved(id, false)).live == t.live
            && Entry(t'.records, t.pending[id].key) == t.pending[id].previous
            && forall k | k != t.pending[id].key :: Entry(t'.records, k) == Entry(t.table.records, k)
  {
  }

  /** Whatever happened since the start, a failed save puts the entry of its key back to what it was before the
      start, and leaves every other entry alone. */
  lemma FailedSaveTurnsBack(s: State, key: string, line: string, es: seq<Event>)
    requires !KeyRuns(s.table.monitors, key)
    requires s.table.lastRuntime + 1 in Run(Step(s, Start(key, line, true)), es).pending
    ensures var t := Run(Step(s, Start(key, line, true)), es);
            var t' := Step(t, Saved(s.table.lastRuntime + 1, false));
            && Entry(t'.table.records, key) == Entry(s.table.records, key)
            && forall k | k != key :: Entry(t'.table.records, k) == Entry(t.table.records, k)
  {
    var id := s.table.lastRuntime + 1;
    StartIsPending(s, key, line);
    PendingStays(Step(s, Start(key, line, true)), es, id);
    FailedSaveReverts(Run(Step(s, Start(key, line, true)), es), id);
  }

  /** Every key that runs has the stored configuration it had in `before`. */
  ghost predicate RunningKeep(t: Table, before: map<string, Record>) {
    forall key | KeyRuns(t.monitors, key) :: Entry(t.records, key) == Entry(before, key)
  }

  /** The exact condition: after a failed save all keys that still run keep their stored configurations unless the
      key of the failed start runs by another start and its entry has changed since. */
  lemma FailedSaveKeepsRunning(s: State, id: nat)
    requires id in s.pending && s.pending[id].persist
    ensures var p := s.pending[id];
            RunningKeep(Step(s, Saved(id, false)).table, s.table.records) <==>
            !KeyRuns(s.table.monitors - {id}, p.key) || Entry(s.table.records, p.key) == p.previous
  {
    FailedSaveReverts(s, id);
  }

  /** A configuration that was stored before the start and removed since is stored again after the failed save; no
      other configuration comes back. */
  lemma RemovedReappears(s: State, key: string, line: string, es: seq<Event>, k: string)
    requires !KeyRuns(s.table.monitors, key)
    requires s.table.lastRuntime + 1 in Run(Step(s, Start(key, line, true)), es).pending
    ensures var t := Run(Step(s, Start(key, line, true)), es);
            var t' := Step(t, Saved(s.table.lastRuntime + 1, false));
            k !in t.table.records && k in t'.table.records <==>
            k == key && key in s.table.records && key !in t.table.records
  {
    var t := Run(Step(s, Start(key, line, true)), es);
    var t' := Step(t, Saved(s.table.lastRuntime + 1, false));
    FailedSaveTurnsBack(s, key, line, es);
    assert Entry(t'.table.records, k) == if k == key then Entry(s.table.records, key) else Entry(t.table.records, k);
  }

  /** Such a run: start a stored key, remove its configuration, and let the save of the start fail. */
  lemma RemovalIsUndone(s: State, key: string, line: string, configId: string)
    requires !KeyRuns(s.table.monitors, key) && key in s.table.records
    ensures var id := s.table.lastRuntime + 1;
            var s2 := Step(Step(s, Start(key, line, true)), Remove(key, configId));
            key !in s2.table.records && id in s2.pending &&
            Entry(Step(s2, Saved(id, false)).table.records, key) == Entry(s.table.records, key)
  {
    var s1 := Step(s, Start(key, line, true));
    StartIsPending(s, key, line);
    assert key in s1.table.records;
    FailedSaveReverts(Step(s1, Remove(key, configId)), s.table.lastRuntime + 1);
  }

  /** A start whose save fails with nothing in between leaves the table and the records as they were; only
      the two counters have moved on. */
  lemma FailedStartIsUndone(s: State, key: string, line: string)
    requires Inv(s) && !KeyRuns(s.table.monitors, key)
    ensures var id := s.table.lastRuntime + 1;
            var s' := Step(Step(s, Start(key, line, true)), Saved(id, false));
            s'.table.monitors == s.table.monitors && s'.table.records == s.table.records && s'.live == s.live
  {
    var s1 := Step(s, Start(key, line, true));
    var s2 := Step(s1, Saved(s.table.lastRuntime + 1, false));
    StartIsPending(s, key, line);
    StartIsNew(s, key, line);
    FailedSaveReverts(s1, s.table.lastRuntime + 1);
    assert forall k :: Entry(s2.table.records, k) == Entry(s.table.records, k);
    SameEntries(s2.table.records, s.table.records);
  }

  lemma StartIsNew(s: State, key: string, line: string)
    requires Inv(s) && !KeyRuns(s.table.monitors, key)
    ensures var s1 := Step(s, Start(key, line, true));
            && s1.table.monitors - {s.table.lastRuntime + 1} == s.table.monitors
            && s1.live == s.live
            && forall k | k != key :: Entry(s1.table.records, k) == Entry(s.table.records, k)
  {
    assert s.table.lastRuntime + 1 !in s.table.monitors;
  }

  lemma SameEntries(a: map<string, Record>, b: map<string, Record>)
    requires forall k :: Entry(a, k) == Entry(b, k)
    ensures a == b
  {
    forall k
      ensures k in a <==> k in b
      ensures k in a ==> a[k] == b[k]
    {
      assert Entry(a, k) == Entry(b, k);
    }
  }

  /** A start, a stop and another start of a key that was neither running nor stored. */
  lemma SecondStart(s: State, key: string, line: string) returns (s3: State)
    requires Inv(s) && !KeyRuns(s.table.monitors, key) && key !in s.table.records
    ensures s3 == Step(Step(Step(s, Start(key, line, true)), Stop(s.table.lastRuntime + 1)), Start(key, line, true))
    ensures var id := s.table.lastRuntime + 1;
            && id in s3.pending && s3.pending[id] == Pending(key, true, None)
            && id + 1 in s3.pending && id + 1 in s3.table.monitors && id !in s3.live && id + 1 !in s3.live
  {
    var id := s.table.lastRuntime + 1;
    var s1 := Step(s, Start(key, line, true));
    var s2 := Step(s1, Stop(id));
    StartKeepsInv(s, key, line, true);
    assert s1.table.monitors[id].key == key;
    assert !KeyRuns(s2.table.monitors, key);
    s3 := Step(s2, Start(key, line, true));
  }

  /** When the second start is saved and the first one's save then fails, the late rollback takes away the
      stored configuration of the running monitor: it will not be restored after a restart. */
  lemma LateRollbackDropsRecord(s: State, key: string, line: string)
    requires Inv(s) && !KeyRuns(s.table.monitors, key) && key !in s.table.records
    ensures var id := s.table.lastRuntime + 1;
            var s3 := Step(Step(Step(s, Start(key, line, true)), Stop(id)), Start(key, line, true));
            var s5 := Step(Step(s3, Saved(id + 1, true)), Saved(id, false));
            id + 1 in s5.live && id + 1 in s5.table.monitors && key !in s5.table.records
  {
    var s3 := SecondStart(s, key, line);
  }
}
