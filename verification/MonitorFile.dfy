/** The state file of the monitors (internal/service/daemon_command.go, `saveMonitorRecords`): the records are cloned
    under the lock and written after it is released, so the writes of several saves can land in any order. */
module MonitorFile {
  import opened Text
  import M = Monitors

  /** What a save clones; `version` counts the changes of the records up to then. */
  datatype Snapshot = Snapshot(records: map<string, M.Record>, nextRecord: nat, version: nat)

  /** Who saves: the start of a monitor, or any other command or goroutine. */
  datatype Writer = OfStart(id: nat) | Other(n: nat)

  /** `clones` are the snapshots that are still to be written, `done` tells of each finished save whether it worked. */
  datatype State = State(
    monitors: M.State,
    version: nat,
    clones: map<Writer, Snapshot>,
    done: map<Writer, bool>,
    file: Option<Snapshot>)

  datatype Event =
    | Act(e: M.Event)
    | Clone(w: Writer)
    | Land(w: Writer, ok: bool)

  function Taken(s: State): Snapshot {
    Snapshot(s.monitors.table.records, s.monitors.table.nextRecord, s.version)
  }

  predicate SameRecords(m: M.State, m': M.State) {
    m'.table.records == m.table.records && m'.table.nextRecord == m.table.nextRecord
  }

  /** A start that is stored goes on, or rolls back, as its own save says. */
  predicate MayAct(s: State, e: M.Event) {
    e.Saved? && e.id in s.monitors.pending && s.monitors.pending[e.id].persist ==>
      OfStart(e.id) in s.done && s.done[OfStart(e.id)] == e.ok
  }

  /** Every writer saves once; a start only while it is pending. */
  predicate MayClone(s: State, w: Writer) {
    && w !in s.clones && w !in s.done
    && (w.OfStart? ==> w.id in s.monitors.pending && s.monitors.pending[w.id].persist)
  }

  function Step(s: State, e: Event): State {
    match e
    case Act(a) =>
      if !MayAct(s, a) then s
      else
        var m := M.Step(s.monitors, a);
        s.(monitors := m, version := if SameRecords(s.monitors, m) then s.version else s.version + 1)
    case Clone(w) => if MayClone(s, w) then s.(clones := s.clones[w := Taken(s)]) else s
    case Land(w, ok) =>
      if w !in s.clones then s
      else s.(clones := s.clones - {w}, done := s.done[w := ok], file := if ok then Some(s.clones[w]) else s.file)
  }

  /** The event writes a waiting snapshot to the file. */
  predicate LandsOk(s: State, e: Event) {
    e.Land? && e.ok && e.w in s.clones
  }

  predicate Leads(s: State, e: Event, s': State) {
    s' == Step(s, e)
  }

  /** The states of a run, one before each event and one at the end. */
  ghost predicate Trace(ss: seq<State>, es: seq<Event>) {
    |ss| == |es| + 1 && forall i {:trigger es[i]} | 0 <= i < |es| :: Leads(ss[i], es[i], ss[i + 1])
  }

  /* ----- What the file holds ----- */

  /** The snapshot shows the records as they were at some moment up to n. */
  ghost predicate TakenBefore(ss: seq<State>, n: nat, snapshot: Snapshot)
    requires n < |ss|
  {
    exists c :: 0 <= c <= n && snapshot == Taken(ss[c])
  }

  /** In every interleaving the file is the one at the beginning or shows the records of an earlier moment as a
      whole. */
  lemma {:induction false} FileIsEarlier(ss: seq<State>, es: seq<Event>, n: nat)
    requires Trace(ss, es) && n <= |es| && ss[0].clones == map[]
    ensures ss[n].file == ss[0].file || (ss[n].file.Some? && TakenBefore(ss, n, ss[n].file.value))
    ensures forall w | w in ss[n].clones :: TakenBefore(ss, n, ss[n].clones[w])
    decreases n
  {
    if n > 0 {
      FileIsEarlier(ss, es, n - 1);
      TakenBeforeGrows(ss, n - 1);
      StepWritesWhatWaits(ss[n - 1], es[n - 1], ss[n]);
    }
  }

  lemma TakenBeforeGrows(ss: seq<State>, n: nat)
    requires n + 1 < |ss|
    ensures forall t | TakenBefore(ss, n, t) :: TakenBefore(ss, n + 1, t)
    ensures TakenBefore(ss, n + 1, Taken(ss[n]))
  {
  }

  lemma StepWritesWhatWaits(s: State, e: Event, s': State)
    requires Leads(s, e, s')
    ensures s'.file == s.file || exists w :: w in s.clones && s'.file == Some(s.clones[w])
    ensures forall w | w in s'.clones :: s'.clones[w] == Taken(s) || (w in s.clones && s'.clones[w] == s.clones[w])
  {
  }

  /* ----- The exact condition ----- */

  predicate SameContent(a: Snapshot, b: Snapshot) {
    a.records == b.records && a.nextRecord == b.nextRecord
  }

  /** Event number i leaves the records as they are. */
  predicate Quiet(ss: seq<State>, i: nat)
    requires i + 1 < |ss|
  {
    SameContent(Taken(ss[i]), Taken(ss[i + 1]))
  }

  /** From moment c to moment n, nothing changes the records. */
  ghost predicate Unchanged(ss: seq<State>, c: nat, n: nat)
    requires c <= n < |ss|
  {
    forall i: nat | c <= i < n :: Quiet(ss, i)
  }

  /** One event later: the same records with the same version, or others with the next one. */
  lemma StepCounts(s: State, e: Event, s': State)
    requires Leads(s, e, s')
    ensures if SameContent(Taken(s), Taken(s')) then Taken(s') == Taken(s) else s'.version == s.version + 1
  {
  }

  lemma {:induction false} VersionsTell(ss: seq<State>, es: seq<Event>, c: nat, n: nat)
    requires Trace(ss, es) && c <= n < |ss|
    ensures ss[c].version <= ss[n].version
    ensures Taken(ss[c]) == Taken(ss[n]) <==> Unchanged(ss, c, n)
    ensures ss[c].version == ss[n].version ==> Taken(ss[c]) == Taken(ss[n])
    decreases n - c
  {
    if c < n {
      VersionsTell(ss, es, c, n - 1);
      StepCounts(ss[n - 1], es[n - 1], ss[n]);
      UnchangedNext(ss, c, n - 1);
    }
  }

  lemma UnchangedNext(ss: seq<State>, c: nat, n: nat)
    requires c <= n < |ss| - 1
    ensures Unchanged(ss, c, n + 1) <==> Unchanged(ss, c, n) && Quiet(ss, n)
  {
  }

  /** From its clone on, a save waits with what it cloned, or is over. */
  ghost predicate WaitsOrDone(s: State, w: Writer, snapshot: Snapshot) {
    if w in s.clones then s.clones[w] == snapshot else w in s.done
  }

  lemma StepWaits(s: State, e: Event, s': State, w: Writer, snapshot: Snapshot)
    requires Leads(s, e, s')
    requires (e == Clone(w) && MayClone(s, w) && snapshot == Taken(s)) ||
             (WaitsOrDone(s, w, snapshot) && (w in s.clones || w in s.done))
    ensures WaitsOrDone(s', w, snapshot)
  {
  }

  lemma {:induction false} CloneWaits(ss: seq<State>, es: seq<Event>, c: nat, n: nat, w: Writer)
    requires Trace(ss, es) && c < n <= |es| && es[c] == Clone(w) && MayClone(ss[c], w)
    ensures WaitsOrDone(ss[n], w, Taken(ss[c]))
    decreases n - c
  {
    if c < n - 1 {
      CloneWaits(ss, es, c, n - 1, w);
    }
    StepWaits(ss[n - 1], es[n - 1], ss[n], w, Taken(ss[c]));
  }

  lemma StepKeepsFile(s: State, e: Event, s': State)
    requires Leads(s, e, s')
    ensures s'.file == if LandsOk(s, e) then Some(s.clones[e.w]) else s.file
  {
  }

  lemma {:induction false} FileStays(ss: seq<State>, es: seq<Event>, l: nat, n: nat)
    requires Trace(ss, es) && l <= n <= |es|
    requires forall i | l <= i < n :: !LandsOk(ss[i], es[i])
    ensures ss[n].file == ss[l].file
    decreases n - l
  {
    if l < n {
      FileStays(ss, es, l, n - 1);
      StepKeepsFile(ss[n - 1], es[n - 1], ss[n]);
    }
  }

  /** The save that event c cloned and event l wrote is the last one that worked. */
  ghost predicate LastLanded(ss: seq<State>, es: seq<Event>, c: nat, l: nat, w: Writer)
    requires Trace(ss, es)
  {
    && c < l < |es|
    && es[c] == Clone(w) && MayClone(ss[c], w)
    && es[l] == Land(w, true) && w in ss[l].clones
    && forall i | l < i < |es| :: !LandsOk(ss[i], es[i])
  }

  /** The file shows the records as they were when the write that landed last was cloned. It is up to date exactly
      when nothing has changed the records since that clone; when the write landed does not matter. */
  lemma FileIsLastLanded(ss: seq<State>, es: seq<Event>, c: nat, l: nat, w: Writer)
    requires Trace(ss, es) && LastLanded(ss, es, c, l, w)
    ensures ss[|es|].file == Some(Taken(ss[c]))
    ensures ss[|es|].file == Some(Taken(ss[|es|])) <==> Unchanged(ss, c, |es|)
  {
    CloneWaits(ss, es, c, l, w);
    StepKeepsFile(ss[l], es[l], ss[l + 1]);
    FileStays(ss, es, l + 1, |es|);
    VersionsTell(ss, es, c, |es|);
  }

  /* ----- Writes that land in the wrong order ----- */

  /** A stored start of a key that does not run, up to its clone. */
  lemma StartAndClone(s: State, key: string, line: string) returns (s1: State, s2: State)
    requires !M.KeyRuns(s.monitors.table.monitors, key)
    requires OfStart(s.monitors.table.lastRuntime + 1) !in s.clones &&
             OfStart(s.monitors.table.lastRuntime + 1) !in s.done
    ensures s1 == Step(s, Act(M.Start(key, line, true)))
    ensures s2 == Step(s1, Clone(OfStart(s.monitors.table.lastRuntime + 1)))
    ensures s2.clones == s.clones[OfStart(s.monitors.table.lastRuntime + 1) := Taken(s1)]
    ensures s2.monitors == s1.monitors && s2.done == s.done
    ensures s.monitors.table.lastRuntime + 1 in s2.monitors.pending && key in s2.monitors.table.records
  {
    M.StartIsPending(s.monitors, key, line);
    s1 := Step(s, Act(M.Start(key, line, true)));
    s2 := Step(s1, Clone(OfStart(s.monitors.table.lastRuntime + 1)));
  }

  /** Both saves land, the start's own first, and the start goes on. */
  lemma LandedBackwards(s: State, w: Writer, id: nat) returns (t: State)
    requires w != OfStart(id) && w in s.clones && OfStart(id) in s.clones && id in s.monitors.pending
    ensures t == Step(Step(Step(s, Land(OfStart(id), true)), Land(w, true)), Act(M.Saved(id, true)))
    ensures t.file == Some(s.clones[w]) && id in t.monitors.live && t.monitors.table == s.monitors.table
    ensures t.clones == s.clones - {w, OfStart(id)}
  {
    t := Step(Step(Step(s, Land(OfStart(id), true)), Land(w, true)), Act(M.Saved(id, true)));
  }

  /** A save that has cloned, as that of a monitor that ended with an error, is overtaken by a start: the start reports
      success and runs, but the file does not have its configuration, and a restart forgets it. */
  lemma SavesOutOfOrder(s: State, n: nat, key: string, line: string) returns (s1: State, s3: State, s6: State)
    requires s.clones == map[] && s.done == map[]
    requires !M.KeyRuns(s.monitors.table.monitors, key) && key !in s.monitors.table.records
    ensures var id := s.monitors.table.lastRuntime + 1;
            && s1 == Step(s, Clone(Other(n)))
            && s3 == Step(Step(s1, Act(M.Start(key, line, true))), Clone(OfStart(id)))
            && s6 == Step(Step(Step(s3, Land(OfStart(id), true)), Land(Other(n), true)), Act(M.Saved(id, true)))
            && s6.clones == map[] && id in s6.monitors.live && key in s6.monitors.table.records
            && s6.file.Some? && key !in s6.file.value.records
  {
    s1 := Step(s, Clone(Other(n)));
    var s2;
    s2, s3 := StartAndClone(s1, key, line);
    assert s3.clones == map[Other(n) := Taken(s), OfStart(s.monitors.table.lastRuntime + 1) := Taken(s2)];
    s6 := LandedBackwards(s3, Other(n), s.monitors.table.lastRuntime + 1);
  }
}
