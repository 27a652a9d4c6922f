/** What starting, stopping and removing a monitor do to the stored configurations: which of them the next process
    starts again, and whose name is whose (internal/service/daemon_command.go). */
module MonitorOutcomes {
  import opened Text
  import opened Monitors

  /* ----- One start ----- */

  /** A start adds one runtime of its key. When it is stored, its line is the stored one and the configuration is not
      paused; a name that was given before is kept. Nothing else changes. */
  lemma StartMeans(s: State, key: string, line: string, persist: bool)
    requires Inv(s) && !KeyRuns(s.table.monitors, key)
    ensures var id, t := s.table.lastRuntime + 1, Step(s, Start(key, line, persist)).table;
            && id !in s.table.monitors && id in t.monitors && t.monitors[id].key == key
            && t.monitors - {id} == s.table.monitors
    ensures var id, t := s.table.lastRuntime + 1, Step(s, Start(key, line, persist)).table;
            persist ==>
              && key in t.records && t.records[key].commandLine == line && !t.records[key].paused
              && t.monitors[id].recordId == t.records[key].id
              && (key in s.table.records && Trim(s.table.records[key].id) != "" ==>
                    t.records[key].id == s.table.records[key].id && t.nextRecord == s.table.nextRecord)
              && t.records - {key} == s.table.records - {key}
    ensures !persist ==> Step(s, Start(key, line, persist)).table.records == s.table.records
  {
    assert s.table.lastRuntime + 1 !in s.table.monitors;
  }

  /* ----- What a restart starts again ----- */

  /** The stored configurations that a new process starts: those that are not paused, each with its line. When the
      state file holds them is a matter of module MonitorFile. */
  predicate IsRestored(t: Table, key: string) {
    key in t.records && !t.records[key].paused
  }

  predicate IsRestoredWith(t: Table, key: string, line: string) {
    IsRestored(t, key) && t.records[key].commandLine == line
  }

  /** The events that can make a key's configuration active: a stored start, and the rollback of one. */
  predicate Wakes(s: State, e: Event, key: string) {
    || (e.Start? && e.key == key && e.persist)
    || (e.Saved? && !e.ok && e.id in s.pending && s.pending[e.id].key == key)
  }

  /** The events that can end that: stopping a runtime of the key, pausing or removing the configuration, and a
      rollback. That a monitor ends by itself is not among them. */
  predicate Retires(s: State, e: Event, key: string) {
    || (e.Stop? && e.id in s.table.monitors && s.table.monitors[e.id].key == key)
    || (e.PauseRecord? && e.key == key)
    || (e.StopEvery? && KeyRuns(s.table.monitors, key))
    || (e.Remove? && e.key == key)
    || (e.Saved? && !e.ok && e.id in s.pending && s.pending[e.id].key == key)
  }

  ghost predicate NeverWoken(s: State, es: seq<Event>, key: string)
    decreases |es|
  {
    |es| == 0 || (!Wakes(s, es[0], key) && NeverWoken(Step(s, es[0]), es[1..], key))
  }

  ghost predicate NeverRetired(s: State, es: seq<Event>, key: string)
    decreases |es|
  {
    |es| == 0 || (!Retires(s, es[0], key) && NeverRetired(Step(s, es[0]), es[1..], key))
  }

  lemma StepStaysStopped(s: State, e: Event, key: string)
    requires !IsRestored(s.table, key) && !Wakes(s, e, key)
    ensures !IsRestored(Step(s, e).table, key)
  {
  }

  lemma {:induction false} StaysStopped(s: State, es: seq<Event>, key: string)
    requires !IsRestored(s.table, key) && NeverWoken(s, es, key)
    ensures !IsRestored(Run(s, es).table, key)
    decreases |es|
  {
    if |es| > 0 {
      StepStaysStopped(s, es[0], key);
      StaysStopped(Step(s, es[0]), es[1..], key);
    }
  }

  /** What was stopped, paused or removed is not started by a later process, whatever else happens, until it is
      started again. */
  lemma RetiredIsNotRestored(s: State, e: Event, key: string, es: seq<Event>)
    requires Retires(s, e, key) && !e.Saved? && NeverWoken(Step(s, e), es, key)
    ensures !IsRestored(Run(Step(s, e), es).table, key)
  {
    StaysStopped(Step(s, e), es, key);
  }

  lemma StepStaysActive(s: State, e: Event, key: string, line: string)
    requires IsRestoredWith(s.table, key, line) && !Retires(s, e, key) && !Wakes(s, e, key)
    ensures IsRestoredWith(Step(s, e).table, key, line)
  {
  }

  lemma {:induction false} StaysActive(s: State, es: seq<Event>, key: string, line: string)
    requires IsRestoredWith(s.table, key, line) && NeverRetired(s, es, key) && NeverWoken(s, es, key)
    ensures IsRestoredWith(Run(s, es).table, key, line)
    decreases |es|
  {
    if |es| > 0 {
      StepStaysActive(s, es[0], key, line);
      StaysActive(Step(s, es[0]), es[1..], key, line);
    }
  }

  /** A stored start that took place is repeated by the next process, with the same line, even when the monitor has
      ended by itself, unless it was stopped, paused, removed, rolled back or started anew in between. */
  lemma StartedIsRestored(s: State, key: string, line: string, es: seq<Event>)
    requires Inv(s) && !KeyRuns(s.table.monitors, key)
    requires var s1 := Step(s, Start(key, line, true)); NeverRetired(s1, es, key) && NeverWoken(s1, es, key)
    ensures IsRestoredWith(Run(Step(s, Start(key, line, true)), es).table, key, line)
  {
    StartMeans(s, key, line, true);
    StaysActive(Step(s, Start(key, line, true)), es, key, line);
  }

  /** Stopping, pausing and removing leave the lines and the names of the configurations that stay. */
  lemma StoppingKeepsLines(s: State, e: Event, key: string)
    requires !e.Start? && !e.Saved? && key in s.table.records
    ensures key in Step(s, e).table.records <==> !(e.Remove? && e.key == key)
    ensures key in Step(s, e).table.records ==>
              && Step(s, e).table.records[key].commandLine == s.table.records[key].commandLine
              && Step(s, e).table.records[key].id == s.table.records[key].id
              && (s.table.records[key].paused ==> Step(s, e).table.records[key].paused)
    ensures Step(s, e).table.records.Keys <= s.table.records.Keys
  {
  }

  /** A stopped runtime is out of the table and nothing else is; stopping all empties it. */
  lemma StopMeans(s: State, id: nat)
    requires id in s.table.monitors
    ensures Step(s, Stop(id)).table.monitors == s.table.monitors - {id}
    ensures Step(s, StopEvery).table.monitors == map[]
    ensures id in Step(s, Stop(id)).stopping && id in Step(s, StopEvery).stopping
  {
  }

  /* ----- Names ----- */

  /** The name is that of a number which was given to the key. */
  ghost predicate NameOf(owner: map<nat, string>, key: string, name: string) {
    exists n :: n in owner && owner[n] == key && name == PersistentId(n)
  }

  /** `owner` tells which key each number was given to. */
  ghost predicate Named(s: State, owner: map<nat, string>) {
    && s.table.nextRecord > 0
    && (forall n | n in owner :: 0 < n < s.table.nextRecord)
    && (forall key | key in s.table.records :: NameOf(owner, key, s.table.records[key].id))
    && (forall id | id in s.pending && s.pending[id].previous.Some? ::
          NameOf(owner, s.pending[id].key, s.pending[id].previous.value.id))
    && (forall id | id in s.table.monitors ::
          s.table.monitors[id].recordId == "" || NameOf(owner, s.table.monitors[id].key, s.table.monitors[id].recordId))
  }

  lemma PersistentIdIs(n: nat)
    requires n > 0
    ensures PersistentId(n) == "m-" + Decimal(n) && FoldKey(PersistentId(n)) == PersistentId(n)
    ensures Trim(PersistentId(n)) == PersistentId(n) != ""
  {
    var s, d := PersistentId(n), Decimal(n);
    assert s[|s| - 1] == d[|d| - 1];
    TrimFixed(s);
    forall i | 0 <= i < |s|
      ensures LowerChar(s[i]) == s[i]
    {
      assert i >= 2 ==> s[i] == d[i - 2];
    }
    assert Lower(s) == s;
  }

  lemma PersistentIdInjective(m: nat, n: nat)
    requires m > 0 && n > 0 && FoldKey(PersistentId(m)) == FoldKey(PersistentId(n))
    ensures m == n
  {
    PersistentIdIs(m);
    PersistentIdIs(n);
    assert PersistentId(m)[2..] == Decimal(m) && PersistentId(n)[2..] == Decimal(n);
    DecimalInjective(m, n);
  }

  lemma NameStays(owner: map<nat, string>, n: nat, key: string)
    requires n !in owner
    ensures forall k, name | NameOf(owner, k, name) :: NameOf(owner[n := key], k, name)
    ensures NameOf(owner[n := key], key, PersistentId(n))
  {
    forall k, name | NameOf(owner, k, name)
      ensures NameOf(owner[n := key], k, name)
    {
      var m :| m in owner && owner[m] == k && name == PersistentId(m);
      assert owner[n := key][m] == k;
    }
    assert owner[n := key][n] == key;
  }

  lemma NamesAreFull(s: State, owner: map<nat, string>, key: string)
    requires Named(s, owner) && key in s.table.records
    ensures Trim(s.table.records[key].id) != ""
  {
    var n :| n in owner && owner[n] == key && s.table.records[key].id == PersistentId(n);
    PersistentIdIs(n);
  }

  lemma StartStaysNamed(s: State, e: Event, owner: map<nat, string>) returns (owner': map<nat, string>)
    requires Named(s, owner) && e.Start?
    ensures Named(Step(s, e), owner')
  {
    owner' := owner;
    if !KeyRuns(s.table.monitors, e.key) {
      if e.key in s.table.records {
        NamesAreFull(s, owner, e.key);
      } else if e.persist {
        NameStays(owner, s.table.nextRecord, e.key);
        owner' := owner[s.table.nextRecord := e.key];
      }
    }
  }

  lemma RemoveStaysNamed(s: State, e: Event, owner: map<nat, string>)
    requires Named(s, owner) && e.Remove?
    ensures Named(Step(s, e), owner)
  {
  }

  lemma OtherStaysNamed(s: State, e: Event, owner: map<nat, string>)
    requires Named(s, owner) && !e.Start? && !e.Remove?
    ensures Named(Step(s, e), owner)
  {
  }

  lemma StepStaysNamed(s: State, e: Event, owner: map<nat, string>) returns (owner': map<nat, string>)
    requires Named(s, owner)
    ensures Named(Step(s, e), owner')
  {
    owner' := owner;
    if e.Start? {
      owner' := StartStaysNamed(s, e, owner);
    } else if e.Remove? {
      RemoveStaysNamed(s, e, owner);
    } else {
      OtherStaysNamed(s, e, owner);
    }
  }

  lemma {:induction false} RunStaysNamed(s: State, es: seq<Event>, owner: map<nat, string>)
    returns (owner': map<nat, string>)
    requires Named(s, owner)
    ensures Named(Run(s, es), owner')
    decreases |es|
  {
    owner' := owner;
    if |es| > 0 {
      owner' := StepStaysNamed(s, es[0], owner);
      owner' := RunStaysNamed(Step(s, es[0]), es[1..], owner');
    }
  }

  lemma SameNameSameKey(s: State, owner: map<nat, string>, key: string, name: string, key': string, name': string)
    requires Named(s, owner) && NameOf(owner, key, name) && NameOf(owner, key', name')
    requires FoldKey(name) == FoldKey(name')
    ensures key == key'
  {
    var m :| m in owner && owner[m] == key && name == PersistentId(m);
    var n :| n in owner && owner[n] == key' && name' == PersistentId(n);
    PersistentIdInjective(m, n);
  }

  /** A name never stands for two stored configurations, in any run: not after removals, failed saves or late
      rollbacks. */
  lemma NamesAreUnique(s: State, owner: map<nat, string>, es: seq<Event>, a: string, b: string, target: string)
    requires Named(s, owner)
    requires NamesRecord(Run(s, es).table, a, target) && NamesRecord(Run(s, es).table, b, target)
    ensures a == b
  {
    var owner' := RunStaysNamed(s, es, owner);
    var t := Run(s, es).table;
    SameNameSameKey(Run(s, es), owner', a, t.records[a].id, b, t.records[b].id);
  }

  lemma OwnNameOnly(s: State, owner: map<nat, string>, key: string, configId: string, id: nat)
    requires Named(s, owner) && NamesRecord(s.table, key, configId) && id in s.table.monitors
    ensures BelongsTo(s.table.monitors[id], key, configId) <==> s.table.monitors[id].key == key
  {
    var r := s.table.monitors[id];
    if r.recordId == "" {
      assert FoldKey(r.recordId) == "";
    } else if FoldKey(r.recordId) == FoldKey(configId) {
      SameNameSameKey(s, owner, r.key, r.recordId, key, s.table.records[key].id);
    }
  }

  lemma RemovalOfNamed(r: State, owner: map<nat, string>, key: string, configId: string)
    requires Named(r, owner) && NamesRecord(r.table, key, configId)
    ensures var t' := Removed(r.table, key, configId);
            && (forall id :: id in t'.monitors <==> id in r.table.monitors && r.table.monitors[id].key != key)
            && (forall id | id in t'.monitors :: t'.monitors[id] == r.table.monitors[id])
  {
    forall id | id in r.table.monitors
      ensures BelongsTo(r.table.monitors[id], key, configId) <==> r.table.monitors[id].key == key
    {
      OwnNameOnly(r, owner, key, configId, id);
    }
  }

  lemma RemoveStep(r: State, key: string, configId: string)
    requires key in r.table.records
    ensures Step(r, Remove(key, configId)).table == Removed(r.table, key, configId)
    ensures Removed(r.table, key, configId).records == r.table.records - {key}
  {
  }

  /** Removing a configuration by its name, in any run, takes that configuration and the runtime of its key, and no
      other configuration or runtime. */
  lemma RemovalTakesItsOwn(s: State, owner: map<nat, string>, es: seq<Event>, key: string, configId: string)
    requires Named(s, owner) && NamesRecord(Run(s, es).table, key, configId)
    ensures var t, t' := Run(s, es).table, Step(Run(s, es), Remove(key, configId)).table;
            && t'.records == t.records - {key}
            && (forall id :: id in t'.monitors <==> id in t.monitors && t.monitors[id].key != key)
            && (forall id | id in t'.monitors :: t'.monitors[id] == t.monitors[id])
  {
    var owner' := RunStaysNamed(s, es, owner);
    RemoveStep(Run(s, es), key, configId);
    RemovalOfNamed(Run(s, es), owner', key, configId);
  }

  /** Whatever names are stored, no runtime of the removed name or key stays in the table, and every other one does. */
  lemma RemovalLeavesNone(t: Table, key: string, configId: string, id: nat)
    ensures id in Removed(t, key, configId).monitors <==>
            && id in t.monitors && t.monitors[id].key != key
            && Lower(Trim(t.monitors[id].recordId)) != Lower(Trim(configId))
    ensures key !in Removed(t, key, configId).records
  {
  }

  lemma NothingStartedNamed()
    ensures Named(State(Table(map[], map[], 0, 1), map[], {}, {}, {}, map[]), map[])
  {
  }

  /* ----- Numbers as typed ----- */

  lemma {:induction false} LowerConcat(a: string, b: string)
    ensures Lower(a + b) == Lower(a) + Lower(b)
  {
    if a == "" {
      assert a + b == b;
    } else {
      assert (a + b)[1..] == a[1..] + b;
      LowerConcat(a[1..], b);
    }
  }

  lemma DigitsAreLower(n: nat)
    ensures Lower(Decimal(n)) == Decimal(n) && Trim(Decimal(n)) == Decimal(n)
  {
    var d := Decimal(n);
    assert forall i | 0 <= i < |d| :: LowerChar(d[i]) == d[i];
    TrimFixed(d);
  }

  lemma NotBlankAtTheEnds(s: string, first: char, last: char)
    requires s != "" && Lower(s)[0] == first && Lower(s)[|s| - 1] == last && !IsSpace(first) && !IsSpace(last)
    ensures FoldKey(s) == Lower(s)
  {
    LowerIsNotBlank(s);
  }

  lemma TypedNumber(word: string, n: nat)
    requires word == "" || Lower(word) == "run-"
    ensures word + Decimal(n) != "" && FoldKey(word + Decimal(n)) == Lower(word) + Decimal(n)
  {
    var d := Decimal(n);
    LowerConcat(word, d);
    DigitsAreLower(n);
    assert (Lower(word) + d)[0] == if word == "" then d[0] else 'r';
    NotBlankAtTheEnds(word + d, (Lower(word) + d)[0], d[|d| - 1]);
  }

  /** A runtime is named by its number, with or without `run-` in any case, and with spaces around it; zero names
      none. */
  lemma RuntimeNumbersAreRead(a: string, word: string, n: nat, b: string)
    requires AllSpaces(a) && AllSpaces(b) && (word == "" || Lower(word) == "run-")
    ensures RuntimeNumber(a + (word + Decimal(n)) + b) == if n > 0 then Some(n) else None
  {
    var d := Decimal(n);
    TypedNumber(word, n);
    TrimPadded(a, word + d, b);
    DigitsAreLower(n);
    ParseIntOfDecimal(n);
    var text := Lower(word) + d;
    if word == "" {
      assert text == d;
      NoRunInDigits(n);
    } else {
      assert text[..4] == "run-" && text[4..] == d;
    }
  }

  lemma NoRunInDigits(n: nat)
    ensures |Decimal(n)| >= 4 ==> Decimal(n)[..4] != "run-"
  {
    assert IsDigit(Decimal(n)[0]);
    if |Decimal(n)| >= 4 {
      assert Decimal(n)[..4][0] == Decimal(n)[0];
    }
  }
}
