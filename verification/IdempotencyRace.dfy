/** Many requests at once: lookup, handler and save of different requests interleave in any order, each lookup and
    each save being one critical section of `internal/service/public_idempotency_store.go`. A save reads the clock
    before it gets the lock, so its time may be stale. */
module IdempotencyRace {
  import opened Text
  import opened Idempotency

  /** What a request brings along and keeps. */
  datatype Info = Info(key: string, hash: Hash)

  datatype Phase =
    | Arrived
    | Missed
    | Handled(answer: Answer)
    | Stamped(answer: Answer, at: Time)
    | Replied(reply: Reply)

  datatype HandlerRun = HandlerRun(request: nat, info: Info, answer: Answer)

  /** `runs` records every handler run so far, in order, with what the handler answered. */
  datatype State = State(
    store: Store,
    ttl: nat,
    infos: map<nat, Info>,
    phases: map<nat, Phase>,
    runs: seq<HandlerRun>,
    now: Time)

  datatype Event =
    | Tick(d: nat)
    | Arrive(r: nat, info: Info)
    | LookUp(r: nat, readOk: bool, writeOk: bool)
    | RunHandler(r: nat, answer: Answer)
    | Stamp(r: nat)
    | SaveAnswer(r: nat, readOk: bool, writeOk: bool)

  predicate InPhase(s: State, r: nat, p: Phase) {
    r in s.phases && s.phases[r] == p
  }

  predicate Enabled(s: State, e: Event) {
    match e
    case Tick(_) => true
    case Arrive(r, _) => r !in s.phases && r !in s.infos
    case LookUp(r, _, _) => r in s.infos && InPhase(s, r, Arrived)
    case RunHandler(r, _) => r in s.infos && InPhase(s, r, Missed)
    case Stamp(r) => r in s.phases && s.phases[r].Handled?
    case SaveAnswer(r, _, _) => r in s.infos && r in s.phases && s.phases[r].Stamped?
  }

  function PhaseAfterLookup(found: Found): Phase {
    match found
    case Failed => Replied(LookupFailed)
    case Conflicting => Replied(Conflict)
    case Hit(answer) => Replied(Replayed(Sent(answer)))
    case Missing => Missed
  }

  function Apply(s: State, e: Event): State
    requires Enabled(s, e)
  {
    match e
    case Tick(d) => s.(now := s.now + d)
    case Arrive(r, info) => s.(infos := s.infos[r := info], phases := s.phases[r := Arrived])
    case LookUp(r, readOk, writeOk) =>
      var (store, found) := Lookup(s.store, s.infos[r].key, s.infos[r].hash, s.now, readOk, writeOk);
      s.(store := store, phases := s.phases[r := PhaseAfterLookup(found)])
    case RunHandler(r, answer) =>
      s.(phases := s.phases[r := Handled(Sent(answer))], runs := s.runs + [HandlerRun(r, s.infos[r], answer)])
    case Stamp(r) => s.(phases := s.phases[r := Stamped(s.phases[r].answer, s.now)])
    case SaveAnswer(r, readOk, writeOk) =>
      var answer := s.phases[r].answer;
      var (store, saved) :=
        Save(s.store, s.infos[r].key, s.infos[r].hash, answer, s.phases[r].at, s.ttl, readOk, writeOk);
      s.(store := store, phases := s.phases[r := Replied(if saved then Fresh(answer) else SaveFailed)])
  }

  ghost predicate CanRun(s: State, events: seq<Event>)
    decreases events
  {
    |events| == 0 || (Enabled(s, events[0]) && CanRun(Apply(s, events[0]), events[1..]))
  }

  ghost function Run(s: State, events: seq<Event>): State
    requires CanRun(s, events)
    decreases events
  {
    if |events| == 0 then s else Run(Apply(s, events[0]), events[1..])
  }

  predicate Initial(s: State) {
    s.store == map[] && s.infos == map[] && s.phases == map[] && s.runs == []
  }

  /** Some handler run so far was for this key and body, and its answer is what the client gets. */
  ghost predicate Produced(s: State, info: Info, answer: Answer) {
    exists i :: 0 <= i < |s.runs| && s.runs[i].info == info && Delivers(s.runs[i].answer, answer)
  }

  /** The same, and the run was that of the request itself. */
  ghost predicate ProducedBy(s: State, r: nat, info: Info, answer: Answer) {
    exists i :: 0 <= i < |s.runs| && s.runs[i].request == r && s.runs[i].info == info
                && Delivers(s.runs[i].answer, answer)
  }

  ghost predicate PhaseOk(s: State, r: nat, info: Info, p: Phase) {
    match p
    case Handled(answer) => ProducedBy(s, r, info, answer)
    case Stamped(answer, at) => ProducedBy(s, r, info, answer) && at <= s.now
    case Replied(reply) =>
      && (reply.Replayed? ==> Produced(s, info, reply.a))
      && (reply.Fresh? ==> ProducedBy(s, r, info, reply.a))
    case _ => true
  }

  ghost predicate Inv(s: State) {
    && (forall r | r in s.phases :: r in s.infos && PhaseOk(s, r, s.infos[r], s.phases[r]))
    && (forall k | k in s.store :: Produced(s, Info(k, s.store[k].bodyHash), s.store[k].answer))
  }

  lemma ProducedStays(s: State, s': State)
    requires s.runs <= s'.runs
    ensures forall info, answer | Produced(s, info, answer) :: Produced(s', info, answer)
    ensures forall r, info, answer | ProducedBy(s, r, info, answer) :: ProducedBy(s', r, info, answer)
  {
    forall info, answer | Produced(s, info, answer)
      ensures Produced(s', info, answer)
    {
      var i :| 0 <= i < |s.runs| && s.runs[i].info == info && Delivers(s.runs[i].answer, answer);
      assert s'.runs[i] == s.runs[i];
    }
    forall r, info, answer | ProducedBy(s, r, info, answer)
      ensures ProducedBy(s', r, info, answer)
    {
      var i :| 0 <= i < |s.runs| && s.runs[i].request == r && s.runs[i].info == info
               && Delivers(s.runs[i].answer, answer);
      assert s'.runs[i] == s.runs[i];
    }
  }

  lemma OwnIsProduced(s: State, r: nat, info: Info, answer: Answer)
    requires ProducedBy(s, r, info, answer)
    ensures Produced(s, info, answer)
  {
  }

  lemma LookUpKeepsInv(s: State, r: nat, readOk: bool, writeOk: bool)
    requires Inv(s) && Enabled(s, LookUp(r, readOk, writeOk))
    ensures Inv(Apply(s, LookUp(r, readOk, writeOk)))
  {
    var s' := Apply(s, LookUp(r, readOk, writeOk));
    LookupOnlyPrunes(s.store, s.infos[r].key, s.infos[r].hash, s.now, readOk, writeOk);
    ProducedStays(s, s');
    var key := s.infos[r].key;
    if s'.phases[r].Replied? && s'.phases[r].reply.Replayed? {
      assert Produced(s, Info(key, s.store[key].bodyHash), s.store[key].answer);
      ProducedIsSent(s, Info(key, s.store[key].bodyHash), s.store[key].answer);
    }
    assert PhaseOk(s', r, s'.infos[r], s'.phases[r]);
  }

  lemma LookupOnlyPrunes(store: Store, key: string, hash: Hash, now: Time, readOk: bool, writeOk: bool)
    ensures var (store', found) := Lookup(store, key, hash, now, readOk, writeOk);
            && (forall k | k in store' :: k in store && store'[k] == store[k])
            && (found.Hit? ==> key in store && store[key].bodyHash == hash && store[key].answer == found.answer)
  {
  }

  lemma SaveKeepsInv(s: State, r: nat, readOk: bool, writeOk: bool)
    requires Inv(s) && Enabled(s, SaveAnswer(r, readOk, writeOk))
    ensures Inv(Apply(s, SaveAnswer(r, readOk, writeOk)))
  {
    var s' := Apply(s, SaveAnswer(r, readOk, writeOk));
    ProducedStays(s, s');
    OwnIsProduced(s', r, s.infos[r], s.phases[r].answer);
    assert s.infos[r] == Info(s.infos[r].key, s.infos[r].hash);
  }

  lemma HandlerKeepsInv(s: State, r: nat, answer: Answer)
    requires Inv(s) && Enabled(s, RunHandler(r, answer))
    ensures Inv(Apply(s, RunHandler(r, answer)))
  {
    var s' := Apply(s, RunHandler(r, answer));
    ProducedStays(s, s');
    assert s'.runs[|s.runs|] == HandlerRun(r, s.infos[r], answer) && Delivers(answer, Sent(answer));
    assert ProducedBy(s', r, s.infos[r], Sent(answer));
  }

  lemma StepKeepsInv(s: State, e: Event)
    requires Inv(s) && Enabled(s, e)
    ensures Inv(Apply(s, e)) && s.runs <= Apply(s, e).runs
  {
    match e
    case LookUp(r, readOk, writeOk) => LookUpKeepsInv(s, r, readOk, writeOk);
    case RunHandler(r, answer) => HandlerKeepsInv(s, r, answer);
    case SaveAnswer(r, readOk, writeOk) => SaveKeepsInv(s, r, readOk, writeOk);
    case Tick(_) => ProducedStays(s, Apply(s, e));
    case Arrive(_, _) => ProducedStays(s, Apply(s, e));
    case Stamp(_) => ProducedStays(s, Apply(s, e));
  }

  lemma ProducedIsSent(s: State, info: Info, answer: Answer)
    requires Inv(s) && Produced(s, info, answer)
    ensures Sent(answer) == answer
  {
  }

  lemma {:induction false} RunKeepsInv(s: State, events: seq<Event>)
    requires Inv(s) && CanRun(s, events)
    ensures Inv(Run(s, events)) && s.runs <= Run(s, events).runs
    decreases events
  {
    if |events| > 0 {
      StepKeepsInv(s, events[0]);
      RunKeepsInv(Apply(s, events[0]), events[1..]);
    }
  }

  /** In every interleaving, an answer that is replayed is what the handler answered in an earlier run for the same
      key and the same body. */
  lemma ReplaysAreGenuine(s0: State, events: seq<Event>, r: nat, readOk: bool, writeOk: bool)
    requires Initial(s0) && CanRun(s0, events) && Enabled(Run(s0, events), LookUp(r, readOk, writeOk))
    requires var s' := Apply(Run(s0, events), LookUp(r, readOk, writeOk));
             s'.phases[r].Replied? && s'.phases[r].reply.Replayed?
    ensures var s := Run(s0, events);
            var s' := Apply(s, LookUp(r, readOk, writeOk));
            Produced(s, s.infos[r], s'.phases[r].reply.a) && s'.runs == s.runs
  {
    RunKeepsInv(s0, events);
    var s := Run(s0, events);
    StepKeepsInv(s, LookUp(r, readOk, writeOk));
    var s' := Apply(s, LookUp(r, readOk, writeOk));
    assert s'.runs == s.runs;
    var info, answer := s.infos[r], s'.phases[r].reply.a;
    assert Produced(s', info, answer);
    assert Produced(s, info, answer);
  }

  /* ----- Which requests reach the handler ----- */

  predicate AllLive(store: Store, now: Time) {
    forall k | k in store :: Live(store[k], now)
  }

  predicate HasLive(store: Store, key: string, now: Time) {
    key in store && Live(store[key], now)
  }

  lemma NothingToPrune(store: Store, now: Time)
    ensures Pruned(store, now) == store <==> AllLive(store, now)
  {
    if AllLive(store, now) {
      assert forall k :: k in Pruned(store, now) <==> k in store;
    } else {
      var k :| k in store && !Live(store[k], now);
      assert k !in Pruned(store, now);
    }
  }

  /** The file can be read and, when something has to be pruned from it, written. */
  predicate LookupWorks(s: State, readOk: bool, writeOk: bool) {
    readOk && (writeOk || AllLive(s.store, s.now))
  }

  /** In any state, a request reaches the handler exactly when its lookup works and its key has no live record. */
  lemma ReachesHandler(s: State, r: nat, readOk: bool, writeOk: bool)
    requires Enabled(s, LookUp(r, readOk, writeOk))
    ensures Apply(s, LookUp(r, readOk, writeOk)).phases[r] == Missed <==>
            LookupWorks(s, readOk, writeOk) && !HasLive(s.store, s.infos[r].key, s.now)
  {
    NothingToPrune(s.store, s.now);
  }

  /** In every interleaving, an answer given afresh is what the handler answered for that very request. */
  lemma FreshAnswersAreOwn(s0: State, events: seq<Event>, r: nat)
    requires Initial(s0) && CanRun(s0, events)
    requires var s := Run(s0, events); r in s.phases && s.phases[r].Replied? && s.phases[r].reply.Fresh?
    ensures var s := Run(s0, events); r in s.infos && ProducedBy(s, r, s.infos[r], s.phases[r].reply.a)
  {
    RunKeepsInv(s0, events);
  }

  /** A live record only ever gives way to a record for another body, and only in a save. */
  lemma LiveRecordsGiveWayOnlyToOtherBodies(s: State, e: Event, key: string)
    requires Inv(s) && Enabled(s, e) && key in s.store
    requires var s' := Apply(s, e); Live(s.store[key], s'.now)
    ensures var s' := Apply(s, e);
            && key in s'.store
            && (s'.store[key] != s.store[key] ==>
                  && e.SaveAnswer? && s.infos[e.r].key == key
                  && s'.store[key].bodyHash == s.infos[e.r].hash != s.store[key].bodyHash)
  {
  }

  /** Requests that share the key use one body only. */
  ghost predicate OneBody(s: State, key: string, hash: Hash) {
    forall r | r in s.infos && s.infos[r].key == key :: s.infos[r].hash == hash
  }

  /** If all requests with a key carry one body, a live record of it never changes, whatever the interleaving. */
  lemma {:induction false} OneBodyOneAnswer(s: State, events: seq<Event>, key: string)
    requires Inv(s) && CanRun(s, events) && key in s.store && Live(s.store[key], Run(s, events).now)
    requires OneBody(Run(s, events), key, s.store[key].bodyHash)
    ensures key in Run(s, events).store && Run(s, events).store[key] == s.store[key]
    decreases events
  {
    if |events| > 0 {
      var s' := Apply(s, events[0]);
      ClockAndInfosGrow(s', events[1..]);
      StepKeepsInv(s, events[0]);
      LiveRecordsGiveWayOnlyToOtherBodies(s, events[0], key);
      if events[0].SaveAnswer? {
        assert events[0].r in s'.infos && s'.infos[events[0].r] == s.infos[events[0].r];
      }
      OneBodyOneAnswer(s', events[1..], key);
    }
  }

  lemma {:induction false} ClockAndInfosGrow(s: State, events: seq<Event>)
    requires CanRun(s, events)
    ensures s.now <= Run(s, events).now
    ensures forall r | r in s.infos :: r in Run(s, events).infos && Run(s, events).infos[r] == s.infos[r]
    decreases events
  {
    if |events| > 0 {
      ClockAndInfosGrow(Apply(s, events[0]), events[1..]);
    }
  }

  /** While that record lives, no further lookup of its key leads to the handler: one that works is answered from the
      record, and one that does not is refused. */
  lemma LiveRecordIsReplayed(s: State, events: seq<Event>, r: nat, readOk: bool, writeOk: bool)
    requires Inv(s) && CanRun(s, events) && Enabled(Run(s, events), LookUp(r, readOk, writeOk))
    requires var t := Run(s, events);
             var key := t.infos[r].key;
             HasLive(s.store, key, t.now) && OneBody(t, key, s.store[key].bodyHash)
    ensures var t := Run(s, events);
            Apply(t, LookUp(r, readOk, writeOk)).phases[r] ==
            Replied(if LookupWorks(t, readOk, writeOk) then Replayed(s.store[t.infos[r].key].answer) else LookupFailed)
  {
    var t := Run(s, events);
    var key := t.infos[r].key;
    OneBodyOneAnswer(s, events, key);
    NothingToPrune(t.store, t.now);
    assert Produced(s, Info(key, s.store[key].bodyHash), s.store[key].answer);
    ProducedIsSent(s, Info(key, s.store[key].bodyHash), s.store[key].answer);
  }

  lemma OnlyMissesStayMissed(s: State, e: Event, key: string)
    requires Inv(s) && Enabled(s, e) && HasLive(s.store, key, s.now)
    ensures forall r | r in Apply(s, e).phases && Apply(s, e).phases[r] == Missed && Apply(s, e).infos[r].key == key ::
              r in s.phases && s.phases[r] == Missed && s.infos[r] == Apply(s, e).infos[r]
  {
    StepKeepsInv(s, e);
    if e.LookUp? {
      ReachesHandler(s, e.r, e.readOk, e.writeOk);
    }
  }

  /** From the save of a record to its expiry, the handler runs only for requests that had looked up before. */
  lemma {:induction false} OnlyEarlierMissesRun(s: State, events: seq<Event>, key: string, i: nat)
    requires Inv(s) && CanRun(s, events) && HasLive(s.store, key, Run(s, events).now)
    requires OneBody(Run(s, events), key, s.store[key].bodyHash)
    requires |s.runs| <= i < |Run(s, events).runs| && Run(s, events).runs[i].info.key == key
    ensures var run := Run(s, events).runs[i];
            run.request in s.phases && s.phases[run.request] == Missed && s.infos[run.request] == run.info
    decreases events
  {
    if |events| > 0 {
      var e, s' := events[0], Apply(s, events[0]);
      ClockAndInfosGrow(s', events[1..]);
      StepKeepsInv(s, e);
      RunKeepsInv(s', events[1..]);
      if i < |s'.runs| {
        assert Run(s, events).runs[i] == s'.runs[i];
        assert e.RunHandler?;
      } else {
        LiveRecordsGiveWayOnlyToOtherBodies(s, e, key);
        if e.SaveAnswer? {
          assert e.r in s'.infos && s'.infos[e.r] == s.infos[e.r];
        }
        OnlyEarlierMissesRun(s', events[1..], key, i);
        OnlyMissesStayMissed(s, e, key);
      }
    }
  }

  /* ----- Two bodies for one key ----- */

  /** With several bodies for one key, a save moves the expiry of a live record back exactly when it works, brings
      another body and was stamped too long ago. */
  lemma SaveCutsShort(s: State, r: nat, readOk: bool, writeOk: bool)
    requires Inv(s) && Enabled(s, SaveAnswer(r, readOk, writeOk)) && HasLive(s.store, s.infos[r].key, s.now)
    ensures var key := s.infos[r].key;
            var s' := Apply(s, SaveAnswer(r, readOk, writeOk));
            && key in s'.store && s'.store[key].expiresAt.Some?
            && (s'.store[key].expiresAt.value < s.store[key].expiresAt.value <==>
                  && readOk && writeOk && s.store[key].bodyHash != s.infos[r].hash
                  && s.phases[r].at + s.ttl < s.store[key].expiresAt.value)
  {
  }

  /** After such a save, any request of the key reaches the handler once the new time is over, although the record
      that was replaced would still be live. */
  lemma StaleSaveReopens(s: State, r: nat, d: nat, q: nat, info: Info)
    requires Inv(s) && Enabled(s, SaveAnswer(r, true, true)) && HasLive(s.store, s.infos[r].key, s.now + d)
    requires s.store[s.infos[r].key].bodyHash != s.infos[r].hash && s.phases[r].at + s.ttl <= s.now + d
    requires Enabled(s, Arrive(q, info)) && info.key == s.infos[r].key
    ensures var t := Apply(Apply(Apply(s, SaveAnswer(r, true, true)), Tick(d)), Arrive(q, info));
            Enabled(t, LookUp(q, true, true)) && Apply(t, LookUp(q, true, true)).phases[q] == Missed
  {
    var t := Apply(Apply(Apply(s, SaveAnswer(r, true, true)), Tick(d)), Arrive(q, info));
    ReachesHandler(t, q, true, true);
  }

  ghost predicate Reaches(s: State, t: State) {
    exists events :: CanRun(s, events) && Run(s, events) == t
  }

  lemma ReachesFirst(s: State, e: Event, t: State)
    requires Enabled(s, e) && Reaches(Apply(s, e), t)
    ensures Reaches(s, t)
  {
    var rest :| CanRun(Apply(s, e), rest) && Run(Apply(s, e), rest) == t;
    RunOne(s, e, rest);
  }

  function NoRequests(ttl: nat): State {
    State(map[], ttl, map[], map[], [], 0)
  }

  /** Requests 0 and 1 have both looked up before either saved, and both have been handled. */
  function BothHandled(ttl: nat, i0: Info, i1: Info, a: Answer, b: Answer): State {
    State(map[], ttl, map[0 := i0, 1 := i1], map[0 := Handled(Sent(a)), 1 := Handled(Sent(b))],
          [HandlerRun(0, i0, a), HandlerRun(1, i1, b)], 0)
  }

  lemma BothMiss(ttl: nat, i0: Info, i1: Info, t: State)
    requires Reaches(State(map[], ttl, map[0 := i0, 1 := i1], map[0 := Missed, 1 := Missed], [], 0), t)
    ensures Reaches(NoRequests(ttl), t)
  {
    var s0 := NoRequests(ttl);
    var s1 := Apply(s0, Arrive(0, i0));
    var s2 := Apply(s1, Arrive(1, i1));
    var s3 := Apply(s2, LookUp(0, true, true));
    assert s2.infos == map[0 := i0, 1 := i1] && s2.phases == map[0 := Arrived, 1 := Arrived];
    assert s3.phases == map[0 := Missed, 1 := Arrived] && s3.store == map[];
    assert Apply(s3, LookUp(1, true, true)).phases == map[0 := Missed, 1 := Missed];
    assert Apply(s3, LookUp(1, true, true)).store == map[];
    ReachesFirst(s3, LookUp(1, true, true), t);
    ReachesFirst(s2, LookUp(0, true, true), t);
    ReachesFirst(s1, Arrive(1, i1), t);
    ReachesFirst(s0, Arrive(0, i0), t);
  }

  lemma BothAreHandled(ttl: nat, i0: Info, i1: Info, a: Answer, b: Answer, t: State)
    requires Reaches(BothHandled(ttl, i0, i1, a, b), t)
    ensures Reaches(NoRequests(ttl), t)
  {
    var s4 := State(map[], ttl, map[0 := i0, 1 := i1], map[0 := Missed, 1 := Missed], [], 0);
    var s5 := Apply(s4, RunHandler(0, a));
    assert Apply(s5, RunHandler(1, b)).phases == map[0 := Handled(Sent(a)), 1 := Handled(Sent(b))];
    assert Apply(s5, RunHandler(1, b)) == BothHandled(ttl, i0, i1, a, b);
    ReachesFirst(s5, RunHandler(1, b), t);
    ReachesFirst(s4, RunHandler(0, a), t);
    BothMiss(ttl, i0, i1, t);
  }

  /** Two overlapping requests that both look up before either saves both reach the handler, even for one body. */
  lemma OverlappingRequestsRunTwice(info: Info, a: Answer, b: Answer)
    ensures exists s0, s ::
              && Initial(s0) && Reaches(s0, s)
              && |s.runs| == 2 && s.runs[0].info == s.runs[1].info == info && s.runs[0].request != s.runs[1].request
  {
    var s := BothHandled(1, info, info, a, b);
    assert Run(s, []) == s;
    BothAreHandled(1, info, info, a, b, s);
    assert Initial(NoRequests(1)) && Reaches(NoRequests(1), s);
  }

  /** A stale save with another body does happen: request 0 is answered and stored, and request 1, stamped five ticks
      before, has yet to be saved. */
  lemma StaleSaveHappens(key: string, a: Answer, b: Answer)
    ensures exists s0, s ::
              && Initial(s0) && Reaches(s0, s)
              && Enabled(s, SaveAnswer(1, true, true)) && HasLive(s.store, s.infos[1].key, s.now + 5)
              && InPhase(s, 0, Replied(Fresh(Sent(a))))
              && s.store[s.infos[1].key].bodyHash != s.infos[1].hash && s.phases[1].at + s.ttl <= s.now + 5
  {
    var s6 := BothHandled(10, Info(key, "x"), Info(key, "y"), a, b);
    var s7 := Apply(s6, Stamp(1));
    var s8 := Apply(s7, Tick(5));
    var s9 := Apply(s8, Stamp(0));
    var s := Apply(s9, SaveAnswer(0, true, true));
    assert s.store[key] == Record("x", Sent(a), Some(15));
    assert Run(s, []) == s;
    ReachesFirst(s9, SaveAnswer(0, true, true), s);
    ReachesFirst(s8, Stamp(0), s);
    ReachesFirst(s7, Tick(5), s);
    ReachesFirst(s6, Stamp(1), s);
    BothAreHandled(10, Info(key, "x"), Info(key, "y"), a, b, s);
    assert Initial(NoRequests(10)) && Reaches(NoRequests(10), s);
  }

  lemma RunOne(s: State, e: Event, rest: seq<Event>)
    requires Enabled(s, e) && CanRun(Apply(s, e), rest)
    ensures CanRun(s, [e] + rest) && Run(s, [e] + rest) == Run(Apply(s, e), rest)
  {
    assert ([e] + rest)[1..] == rest;
  }
}
