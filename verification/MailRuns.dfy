/** Whole runs of the mail monitor: calls, polls and restarts
    (internal/service/email_receive_command.go, the command loop and `monitorIMAPMessagesByPolling`). */
module MailRuns {
  import opened MailMonitor
  import opened Sorting
  import opened Text

  /** `flag` is the --since-uid option (0 when absent), `since` the loop's own position, `watermark` that of
      the running call (None between two calls) and `cursor` the position on disk. */
  datatype Monitor = Monitor(flag: nat, limit: nat, since: nat, watermark: Option<nat>, cursor: Option<nat>,
                             notified: seq<seq<nat>>)

  function Max(a: nat, b: nat): nat {
    if a > b then a else b
  }

  /** Where a process starts: at the option, else at the saved cursor, else nowhere yet. */
  function Start(flag: nat, cursor: Option<nat>): nat {
    if flag != 0 then flag else if cursor.Some? then cursor.value else 0
  }

  function Restarted(m: Monitor): Monitor {
    m.(since := Start(m.flag, m.cursor), watermark := None)
  }

  /** A call begins; without a position it takes the newest message it finds as its watermark. */
  function Began(m: Monitor, found: seq<nat>): Monitor {
    m.(watermark := Some(if m.since != 0 then m.since else MaxUid(Recent(found, m.limit))))
  }

  /** The messages that are still there when they are fetched. */
  function Present(uids: seq<nat>, gone: set<nat>): seq<nat> {
    if |uids| == 0 then []
    else Present(uids[..|uids| - 1], gone) + (if uids[|uids| - 1] in gone then [] else [uids[|uids| - 1]])
  }

  function Batch(m: Monitor, watermark: nat, found: seq<nat>, gone: set<nat>): seq<nat> {
    Sorted(Present(NewUids(Recent(found, m.limit), watermark), gone), Newer)
  }

  function Polled(m: Monitor, watermark: nat, found: seq<nat>, gone: set<nat>, saved: bool): Monitor {
    var recent := Recent(found, m.limit);
    if |NewUids(recent, watermark)| == 0 then m.(watermark := Some(Max(watermark, MaxUid(recent))))
    else
      var batch := Batch(m, watermark, found, gone);
      var latest := MaxUid(batch);
      m.(since := Max(m.since, latest),
         cursor := if latest > m.since && saved then Some(latest) else m.cursor,
         watermark := None,
         notified := m.notified + [batch])
  }

  datatype Event =
    | Begin(found: seq<nat>)
    | Poll(found: seq<nat>, gone: set<nat>, saved: bool)
    | Restart

  function Step(m: Monitor, e: Event): Monitor {
    match e
    case Begin(found) => if m.watermark.None? then Began(m, found) else m
    case Poll(found, gone, saved) => if m.watermark.Some? then Polled(m, m.watermark.value, found, gone, saved) else m
    case Restart => Restarted(m)
  }

  function Run(m: Monitor, es: seq<Event>): Monitor
    decreases |es|
  {
    if |es| == 0 then m else Run(Step(m, es[0]), es[1..])
  }

  /* ----- The loops of the program ----- */

  method FetchByUids(uids: seq<nat>, gone: set<nat>) returns (messages: seq<nat>)
    ensures messages == Sorted(Present(uids, gone), Newer)
  {
    messages := [];
    for i := 0 to |uids|
      invariant messages == Present(uids[..i], gone)
    {
      assert uids[..i + 1][..i] == uids[..i];
      if uids[i] !in gone {
        messages := messages + [uids[i]];
      }
    }
    assert uids[..|uids|] == uids;
    messages := Sorted(messages, Newer);
  }

  class MailMonitorCommand {
    const flag: nat
    const limit: nat
    var currentSinceUid: nat
    var watermark: Option<nat>
    var cursor: Option<nat>
    var notified: seq<seq<nat>>

    function Contents(): Monitor
      reads this
    {
      Monitor(flag, limit, currentSinceUid, watermark, cursor, notified)
    }

    constructor (flag: nat, limit: nat, cursor: Option<nat>)
      ensures Contents() == Monitor(flag, limit, Start(flag, cursor), None, cursor, [])
    {
      this.flag, this.limit, this.cursor, watermark, notified := flag, limit, cursor, None, [];
      var since := flag;
      if since == 0 && cursor.Some? {
        since := cursor.value;
      }
      currentSinceUid := since;
    }

    method BeginCall(found: seq<nat>)
      requires watermark.None?
      modifies this
      ensures Contents() == Began(old(Contents()), found)
    {
      var w := currentSinceUid;
      if w == 0 {
        w := MaxUidFromMessages(Recent(found, limit));
      }
      watermark := Some(w);
    }

    /** One tick of the polling loop and, when it found something, the command's handling of the batch. */
    method PollOnce(found: seq<nat>, gone: set<nat>, saved: bool)
      requires watermark.Some?
      modifies this
      ensures Contents() == Polled(old(Contents()), old(watermark.value), found, gone, saved)
    {
      var polled := Recent(found, limit);
      var uids := CollectNewUids(polled, watermark.value);
      if |uids| == 0 {
        var top := MaxUidFromMessages(polled);
        if top > watermark.value {
          watermark := Some(top);
        }
        return;
      }
      var batch := FetchByUids(uids, gone);
      watermark := None;
      notified := notified + [batch];
      var latest := MaxUidFromMessages(batch);
      if latest > currentSinceUid {
        currentSinceUid := latest;
        if saved {
          cursor := Some(latest);
        }
      }
    }
  }

  /* ----- Never twice ----- */

  lemma {:induction false} PresentAre(uids: seq<nat>, gone: set<nat>)
    ensures forall u :: u in Present(uids, gone) <==> u in uids && u !in gone
  {
    if |uids| > 0 {
      PresentAre(uids[..|uids| - 1], gone);
      assert uids == uids[..|uids| - 1] + [uids[|uids| - 1]];
    }
  }

  lemma BatchIs(m: Monitor, watermark: nat, found: seq<nat>, gone: set<nat>)
    ensures forall u :: u in Batch(m, watermark, found, gone) <==>
                        u in Recent(found, m.limit) && u > watermark && u !in gone
  {
    var uids := NewUids(Recent(found, m.limit), watermark);
    NewUidsAre(Recent(found, m.limit), watermark);
    PresentAre(uids, gone);
    SortedUids(Present(uids, gone), Newer);
  }

  /** Every UID of an earlier batch is below every UID of a later one. */
  ghost predicate Climbs(batches: seq<seq<nat>>) {
    forall i, j, u, v | 0 <= i < j < |batches| && u in batches[i] && v in batches[j] :: u < v
  }

  ghost predicate NoneAbove(batches: seq<seq<nat>>, bound: nat) {
    forall i, u | 0 <= i < |batches| && u in batches[i] :: u <= bound
  }

  /** Batches climb and the position is at or above everything notified. */
  ghost predicate Apart(m: Monitor) {
    && (m.watermark.Some? ==> m.watermark.value >= m.since)
    && NoneAbove(m.notified, m.since)
    && Climbs(m.notified)
  }

  ghost predicate Inv(m: Monitor) {
    && m.flag == 0
    && m.since == Start(0, m.cursor)
    && Apart(m)
  }

  lemma ClimbsFurther(batches: seq<seq<nat>>, batch: seq<nat>, since: nat, since': nat)
    requires Climbs(batches) && NoneAbove(batches, since) && since <= since'
    requires forall u | u in batch :: since < u <= since'
    ensures Climbs(batches + [batch]) && NoneAbove(batches + [batch], since')
  {
  }

  lemma PollKeepsApart(m: Monitor, found: seq<nat>, gone: set<nat>, saved: bool)
    requires Apart(m) && m.watermark.Some?
    ensures Apart(Polled(m, m.watermark.value, found, gone, saved))
  {
    var w := m.watermark.value;
    if |NewUids(Recent(found, m.limit), w)| > 0 {
      var batch := Batch(m, w, found, gone);
      BatchIs(m, w, found, gone);
      MaxUidIsMax(batch);
      ClimbsFurther(m.notified, batch, m.since, Max(m.since, MaxUid(batch)));
    }
  }

  /** Whenever the process restarts, it starts at or above everything notified so far. */
  ghost predicate SafeRestarts(m: Monitor, es: seq<Event>)
    decreases |es|
  {
    |es| == 0 ||
    ((es[0].Restart? ==> NoneAbove(m.notified, Start(m.flag, m.cursor))) && SafeRestarts(Step(m, es[0]), es[1..]))
  }

  /** Across any calls, polls and safe restarts, no message is notified twice and batches only climb, whatever the
      option says and whichever cursors were saved.  Nothing is asked of the server. */
  lemma {:induction false} NeverTwice(m: Monitor, es: seq<Event>)
    requires Apart(m) && SafeRestarts(m, es)
    ensures Apart(Run(m, es))
    decreases |es|
  {
    if |es| > 0 {
      if es[0].Poll? && m.watermark.Some? {
        PollKeepsApart(m, es[0].found, es[0].gone, es[0].saved);
      }
      NeverTwice(Step(m, es[0]), es[1..]);
    }
  }

  predicate AllSaved(es: seq<Event>) {
    forall i | 0 <= i < |es| && es[i].Poll? :: es[i].saved
  }

  /** Without the option and with every cursor saved, all restarts are safe. */
  lemma {:induction false} SavedCursorsAreSafe(m: Monitor, es: seq<Event>)
    requires Inv(m) && AllSaved(es)
    ensures SafeRestarts(m, es) && Inv(Run(m, es))
    decreases |es|
  {
    if |es| > 0 {
      if es[0].Poll? && m.watermark.Some? {
        PollKeepsApart(m, es[0].found, es[0].gone, true);
      }
      assert Inv(Step(m, es[0]));
      assert AllSaved(es[1..]);
      SavedCursorsAreSafe(Step(m, es[0]), es[1..]);
    }
  }

  lemma FreshInv(flag: nat, limit: nat, cursor: Option<nat>)
    ensures var m := Monitor(flag, limit, Start(flag, cursor), None, cursor, []);
            Apart(m) && (flag == 0 ==> Inv(m))
  {
  }

  /* ----- One call ----- */

  /** The newest messages include the newest one. */
  lemma NewestIsRecent(found: seq<nat>, limit: nat, u: nat)
    requires limit > 0 && u in found
    ensures u <= MaxUid(Recent(found, limit))
  {
    var all := Sorted(found, Newer);
    SortedUids(found, Newer);
    SortedDescending(found);
    assert u in all;
    FirstIsMost(all, u);
    var recent := Recent(found, limit);
    MaxUidIsMax(recent);
    assert |recent| > 0 && recent[0] == all[0];
    assert recent[0] in recent;
  }

  lemma FirstIsMost(uids: seq<nat>, u: nat)
    requires Descending(uids) && u in uids
    ensures u <= uids[0]
  {
    var i :| 0 <= i < |uids| && uids[i] == u;
  }

  lemma BatchIsNewestFirst(m: Monitor, watermark: nat, found: seq<nat>, gone: set<nat>)
    ensures Descending(Batch(m, watermark, found, gone))
  {
    SortedDescending(Present(NewUids(Recent(found, m.limit), watermark), gone));
  }

  ghost predicate AllAbove(batch: seq<nat>, base: nat) {
    forall u | u in batch :: u > base
  }

  /** The call that started from `m` above `base` still polls, or has handed over one batch. */
  ghost predicate Called(m: Monitor, base: nat, m': Monitor) {
    if m'.watermark.Some?
    then m'.watermark.value >= base && m' == m.(watermark := m'.watermark)
    else
      exists batch :: && m'.notified == m.notified + [batch] && AllAbove(batch, base) && Descending(batch)
                      && m'.since == Max(m.since, MaxUid(batch))
                      && (m'.cursor == m.cursor || (m'.cursor == Some(m'.since) && m'.since > m.since))
                      && m'.limit == m.limit && m'.flag == m.flag
  }

  lemma PollOfCall(m: Monitor, base: nat, m': Monitor, e: Event)
    requires Called(m, base, m') && e.Poll?
    ensures Called(m, base, Step(m', e))
  {
    if m'.watermark.Some? {
      var w := m'.watermark.value;
      var batch := Batch(m', w, e.found, e.gone);
      BatchIs(m', w, e.found, e.gone);
      BatchIsNewestFirst(m', w, e.found, e.gone);
      assert AllAbove(batch, base);
    }
  }

  lemma {:induction false} PollsOfCall(m: Monitor, base: nat, m': Monitor, es: seq<Event>)
    requires Called(m, base, m') && forall i | 0 <= i < |es| :: es[i].Poll?
    ensures Called(m, base, Run(m', es))
    decreases |es|
  {
    if |es| > 0 {
      PollOfCall(m, base, m', es[0]);
      PollsOfCall(m, base, Step(m', es[0]), es[1..]);
    }
  }

  /** Whatever its polls find, a call hands over one batch at most, newest message first: only messages above the
      position and, when there is no position yet, none that was there when the call began. The position and the cursor
      follow the batch. */
  lemma CallNotifiesNew(m: Monitor, found: seq<nat>, es: seq<Event>) returns (base: nat)
    requires m.watermark.None? && m.limit > 0 && forall i | 0 <= i < |es| :: es[i].Poll?
    ensures Called(m, base, Run(Step(m, Begin(found)), es))
    ensures if m.since != 0 then base == m.since else forall u | u in found :: u <= base
  {
    base := Began(m, found).watermark.value;
    forall u | u in found
      ensures u <= MaxUid(Recent(found, m.limit))
    {
      NewestIsRecent(found, m.limit, u);
    }
    PollsOfCall(m, base, Began(m, found), es);
  }

  /* ----- Which restarts are safe ----- */

  /** A message of the first `n` batches is in a later batch again. */
  ghost predicate Repeats(batches: seq<seq<nat>>, n: nat) {
    exists i, j, u :: 0 <= i < n <= j < |batches| && u in batches[i] && u in batches[j]
  }

  /** A monitor that came from one with the batches `before` and the starting point `base`. */
  ghost predicate Beyond(m: Monitor, before: seq<seq<nat>>, base: nat) {
    && base <= Start(m.flag, m.cursor)
    && base <= m.since
    && (m.watermark.Some? ==> base <= m.watermark.value)
    && before <= m.notified
    && (forall j, u | |before| <= j < |m.notified| && u in m.notified[j] :: base < u)
  }

  lemma PollStaysBeyond(m: Monitor, before: seq<seq<nat>>, base: nat, e: Event)
    requires Beyond(m, before, base) && e.Poll? && m.watermark.Some?
    ensures Beyond(Step(m, e), before, base)
  {
    BatchIs(m, m.watermark.value, e.found, e.gone);
  }

  lemma {:induction false} RunStaysBeyond(m: Monitor, before: seq<seq<nat>>, base: nat, es: seq<Event>)
    requires Beyond(m, before, base)
    ensures Beyond(Run(m, es), before, base)
    decreases |es|
  {
    if |es| > 0 {
      if es[0].Poll? && m.watermark.Some? {
        PollStaysBeyond(m, before, base, es[0]);
      }
      RunStaysBeyond(Step(m, es[0]), before, base, es[1..]);
    }
  }

  /** The restarted monitor finds `u` again when its starting point is below. */
  lemma FoundAgain(m: Monitor, u: nat)
    requires m.limit > 0 && u > Start(m.flag, m.cursor)
    ensures Run(Restarted(m), [Begin([]), Poll([u], {}, true)]).notified == m.notified + [[u]]
  {
    var es := [Begin([]), Poll([u], {}, true)];
    var m1 := Step(Restarted(m), es[0]);
    var none: seq<nat> := [];
    assert Sorted(none, Newer) == none && MaxUid(none) == 0;
    assert m1.watermark == Some(Start(m.flag, m.cursor));
    OneNew(m1, u, Start(m.flag, m.cursor));
    var m2 := Step(m1, es[1]);
    assert m2.notified == m.notified + [[u]];
    calc {
      Run(Restarted(m), es);
      Run(m1, es[1..]);
      { assert es[1..][0] == es[1]; }
      Run(m2, es[1..][1..]);
      m2;
    }
  }

  /** The exact condition, known before the restart: a restarted monitor can notify an earlier message again, in
      some continuation, unless it starts at or above everything notified so far. */
  lemma RestartIsSafe(m: Monitor)
    requires m.limit > 0
    ensures (forall es :: !Repeats(Run(Restarted(m), es).notified, |m.notified|)) <==>
            NoneAbove(m.notified, Start(m.flag, m.cursor))
  {
    var base := Start(m.flag, m.cursor);
    if NoneAbove(m.notified, base) {
      forall es
        ensures !Repeats(Run(Restarted(m), es).notified, |m.notified|)
      {
        RunStaysBeyond(Restarted(m), m.notified, base, es);
      }
    } else {
      var i, u :| 0 <= i < |m.notified| && u in m.notified[i] && u > base;
      FoundAgain(m, u);
      var batches := Run(Restarted(m), [Begin([]), Poll([u], {}, true)]).notified;
      assert batches[i] == m.notified[i] && batches[|m.notified|] == [u];
      assert Repeats(batches, |m.notified|);
    }
  }

  /** Two restarts that are not safe: after a cursor that was not saved, and with the position of the option below
      what was notified. */
  lemma RestartRepeats()
    ensures exists m: Monitor, es: seq<Event> ::
              m.flag == 0 && m.notified == [] && m.since == Start(0, m.cursor) && Run(m, es).notified == [[2], [2]]
    ensures exists m: Monitor, es: seq<Event> ::
              m.flag != 0 && m.notified == [] && AllSaved(es) && Run(m, es).notified == [[2], [2]]
  {
    var lost := [Begin([2]), Poll([2], {}, false), Restart, Begin([2]), Poll([2], {}, false)];
    var m := Monitor(0, 20, 1, None, Some(1), []);
    RunTwice(m, false);
    assert Run(m, lost).notified == [[2], [2]];
    var kept := [Begin([2]), Poll([2], {}, true), Restart, Begin([2]), Poll([2], {}, true)];
    var n := Monitor(1, 20, 1, None, None, []);
    RunTwice(n, true);
    assert Run(n, kept).notified == [[2], [2]];
  }

  lemma RunTwice(m: Monitor, saved: bool)
    requires m.limit == 20 && m.since == 1 && m.watermark == None && m.notified == []
    requires m.flag == 1 || (m.flag == 0 && m.cursor == Some(1) && !saved)
    ensures Run(m, [Begin([2]), Poll([2], {}, saved), Restart, Begin([2]), Poll([2], {}, saved)]).notified == [[2], [2]]
  {
    var b, p := Begin([2]), Poll([2], {}, saved);
    var m1 := Step(m, b);
    OneNew(m1, 2, 1);
    var m2 := Step(m1, p);
    var m3 := Step(m2, Restart);
    var m4 := Step(m3, b);
    OneNew(m4, 2, 1);
    var m5 := Step(m4, p);
    assert m5.notified == [[2], [2]];
    var es := [b, p, Restart, b, p];
    assert es[1..] == [p, Restart, b, p] && es[1..][1..] == [Restart, b, p];
    assert es[1..][1..][1..] == [b, p] && es[1..][1..][1..][1..] == [p] && es[1..][1..][1..][1..][1..] == [];
    calc {
      Run(m, es);
      Run(m1, es[1..]);
      Run(m2, es[1..][1..]);
      Run(m3, es[1..][1..][1..]);
      Run(m4, es[1..][1..][1..][1..]);
      Run(m5, []);
      m5;
    }
  }

  lemma SortedOne(u: nat, before: (nat, nat) -> bool)
    ensures Sorted([u], before) == [u]
  {
    var none: seq<nat> := [];
    assert [u][1..] == none;
    assert Sorted(none, before) == none;
    assert Insert(u, none, before) == [u] + none;
  }

  lemma OneNew(m: Monitor, u: nat, w: nat)
    requires m.limit > 0 && w < u
    ensures Recent([u], m.limit) == [u] && NewUids([u], w) == [u] && Batch(m, w, [u], {}) == [u] && MaxUid([u]) == u
  {
    var none: seq<nat> := [];
    var one: seq<nat> := [u];
    SortedOne(u, Newer);
    SortedOne(u, Older);
    assert one[..|one| - 1] == none && one[|one| - 1] == u;
    assert Above(one, w) == none + one == one;
    assert Present(one, {}) == none + one == one;
    assert MaxUid(none) == 0;
    assert NewUids(one, w) == one;
    assert Recent(one, m.limit) == one;
  }

  /* ----- Never skipped ----- */

  /** A poll that finds everything it should: nothing disappears before it is fetched, no more than `limit`
      messages are new, and messages that were not seen before have UIDs above those that were
      (section 2.3.1.1 of RFC 3501). */
  ghost predicate Orderly(m: Monitor, seen: set<nat>, e: Event) {
    e.Poll? ==>
      && e.saved && e.gone == {}
      && (forall i, j | 0 <= i < j < |e.found| :: e.found[i] != e.found[j])
      && |Above(e.found, m.since)| <= m.limit
      && (forall u, v | u in e.found && u !in seen && v in seen :: v < u)
  }

  function Seen(m: Monitor, seen: set<nat>, e: Event): set<nat> {
    if e.Poll? && m.watermark.Some? then seen + (set u | u in e.found) else seen
  }

  ghost predicate Notified(m: Monitor, u: nat) {
    exists i :: 0 <= i < |m.notified| && u in m.notified[i]
  }

  /** Everything seen above the starting point has been notified. */
  ghost predicate Complete(m: Monitor, start: nat, seen: set<nat>) {
    && m.flag == 0 && 0 < start <= m.since == Start(0, m.cursor)
    && (m.watermark.Some? ==> m.watermark.value == m.since)
    && (m.since == start || m.since in seen)
    && (forall u | u in seen :: u <= m.since)
    && (forall u | u in seen && u > start :: Notified(m, u))
  }

  lemma OrderlyPoll(m: Monitor, start: nat, seen: set<nat>, e: Event)
    requires Complete(m, start, seen) && Orderly(m, seen, e) && e.Poll? && m.watermark.Some?
    ensures Complete(Step(m, e), start, Seen(m, seen, e))
  {
    var w := m.since;
    var recent := Recent(e.found, m.limit);
    var m' := Step(m, e);
    CutKeepsNew(e.found, m.limit, w);
    NewUidsAre(recent, w);
    if |NewUids(recent, w)| == 0 {
      assert forall u | u in e.found :: u <= w by {
        assert forall u :: u in NewUids(recent, w) <==> u in e.found && u > w;
      }
      MaxUidIsMax(recent);
      RecentAreFound(e.found, m.limit);
    } else {
      OrderlyBatch(m, start, seen, e);
    }
    forall u | u in Seen(m, seen, e) && u > start
      ensures Notified(m', u)
    {
      SeenIsNotified(m, start, seen, e, u);
    }
  }

  lemma RecentAreFound(found: seq<nat>, limit: nat)
    ensures forall u | u in Recent(found, limit) :: u in found
  {
    SortedUids(found, Newer);
  }

  lemma OrderlyBatch(m: Monitor, start: nat, seen: set<nat>, e: Event)
    requires Complete(m, start, seen) && Orderly(m, seen, e) && e.Poll? && m.watermark.Some?
    requires |NewUids(Recent(e.found, m.limit), m.since)| > 0
    ensures var batch := Batch(m, m.since, e.found, {});
            && (forall u :: u in batch <==> u in e.found && u > m.since)
            && MaxUid(batch) in e.found && MaxUid(batch) > m.since
            && forall u | u in e.found :: u <= MaxUid(batch)
  {
    var recent := Recent(e.found, m.limit);
    var batch := Batch(m, m.since, e.found, {});
    CutKeepsNew(e.found, m.limit, m.since);
    NewUidsAre(recent, m.since);
    BatchIs(m, m.since, e.found, {});
    var u := NewUids(recent, m.since)[0];
    assert u in NewUids(recent, m.since);
    assert u in batch;
    MaxUidIsMax(batch);
  }

  lemma SeenIsNotified(m: Monitor, start: nat, seen: set<nat>, e: Event, u: nat)
    requires Complete(m, start, seen) && Orderly(m, seen, e) && e.Poll? && m.watermark.Some?
    requires u in Seen(m, seen, e) && u > start
    ensures Notified(Step(m, e), u)
  {
    var m' := Step(m, e);
    if u in seen {
      var i :| 0 <= i < |m.notified| && u in m.notified[i];
      assert m'.notified[i] == m.notified[i];
    } else {
      assert u > m.since;
      CutKeepsNew(e.found, m.limit, m.since);
      NewUidsAre(Recent(e.found, m.limit), m.since);
      assert u in NewUids(Recent(e.found, m.limit), m.since);
      OrderlyBatch(m, start, seen, e);
      assert u in m'.notified[|m.notified|];
    }
  }

  function SeenIn(m: Monitor, seen: set<nat>, es: seq<Event>): set<nat>
    decreases |es|
  {
    if |es| == 0 then seen else SeenIn(Step(m, es[0]), Seen(m, seen, es[0]), es[1..])
  }

  ghost predicate AllOrderly(m: Monitor, seen: set<nat>, es: seq<Event>)
    decreases |es|
  {
    |es| == 0 || (Orderly(m, seen, es[0]) && AllOrderly(Step(m, es[0]), Seen(m, seen, es[0]), es[1..]))
  }

  /** From a saved position on, across calls and restarts, every matching message that any poll finds has
      been notified by the end of that poll. */
  lemma {:induction false} NeverSkipped(m: Monitor, start: nat, seen: set<nat>, es: seq<Event>)
    requires Complete(m, start, seen) && AllOrderly(m, seen, es)
    ensures Complete(Run(m, es), start, SeenIn(m, seen, es))
    decreases |es|
  {
    if |es| > 0 {
      if es[0].Poll? && m.watermark.Some? {
        OrderlyPoll(m, start, seen, es[0]);
      } else {
        assert Complete(Step(m, es[0]), start, Seen(m, seen, es[0])) by {
          assert forall u | Notified(m, u) :: Notified(Step(m, es[0]), u);
        }
      }
      NeverSkipped(Step(m, es[0]), start, Seen(m, seen, es[0]), es[1..]);
    }
  }
}
