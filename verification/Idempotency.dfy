/** The store behind the `Idempotency-Key` header of public POST requests and the middleware around it, as in
    `internal/service/public_idempotency_store.go`. The file is a map; whether a read or a write of it succeeds
    is a parameter, and so is what the wrapped handler answers. */
module Idempotency {
  import opened Text

  type Time = int
  type Hash = string

  datatype Answer = Answer(status: nat, body: string)

  datatype Record = Record(bodyHash: Hash, answer: Answer, expiresAt: Option<Time>)

  type Store = map<string, Record>

  /* ----- Keys ----- */

  function RecordKey(route: string, thirdParty: string, idempotencyKey: string): string {
    Lower(Trim(route)) + "\n" + Trim(thirdParty) + "\n" + Trim(idempotencyKey)
  }

  predicate NewlineFree(s: string) {
    forall i | 0 <= i < |s| :: s[i] != '\n'
  }

  lemma {:induction false} FirstLineUnique(a: string, b: string, x: string, y: string)
    requires NewlineFree(a) && NewlineFree(b)
    requires a + "\n" + x == b + "\n" + y
    ensures a == b && x == y
  {
    if a == "" || b == "" {
      var l, r := a + "\n" + x, b + "\n" + y;
      assert l[|a|] == '\n' && r[|b|] == '\n';
      assert l == r;
      assert a == b;
      assert x == l[1..] && y == r[1..];
    } else {
      assert a[0] == (a + "\n" + x)[0] == (b + "\n" + y)[0] == b[0];
      assert a[1..] + "\n" + x == (a + "\n" + x)[1..];
      assert b[1..] + "\n" + y == (b + "\n" + y)[1..];
      FirstLineUnique(a[1..], b[1..], x, y);
      assert a == [a[0]] + a[1..] && b == [b[0]] + b[1..];
    }
  }

  /** The composite key tells requests apart exactly by its normalised parts, as long as the route and the third
      party hold no line break. */
  lemma RecordKeyInjective(route: string, party: string, key: string, route': string, party': string, key': string)
    requires NewlineFree(Lower(Trim(route))) && NewlineFree(Trim(party))
    requires NewlineFree(Lower(Trim(route'))) && NewlineFree(Trim(party'))
    ensures RecordKey(route, party, key) == RecordKey(route', party', key') <==>
            Lower(Trim(route)) == Lower(Trim(route')) && Trim(party) == Trim(party') && Trim(key) == Trim(key')
  {
    ThreePartsUnique(Lower(Trim(route)), Trim(party), Trim(key), Lower(Trim(route')), Trim(party'), Trim(key'));
  }

  lemma ThreePartsUnique(a: string, b: string, c: string, a': string, b': string, c': string)
    requires NewlineFree(a) && NewlineFree(b) && NewlineFree(a') && NewlineFree(b')
    ensures a + "\n" + b + "\n" + c == a' + "\n" + b' + "\n" + c' <==> a == a' && b == b' && c == c'
  {
    if a + "\n" + b + "\n" + c == a' + "\n" + b' + "\n" + c' {
      var x, x' := b + "\n" + c, b' + "\n" + c';
      assert a + "\n" + b + "\n" + c == a + "\n" + x;
      assert a' + "\n" + b' + "\n" + c' == a' + "\n" + x';
      FirstLineUnique(a, a', x, x');
      FirstLineUnique(b, b', c, c');
    }
  }

  /** With a line break in the third party two different requests share a key. */
  lemma LineBreaksCollide()
    ensures RecordKey("a", "b\nc", "d") == RecordKey("a", "b", "c\nd")
  {
    TrimFixed("b\nc");
    TrimFixed("c\nd");
    TrimFixed("b");
    TrimFixed("d");
    assert "b\nc" + "\n" + "d" == "b" + "\n" + "c\nd";
    assert Lower(Trim("a")) + "\n" + "b\nc" + "\n" + "d" == Lower(Trim("a")) + "\n" + ("b\nc" + "\n" + "d");
    assert Lower(Trim("a")) + "\n" + "b" + "\n" + "c\nd" == Lower(Trim("a")) + "\n" + ("b" + "\n" + "c\nd");
  }

  /* ----- Looking up and saving ----- */

  predicate Live(r: Record, now: Time) {
    r.expiresAt.Some? && r.expiresAt.value > now
  }

  function Pruned(store: Store, now: Time): Store {
    map k | k in store && Live(store[k], now) :: store[k]
  }

  datatype Found = Missing | Conflicting | Hit(answer: Answer) | Failed

  function Find(store: Store, key: string, hash: Hash, now: Time): Found {
    if key !in store || !Live(store[key], now) then Missing
    else if store[key].bodyHash != hash then Conflicting
    else Hit(store[key].answer)
  }

  /** A lookup writes the pruned store back when pruning removed something, and fails if it cannot. */
  function Lookup(store: Store, key: string, hash: Hash, now: Time, readOk: bool, writeOk: bool): (Store, Found) {
    if !readOk then (store, Failed)
    else if Pruned(store, now) != store && !writeOk then (store, Failed)
    else (Pruned(store, now), Find(store, key, hash, now))
  }

  /** A live record with the same body hash is kept as it is; one with another hash is overwritten. */
  function Save(store: Store, key: string, hash: Hash, answer: Answer, now: Time, ttl: nat, readOk: bool,
                writeOk: bool): (Store, bool) {
    if !readOk then (store, false)
    else if Find(store, key, hash, now).Hit? then (store, true)
    else if !writeOk then (store, false)
    else (Pruned(store, now)[key := Record(hash, answer, Some(now + ttl))], true)
  }

  class PublicIdempotencyStore {
    var records: Store
    const ttl: nat

    constructor (ttl: nat)
      ensures records == map[] && this.ttl == ttl
    {
      this.records, this.ttl := map[], ttl;
    }

    static method PruneExpired(state: Store, now: Time) returns (pruned: Store, changed: bool)
      ensures pruned == Pruned(state, now)
      ensures changed <==> pruned != state
    {
      pruned, changed := state, false;
      var left := state.Keys;
      while left != {}
        invariant left <= state.Keys
        invariant pruned.Keys == (set k | k in state && (k in left || Live(state[k], now)))
        invariant forall k | k in pruned :: pruned[k] == state[k]
        invariant changed <==> exists k :: k in state && k !in left && !Live(state[k], now)
      {
        var key :| key in left;
        left := left - {key};
        var expiresAt := state[key].expiresAt;
        if expiresAt.None? {
          pruned := pruned - {key};
          changed := true;
          continue;
        }
        if expiresAt.value <= now {
          pruned := pruned - {key};
          changed := true;
        }
      }
      if changed {
        var k :| k in state && !Live(state[k], now);
        assert k !in pruned;
      }
    }

    method LookupRecord(key: string, hash: Hash, now: Time, readOk: bool, writeOk: bool) returns (found: Found)
      modifies this
      ensures (records, found) == Lookup(old(records), key, hash, now, readOk, writeOk)
    {
      if !readOk {
        return Failed;
      }
      var state, changed := PruneExpired(records, now);
      assert key in state <==> key in records && Live(records[key], now);
      if changed {
        if !writeOk {
          return Failed;
        }
        records := state;
      }
      if key !in state {
        return Missing;
      }
      if state[key].bodyHash != hash {
        return Conflicting;
      }
      return Hit(state[key].answer);
    }

    method SaveRecord(key: string, hash: Hash, answer: Answer, now: Time, readOk: bool, writeOk: bool)
      returns (saved: bool)
      modifies this
      ensures (records, saved) == Save(old(records), key, hash, answer, now, ttl, readOk, writeOk)
    {
      if !readOk {
        return false;
      }
      var state, _ := PruneExpired(records, now);
      assert key in state <==> key in records && Live(records[key], now);
      if key in state {
        if state[key].bodyHash == hash {
          return true;
        }
      }
      state := state[key := Record(hash, answer, Some(now + ttl))];
      if !writeOk {
        return false;
      }
      records := state;
      return true;
    }

    /** The middleware: one request from lookup to save. `answer` is what the handler answers if it is called. */
    method Handle(r: Request) returns (reply: Reply)
      modifies this
      ensures (records, reply) == Serve(old(records), ttl, r)
    {
      if !r.post {
        return Passed(r.answer);
      }
      if Trim(r.idempotencyKey) == "" {
        return KeyRequired;
      }
      var key := RecordKey(r.route, r.thirdParty, r.idempotencyKey);
      var found := LookupRecord(key, r.hash, r.lookupAt, r.faults.lookupRead, r.faults.lookupWrite);
      match found
      case Failed => return LookupFailed;
      case Conflicting => return Conflict;
      case Hit(answer) => return Replayed(Sent(answer));
      case Missing =>
        var capture := Sent(r.answer);
        var saved := SaveRecord(key, r.hash, capture, r.saveAt, r.faults.saveRead, r.faults.saveWrite);
        if !saved {
          return SaveFailed;
        }
        return Fresh(capture);
    }
  }

  /* ----- Requests one after the other ----- */

  /** Whether the reads and writes of the store file succeed during one request. */
  datatype Faults = Faults(lookupRead: bool, lookupWrite: bool, saveRead: bool, saveWrite: bool)

  datatype Request = Request(
    post: bool,
    route: string,
    thirdParty: string,
    idempotencyKey: string,
    hash: Hash,
    answer: Answer,
    lookupAt: Time,
    saveAt: Time,
    faults: Faults)

  datatype Reply =
    | Passed(a: Answer)
    | KeyRequired
    | LookupFailed
    | Conflict
    | Replayed(a: Answer)
    | SaveFailed
    | Fresh(a: Answer)

  /** A status that was never set is sent as 200. */
  function Sent(a: Answer): Answer {
    if a.status == 0 then Answer(200, a.body) else a
  }

  /** What the client gets is what the handler answered: its body and its status, or 200 when it set none. */
  predicate Delivers(given: Answer, got: Answer) {
    && got.body == given.body
    && (given.status != 0 ==> got.status == given.status)
    && (given.status == 0 ==> got.status == 200)
  }

  function KeyOf(r: Request): string {
    RecordKey(r.route, r.thirdParty, r.idempotencyKey)
  }

  predicate Keyed(r: Request) {
    r.post && Trim(r.idempotencyKey) != ""
  }

  predicate Invoked(reply: Reply) {
    reply.Passed? || reply.SaveFailed? || reply.Fresh?
  }

  function Serve(store: Store, ttl: nat, r: Request): (Store, Reply) {
    if !r.post then (store, Passed(r.answer))
    else if Trim(r.idempotencyKey) == "" then (store, KeyRequired)
    else
      var (store1, found) := Lookup(store, KeyOf(r), r.hash, r.lookupAt, r.faults.lookupRead, r.faults.lookupWrite);
      match found
      case Failed => (store1, LookupFailed)
      case Conflicting => (store1, Conflict)
      case Hit(answer) => (store1, Replayed(Sent(answer)))
      case Missing =>
        var (store2, saved) :=
          Save(store1, KeyOf(r), r.hash, Sent(r.answer), r.saveAt, ttl, r.faults.saveRead, r.faults.saveWrite);
        (store2, if saved then Fresh(Sent(r.answer)) else SaveFailed)
  }

  function ServeAll(store: Store, ttl: nat, rs: seq<Request>): (r: (Store, seq<Reply>))
    ensures |r.1| == |rs|
    decreases rs
  {
    if |rs| == 0 then (store, [])
    else
      var (store1, reply) := Serve(store, ttl, rs[0]);
      var (store2, replies) := ServeAll(store1, ttl, rs[1..]);
      (store2, [reply] + replies)
  }

  /** The clock never goes back during a request or from one request to the next. */
  ghost predicate Timed(now: Time, rs: seq<Request>)
    decreases rs
  {
    |rs| == 0 || (now <= rs[0].lookupAt <= rs[0].saveAt && Timed(rs[0].saveAt, rs[1..]))
  }

  lemma {:induction false} TimedAt(now: Time, rs: seq<Request>, i: nat)
    requires Timed(now, rs) && i < |rs|
    ensures now <= rs[i].lookupAt <= rs[i].saveAt
    decreases rs
  {
    if i > 0 {
      TimedAt(rs[0].saveAt, rs[1..], i - 1);
    }
  }

  /** The answers of the middleware: what they mean for the handler and the stored record. */
  lemma ReplyMeans(store: Store, ttl: nat, r: Request)
    ensures var reply := Serve(store, ttl, r).1;
            && (reply.Passed? <==> !r.post) && (reply.Passed? ==> reply.a == r.answer)
            && (reply.KeyRequired? <==> r.post && Trim(r.idempotencyKey) == "")
            && (reply.Fresh? ==> Delivers(r.answer, reply.a))
            && (reply.Replayed? ==> RecordFor(store, r) && store[KeyOf(r)].bodyHash == r.hash
                                    && Delivers(store[KeyOf(r)].answer, reply.a))
            && (reply.Conflict? ==> RecordFor(store, r) && store[KeyOf(r)].bodyHash != r.hash)
            && (reply.Fresh? || reply.SaveFailed? ==> Keyed(r) && !RecordFor(store, r))
            && (Keyed(r) && !RecordFor(store, r) && r.faults == Faults(true, true, true, true) ==> reply.Fresh?)
  {
  }

  /** There is a live record for the key when the request looks it up. */
  predicate RecordFor(store: Store, r: Request) {
    Keyed(r) && KeyOf(r) in store && Live(store[KeyOf(r)], r.lookupAt)
  }

  /** A record outlives every request that ends before it expires. */
  lemma LiveRecordSurvives(store: Store, ttl: nat, r: Request, key: string)
    requires key in store && r.lookupAt <= r.saveAt && Live(store[key], r.saveAt)
    ensures key in Serve(store, ttl, r).0 && Serve(store, ttl, r).0[key] == store[key]
  {
  }

  /** A keyed request that meets a live record is answered from it and never reaches the handler. */
  lemma LiveRecordAnswers(store: Store, ttl: nat, r: Request)
    requires Keyed(r) && KeyOf(r) in store && Live(store[KeyOf(r)], r.lookupAt)
    ensures var record := store[KeyOf(r)];
            var reply := Serve(store, ttl, r).1;
            && !Invoked(reply)
            && (!reply.LookupFailed? ==>
                  reply == if record.bodyHash == r.hash then Replayed(Sent(record.answer)) else Conflict)
            && (r.faults.lookupRead && r.faults.lookupWrite ==> !reply.LookupFailed?)
  {
  }

  lemma FreshLeavesRecord(store: Store, ttl: nat, r: Request)
    requires r.lookupAt <= r.saveAt && Serve(store, ttl, r).1.Fresh?
    ensures Keyed(r)
    ensures var store' := Serve(store, ttl, r).0;
            KeyOf(r) in store' && store'[KeyOf(r)] == Record(r.hash, Serve(store, ttl, r).1.a, Some(r.saveAt + ttl))
  {
  }

  lemma {:induction false} RecordAnswersLater(store: Store, ttl: nat, rs: seq<Request>, now: Time, j: nat, key: string)
    requires Timed(now, rs) && j < |rs| && key in store && Live(store[key], rs[j].lookupAt)
    requires Keyed(rs[j]) && KeyOf(rs[j]) == key
    ensures var record := store[key];
            var reply := ServeAll(store, ttl, rs).1[j];
            && !Invoked(reply)
            && (!reply.LookupFailed? ==>
                  reply == if record.bodyHash == rs[j].hash then Replayed(Sent(record.answer)) else Conflict)
            && (rs[j].faults.lookupRead && rs[j].faults.lookupWrite ==> !reply.LookupFailed?)
    decreases rs
  {
    if j == 0 {
      LiveRecordAnswers(store, ttl, rs[0]);
    } else {
      TimedAt(rs[0].saveAt, rs[1..], j - 1);
      LiveRecordSurvives(store, ttl, rs[0], key);
      RecordAnswersLater(Serve(store, ttl, rs[0]).0, ttl, rs[1..], rs[0].saveAt, j - 1, key);
    }
  }

  /** From a successful save until its time to live has passed, no later request with the same key reaches the
      handler: the same body gets what the handler answered then, another body is told of the conflict, and a store
      that cannot be read or written gives an error. */
  lemma {:induction false} ReplayUntilExpiry(store: Store, ttl: nat, rs: seq<Request>, now: Time, i: nat, j: nat)
    requires Timed(now, rs) && i < j < |rs|
    requires ServeAll(store, ttl, rs).1[i].Fresh?
    requires Keyed(rs[j]) && KeyOf(rs[j]) == KeyOf(rs[i]) && rs[j].lookupAt < rs[i].saveAt + ttl
    ensures var replies := ServeAll(store, ttl, rs).1;
            && Delivers(rs[i].answer, replies[i].a)
            && !Invoked(replies[j])
            && (rs[j].faults.lookupRead && rs[j].faults.lookupWrite ==>
                  if rs[j].hash == rs[i].hash
                  then replies[j].Replayed? && Delivers(rs[i].answer, replies[j].a)
                  else replies[j] == Conflict)
    decreases rs
  {
    var store1 := Serve(store, ttl, rs[0]).0;
    LaterReply(store, ttl, rs, j);
    if i == 0 {
      ReplyMeans(store, ttl, rs[0]);
      FirstIsReplayed(store, ttl, rs[0], rs[1..], j - 1);
    } else {
      LaterReply(store, ttl, rs, i);
      ReplayUntilExpiry(store1, ttl, rs[1..], rs[0].saveAt, i - 1, j - 1);
    }
  }

  /* ----- Where replays come from ----- */

  /** Request i was answered afresh for the key of request j, and its record is live when j looks it up. */
  ghost predicate Covered(rs: seq<Request>, replies: seq<Reply>, ttl: nat, i: nat, j: nat)
    requires i < |rs| == |replies| && j < |rs|
  {
    replies[i].Fresh? && KeyOf(rs[i]) == KeyOf(rs[j]) && rs[j].lookupAt < rs[i].saveAt + ttl
  }

  /** The reply to request j agrees with a record that holds this hash and this answer. */
  predicate FromRecord(r: Request, reply: Reply, hash: Hash, answer: Answer) {
    (reply.Replayed? && hash == r.hash && Delivers(answer, reply.a)) || (reply.Conflict? && hash != r.hash)
  }

  lemma RecordComesFrom(store: Store, ttl: nat, r: Request, key: string)
    requires key in Serve(store, ttl, r).0
    ensures var (store', reply) := Serve(store, ttl, r);
            || (key in store && store'[key] == store[key])
            || (reply.Fresh? && KeyOf(r) == key && store'[key] == Record(r.hash, reply.a, Some(r.saveAt + ttl)))
  {
  }

  lemma DeliveredTwice(a: Answer, b: Answer, c: Answer)
    requires Delivers(a, b) && Delivers(b, c)
    ensures Delivers(a, c)
  {
  }

  /** Nothing else is replayed: a reply that does not come from the handler goes back to a record that was there at
      the start, or to an earlier request that was answered afresh less than a time to live before. */
  lemma {:induction false} ReplaysHaveSource(store: Store, ttl: nat, rs: seq<Request>, j: nat)
    requires j < |rs|
    requires var reply := ServeAll(store, ttl, rs).1[j]; reply.Replayed? || reply.Conflict?
    ensures var replies := ServeAll(store, ttl, rs).1;
            || (RecordFor(store, rs[j]) &&
                FromRecord(rs[j], replies[j], store[KeyOf(rs[j])].bodyHash, store[KeyOf(rs[j])].answer))
            || exists i :: 0 <= i < j && Covered(rs, replies, ttl, i, j)
                           && FromRecord(rs[j], replies[j], rs[i].hash, rs[i].answer)
    decreases rs
  {
    ReplyMeans(store, ttl, rs[0]);
    if j > 0 {
      var store1, replies := Serve(store, ttl, rs[0]).0, ServeAll(store, ttl, rs).1;
      var rest := ServeAll(store1, ttl, rs[1..]).1;
      LaterReply(store, ttl, rs, j);
      ReplaysHaveSource(store1, ttl, rs[1..], j - 1);
      if i :| 0 <= i < j - 1 && Covered(rs[1..], rest, ttl, i, j - 1)
              && FromRecord(rs[j], rest[j - 1], rs[1..][i].hash, rs[1..][i].answer) {
        LaterReply(store, ttl, rs, i + 1);
        assert Covered(rs, replies, ttl, i + 1, j);
      } else {
        HeadIsSource(store, ttl, rs, j);
      }
    }
  }

  lemma HeadIsSource(store: Store, ttl: nat, rs: seq<Request>, j: nat)
    requires 0 < j < |rs|
    requires var store1 := Serve(store, ttl, rs[0]).0;
             var reply := ServeAll(store, ttl, rs).1[j];
             && RecordFor(store1, rs[j])
             && FromRecord(rs[j], reply, store1[KeyOf(rs[j])].bodyHash, store1[KeyOf(rs[j])].answer)
    ensures var replies := ServeAll(store, ttl, rs).1;
            || (RecordFor(store, rs[j]) &&
                FromRecord(rs[j], replies[j], store[KeyOf(rs[j])].bodyHash, store[KeyOf(rs[j])].answer))
            || (Covered(rs, replies, ttl, 0, j) && FromRecord(rs[j], replies[j], rs[0].hash, rs[0].answer))
  {
    var key := KeyOf(rs[j]);
    ReplyMeans(store, ttl, rs[0]);
    RecordComesFrom(store, ttl, rs[0], key);
    var (store1, first) := Serve(store, ttl, rs[0]);
    assert ServeAll(store, ttl, rs).1[0] == first;
    var reply := ServeAll(store, ttl, rs).1[j];
    if first.Fresh? && KeyOf(rs[0]) == key && reply.Replayed? && store1[key].answer == first.a {
      DeliveredTwice(rs[0].answer, first.a, reply.a);
    }
  }

  lemma LaterReply(store: Store, ttl: nat, rs: seq<Request>, k: nat)
    requires 0 < k < |rs|
    ensures ServeAll(store, ttl, rs).1[k] == ServeAll(Serve(store, ttl, rs[0]).0, ttl, rs[1..]).1[k - 1]
    ensures rs[1..][k - 1] == rs[k]
  {
  }

  lemma FirstIsReplayed(store: Store, ttl: nat, first: Request, rest: seq<Request>, j: nat)
    requires first.lookupAt <= first.saveAt && Timed(first.saveAt, rest) && j < |rest|
    requires Serve(store, ttl, first).1.Fresh?
    requires Keyed(rest[j]) && KeyOf(rest[j]) == KeyOf(first) && rest[j].lookupAt < first.saveAt + ttl
    ensures var reply := ServeAll(Serve(store, ttl, first).0, ttl, rest).1[j];
            && !Invoked(reply)
            && (rest[j].faults.lookupRead && rest[j].faults.lookupWrite ==>
                  if rest[j].hash == first.hash
                  then reply.Replayed? && Delivers(first.answer, reply.a)
                  else reply == Conflict)
  {
    ReplyMeans(store, ttl, first);
    FreshLeavesRecord(store, ttl, first);
    FreshIsSent(store, ttl, first);
    RecordAnswersLater(Serve(store, ttl, first).0, ttl, rest, first.saveAt, j, KeyOf(first));
  }

  lemma FreshIsSent(store: Store, ttl: nat, r: Request)
    requires Serve(store, ttl, r).1.Fresh?
    ensures Sent(Serve(store, ttl, r).1.a) == Serve(store, ttl, r).1.a
  {
  }

  /** So two successful handler runs for one key are at least a time to live apart. */
  lemma HandlerRunsAreApart(store: Store, ttl: nat, rs: seq<Request>, now: Time, i: nat, j: nat)
    requires Timed(now, rs) && i < j < |rs| && Keyed(rs[j]) && KeyOf(rs[j]) == KeyOf(rs[i])
    requires ServeAll(store, ttl, rs).1[i].Fresh? && Invoked(ServeAll(store, ttl, rs).1[j])
    ensures rs[i].saveAt + ttl <= rs[j].lookupAt
  {
    if rs[j].lookupAt < rs[i].saveAt + ttl {
      ReplayUntilExpiry(store, ttl, rs, now, i, j);
    }
  }

  /* ----- Pruning cannot be observed ----- */

  /** A store that keeps expired records for ever and only looks at their expiry. */
  function ServeUnpruned(store: Store, ttl: nat, r: Request): (Store, Reply) {
    if !r.post then (store, Passed(r.answer))
    else if Trim(r.idempotencyKey) == "" then (store, KeyRequired)
    else if !r.faults.lookupRead then (store, LookupFailed)
    else
      match Find(store, KeyOf(r), r.hash, r.lookupAt)
      case Conflicting => (store, Conflict)
      case Hit(answer) => (store, Replayed(Sent(answer)))
      case _ =>
        if Find(store, KeyOf(r), r.hash, r.saveAt).Hit?
        then (store, if r.faults.saveRead then Fresh(Sent(r.answer)) else SaveFailed)
        else if !r.faults.saveRead || !r.faults.saveWrite then (store, SaveFailed)
        else (store[KeyOf(r) := Record(r.hash, Sent(r.answer), Some(r.saveAt + ttl))], Fresh(Sent(r.answer)))
  }

  function ServeAllUnpruned(store: Store, ttl: nat, rs: seq<Request>): (r: (Store, seq<Reply>))
    ensures |r.1| == |rs|
    decreases rs
  {
    if |rs| == 0 then (store, [])
    else
      var (store1, reply) := ServeUnpruned(store, ttl, rs[0]);
      var (store2, replies) := ServeAllUnpruned(store1, ttl, rs[1..]);
      (store2, [reply] + replies)
  }

  lemma PrunedLater(a: Store, b: Store, now: Time, later: Time)
    requires Pruned(a, now) == Pruned(b, now) && now <= later
    ensures Pruned(a, later) == Pruned(b, later)
    ensures Pruned(Pruned(a, now), later) == Pruned(a, later)
  {
    forall k
      ensures (k in a && Live(a[k], later)) <==> (k in b && Live(b[k], later))
      ensures k in a && Live(a[k], later) ==> a[k] == b[k]
    {
      assert k in Pruned(a, now) <==> k in Pruned(b, now);
      if k in Pruned(a, now) {
        assert Pruned(a, now)[k] == Pruned(b, now)[k];
      }
    }
  }

  lemma FindInPruned(a: Store, b: Store, key: string, hash: Hash, now: Time)
    requires Pruned(a, now) == Pruned(b, now)
    ensures Find(a, key, hash, now) == Find(b, key, hash, now)
  {
    assert key in Pruned(a, now) <==> key in Pruned(b, now);
    if key in Pruned(a, now) {
      assert Pruned(a, now)[key] == Pruned(b, now)[key];
    }
  }

  /** After a lookup has pruned, a save sees and leaves the same live records. */
  lemma UnprunedSave(a: Store, b: Store, ttl: nat, r: Request)
    requires Pruned(a, r.lookupAt) == Pruned(b, r.lookupAt) && r.lookupAt <= r.saveAt
    ensures var a1, rec := Pruned(a, r.lookupAt), Record(r.hash, Sent(r.answer), Some(r.saveAt + ttl));
            && Find(a1, KeyOf(r), r.hash, r.saveAt) == Find(b, KeyOf(r), r.hash, r.saveAt)
            && Pruned(a1, r.saveAt) == Pruned(b, r.saveAt)
            && Pruned(Pruned(a1, r.saveAt)[KeyOf(r) := rec], r.saveAt) == Pruned(b[KeyOf(r) := rec], r.saveAt)
  {
    var a1 := Pruned(a, r.lookupAt);
    PrunedLater(a, b, r.lookupAt, r.saveAt);
    FindInPruned(a1, b, KeyOf(r), r.hash, r.saveAt);
    var rec := Record(r.hash, Sent(r.answer), Some(r.saveAt + ttl));
    PrunedUpdate(Pruned(a1, r.saveAt), b, KeyOf(r), rec, r.saveAt);
  }

  lemma UnprunedStep(a: Store, b: Store, ttl: nat, r: Request, now: Time)
    requires Pruned(a, now) == Pruned(b, now) && now <= r.lookupAt <= r.saveAt && r.faults.lookupWrite
    ensures Serve(a, ttl, r).1 == ServeUnpruned(b, ttl, r).1
    ensures Pruned(Serve(a, ttl, r).0, r.saveAt) == Pruned(ServeUnpruned(b, ttl, r).0, r.saveAt)
  {
    PrunedLater(a, b, now, r.lookupAt);
    PrunedLater(a, b, now, r.saveAt);
    FindInPruned(a, b, KeyOf(r), r.hash, r.lookupAt);
    UnprunedSave(a, b, ttl, r);
  }

  lemma PrunedUpdate(a: Store, b: Store, key: string, rec: Record, now: Time)
    requires a == Pruned(b, now)
    ensures Pruned(a[key := rec], now) == Pruned(b[key := rec], now)
  {
  }

  /** Every run of requests gets the same replies whether or not expired records are ever deleted. */
  lemma {:induction false} PruningUnobservable(a: Store, b: Store, ttl: nat, rs: seq<Request>, now: Time)
    requires Timed(now, rs) && Pruned(a, now) == Pruned(b, now)
    requires forall i | 0 <= i < |rs| :: rs[i].faults.lookupWrite
    ensures ServeAll(a, ttl, rs).1 == ServeAllUnpruned(b, ttl, rs).1
    decreases rs
  {
    if |rs| > 0 {
      UnprunedStep(a, b, ttl, rs[0], now);
      assert forall i | 0 <= i < |rs[1..]| :: rs[1..][i] == rs[i + 1];
      PruningUnobservable(Serve(a, ttl, rs[0]).0, ServeUnpruned(b, ttl, rs[0]).0, ttl, rs[1..], rs[0].saveAt);
    }
  }
}
