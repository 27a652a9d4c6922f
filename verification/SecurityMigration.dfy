/** The stored form of the token table, and its migration from the two older files
    (internal/service/security_keys.go). */
module SecurityMigration {
  import opened SecurityKeys
  import opened Sorting
  import opened Text

  /* ----- The stored form ----- */

  /** A kept record as the file holds it. */
  function Stored(r: TokenRecord): RawRecord {
    RawRecord(r.id, r.token, ScopeTexts(r.scopes), r.createdAt, r.updatedAt)
  }

  /** What is kept of a record that is filed under a key. */
  function Normalized(key: string, raw: RawRecord): TokenRecord {
    TokenRecord(Trim(key), Trim(raw.token), NormalScopes(raw.scopes, []), Trim(raw.createdAt), Trim(raw.updatedAt))
  }

  function NormalizedAll(records: map<string, RawRecord>): map<string, TokenRecord> {
    map key | key in records :: Normalized(key, records[key])
  }

  /** A record without a name or a token is passed over. */
  predicate Filed(r: TokenRecord) {
    r.id != "" && r.token != ""
  }

  function Prepend(items: seq<RawRecord>, result: Result<seq<RawRecord>>): Result<seq<RawRecord>> {
    if result.Ok? then Ok(items + result.value) else result
  }

  /** The list written for the keys in the given order, or the error of the first record that cannot be written. */
  function WriteFrom(records: map<string, RawRecord>, keys: seq<string>,
                     owner: map<string, string>): Result<seq<RawRecord>>
    requires forall key | key in keys :: key in records
  {
    if |keys| == 0 then Ok([]) else
    var r := Normalized(keys[0], records[keys[0]]);
    if !ValidScopes(records[keys[0]].scopes) then Err(InvalidScope)
    else if !Filed(r) then WriteFrom(records, keys[1..], owner)
    else if r.token in owner && owner[r.token] != r.id then Err(TokenShared(r.token))
    else
      Prepend([Stored(r)], WriteFrom(records, keys[1..], owner[r.token := r.id]))
  }

  /** The same third party listed again. */
  function Again(existing: TokenRecord, r: TokenRecord): TokenRecord {
    existing.(scopes := existing.scopes + r.scopes,
              createdAt := if existing.createdAt == "" then r.createdAt else existing.createdAt,
              updatedAt := if r.updatedAt != "" then r.updatedAt else existing.updatedAt)
  }

  function PutItem(t: Table, r: TokenRecord): Result<Table> {
    if r.id == "" || r.token == "" then Ok(t)
    else if r.token in t.owner && t.owner[r.token] != r.id then Err(TokenShared(r.token))
    else if r.id in t.records && t.records[r.id].token != r.token then Err(MultipleTokens(r.id))
    else Ok(Table(t.records[r.id := if r.id in t.records then Again(t.records[r.id], r) else r],
                  t.owner[r.token := r.id]))
  }

  function ParseItem(t: Table, item: RawRecord): Result<Table> {
    if |item.scopes| == 0 then Err(ScopesRequired)
    else if !ValidScopes(item.scopes) then Err(InvalidScope)
    else PutItem(t, Normalized(item.id, item))
  }

  function ParseFrom(t: Table, items: seq<RawRecord>): Result<Table>
    decreases |items|
  {
    if |items| == 0 then Ok(t) else
    match ParseItem(t, items[0])
    case Ok(t') => ParseFrom(t', items[1..])
    case Err(e) => Err(e)
  }

  /** One turn of the reading loop. */
  method ReadItem(t: Table, item: RawRecord) returns (result: Result<Table>)
    ensures result == ParseItem(t, item)
  {
    if |item.scopes| == 0 {
      return Err(ScopesRequired);
    }
    var valid := ValidateScopes(item.scopes);
    if !valid {
      return Err(InvalidScope);
    }
    var scopes := NormalizeScopes(item.scopes, []);
    var r := TokenRecord(Trim(item.id), Trim(item.token), scopes, Trim(item.createdAt), Trim(item.updatedAt));
    if r.id == "" || r.token == "" {
      return Ok(t);
    }
    if r.token in t.owner && t.owner[r.token] != r.id {
      return Err(TokenShared(r.token));
    }
    var owner := t.owner[r.token := r.id];
    if r.id in t.records {
      var existing := t.records[r.id];
      if existing.token != r.token {
        return Err(MultipleTokens(r.id));
      }
      return Ok(Table(t.records[r.id := Again(existing, r)], owner));
    }
    return Ok(Table(t.records[r.id := r], owner));
  }

  method ParseSecurityTokenRecords(items: seq<RawRecord>) returns (result: Result<Table>)
    ensures result == ParseFrom(Table(map[], map[]), items)
  {
    var t: Table := Table(map[], map[]);
    for i := 0 to |items|
      invariant ParseFrom(Table(map[], map[]), items) == ParseFrom(t, items[i..])
    {
      ghost var rest := items[i..];
      assert rest[0] == items[i] && rest[1..] == items[i + 1..];
      var next := ReadItem(t, items[i]);
      if next.Err? {
        return next;
      }
      t := next.value;
    }
    return Ok(t);
  }

  /* ----- Writing and reading back ----- */

  /** No token belongs to two third parties. */
  ghost predicate TokensApart(records: map<string, TokenRecord>) {
    forall a, b | a in records && b in records && records[a].token == records[b].token :: a == b
  }

  ghost predicate Apart(keys: seq<string>) {
    forall i, j | 0 <= i < j < |keys| :: keys[i] != keys[j]
  }

  lemma StoredIsRead(r: TokenRecord)
    requires CleanRecord(r.id, r)
    ensures Normalized(r.id, Stored(r)) == r
    ensures |Stored(r).scopes| > 0 && ValidScopes(Stored(r).scopes)
  {
    ScopeTextsRoundTrip(r.scopes, []);
  }

  lemma NormalizedIsClean(key: string, raw: RawRecord)
    requires Filed(Normalized(key, raw))
    ensures CleanRecord(Normalized(key, raw).id, Normalized(key, raw))
  {
    TrimIdempotent(key);
    TrimIdempotent(raw.token);
    TrimIdempotent(raw.createdAt);
    TrimIdempotent(raw.updatedAt);
  }

  predicate FiledIn(kept: map<string, TokenRecord>, k: string) {
    k in kept && Filed(kept[k])
  }

  ghost predicate AllClean(kept: map<string, TokenRecord>) {
    forall k | FiledIn(kept, k) :: CleanRecord(kept[k].id, kept[k])
  }

  ghost predicate AllValid(records: map<string, RawRecord>) {
    forall k | k in records :: ValidScopes(records[k].scopes)
  }

  /** No token belongs to two third parties. */
  ghost predicate NoSharedToken(kept: map<string, TokenRecord>) {
    forall a, b {:trigger FiledIn(kept, a), FiledIn(kept, b)} |
      FiledIn(kept, a) && FiledIn(kept, b) && kept[a].token == kept[b].token :: kept[a].id == kept[b].id
  }

  /** No third party has two tokens. */
  ghost predicate OneTokenEach(kept: map<string, TokenRecord>) {
    forall a, b {:trigger FiledIn(kept, a), FiledIn(kept, b)} |
      FiledIn(kept, a) && FiledIn(kept, b) && kept[a].id == kept[b].id :: kept[a].token == kept[b].token
  }

  /** Every third party is filed once: no two keys differ in outer spaces only. */
  ghost predicate IdsApart(kept: map<string, TokenRecord>) {
    forall a, b {:trigger FiledIn(kept, a), FiledIn(kept, b)} |
      FiledIn(kept, a) && FiledIn(kept, b) && kept[a].id == kept[b].id :: a == b
  }

  /** The list that is written when nothing is wrong. */
  function Items(kept: map<string, TokenRecord>, keys: seq<string>): seq<RawRecord>
    requires forall key | key in keys :: key in kept
  {
    if |keys| == 0 then []
    else if Filed(kept[keys[0]]) then [Stored(kept[keys[0]])] + Items(kept, keys[1..])
    else Items(kept, keys[1..])
  }

  ghost predicate OwnersFiled(kept: map<string, TokenRecord>, owner: map<string, string>) {
    forall token | token in owner ::
      exists k :: FiledIn(kept, k) && kept[k].id == owner[token] && kept[k].token == token
  }

  lemma {:induction false} GoodRecordsAreWritten(records: map<string, RawRecord>, keys: seq<string>,
      owner: map<string, string>)
    requires AllValid(records) && NoSharedToken(NormalizedAll(records)) && OwnersFiled(NormalizedAll(records), owner)
    requires forall key | key in keys :: key in records
    ensures WriteFrom(records, keys, owner) == Ok(Items(NormalizedAll(records), keys))
    decreases |keys|
  {
    if |keys| > 0 {
      var r := NormalizedAll(records)[keys[0]];
      if FiledIn(NormalizedAll(records), keys[0]) {
        GoodRecordsAreWritten(records, keys[1..], owner[r.token := r.id]);
      } else {
        GoodRecordsAreWritten(records, keys[1..], owner);
      }
    }
  }

  /** No record in the list has a token that somebody else has. */
  predicate Unshared(kept: map<string, TokenRecord>, keys: seq<string>, owner: map<string, string>)
    requires forall key | key in keys :: key in kept
  {
    |keys| == 0 ||
    var r := kept[keys[0]];
    if !Filed(r) then Unshared(kept, keys[1..], owner)
    else (r.token in owner ==> owner[r.token] == r.id) && Unshared(kept, keys[1..], owner[r.token := r.id])
  }

  lemma {:induction false} WrittenIsUnshared(records: map<string, RawRecord>, keys: seq<string>,
      owner: map<string, string>)
    requires forall key | key in keys :: key in records
    requires WriteFrom(records, keys, owner).Ok?
    ensures (forall k | k in keys :: ValidScopes(records[k].scopes)) && Unshared(NormalizedAll(records), keys, owner)
    decreases |keys|
  {
    if |keys| > 0 {
      var r := NormalizedAll(records)[keys[0]];
      assert keys == [keys[0]] + keys[1..];
      WrittenIsUnshared(records, keys[1..], if Filed(r) then owner[r.token := r.id] else owner);
    }
  }

  lemma {:induction false} UnsharedTokens(kept: map<string, TokenRecord>, keys: seq<string>, owner: map<string, string>)
    requires forall key | key in keys :: key in kept
    requires Unshared(kept, keys, owner)
    ensures forall k | k in keys && FiledIn(kept, k) && kept[k].token in owner :: owner[kept[k].token] == kept[k].id
    ensures forall a, b {:trigger FiledIn(kept, a), FiledIn(kept, b)} |
              a in keys && b in keys && FiledIn(kept, a) && FiledIn(kept, b) && kept[a].token == kept[b].token ::
              kept[a].id == kept[b].id
    decreases |keys|
  {
    if |keys| > 0 {
      var r, rest := kept[keys[0]], keys[1..];
      assert keys == [keys[0]] + rest;
      UnsharedTokens(kept, rest, if Filed(r) then owner[r.token := r.id] else owner);
    }
  }

  /** Reading the list back, without the detour through texts. */
  function PutAll(t: Table, kept: map<string, TokenRecord>, keys: seq<string>): Result<Table>
    requires forall key | key in keys :: key in kept
    decreases |keys|
  {
    if |keys| == 0 then Ok(t)
    else
      match PutItem(t, kept[keys[0]])
      case Ok(t') => PutAll(t', kept, keys[1..])
      case Err(e) => Err(e)
  }

  lemma {:induction false} ItemsAreRead(t: Table, kept: map<string, TokenRecord>, keys: seq<string>)
    requires AllClean(kept) && forall key | key in keys :: key in kept
    ensures ParseFrom(t, Items(kept, keys)) == PutAll(t, kept, keys)
    decreases |keys|
  {
    if |keys| > 0 {
      var r, rest := kept[keys[0]], keys[1..];
      if FiledIn(kept, keys[0]) {
        StoredIsRead(r);
        assert ParseItem(t, Stored(r)) == PutItem(t, r);
        ParseFromHead(t, Stored(r), Items(kept, rest));
        if PutItem(t, r).Ok? {
          ItemsAreRead(PutItem(t, r).value, kept, rest);
        }
      } else {
        ItemsAreRead(t, kept, rest);
      }
    }
  }

  lemma ParseFromHead(t: Table, item: RawRecord, rest: seq<RawRecord>)
    ensures ParseItem(t, item).Ok? ==> ParseFrom(t, [item] + rest) == ParseFrom(ParseItem(t, item).value, rest)
    ensures ParseItem(t, item).Err? ==> ParseFrom(t, [item] + rest) == ParseItem(t, item)
  {
    assert ([item] + rest)[1..] == rest;
  }

  ghost predicate TokenFiled(kept: map<string, TokenRecord>, id: string, token: string) {
    exists k :: FiledIn(kept, k) && kept[k].id == id && kept[k].token == token
  }

  ghost predicate ScopeFiled(kept: map<string, TokenRecord>, id: string, s: Scope) {
    exists k :: FiledIn(kept, k) && kept[k].id == id && s in kept[k].scopes
  }

  /** The table read so far comes from the records. */
  ghost predicate ReadFrom(t: Table, kept: map<string, TokenRecord>) {
    && Inverse(t) && CleanRecords(t.records)
    && (forall id | id in t.records :: TokenFiled(kept, id, t.records[id].token))
    && (forall id, s | id in t.records && s in t.records[id].scopes :: ScopeFiled(kept, id, s))
  }

  /** The record is in the table, with its token and its scopes. */
  predicate Holds(t: Table, r: TokenRecord) {
    r.id in t.records && t.records[r.id].token == r.token && r.scopes <= t.records[r.id].scopes
  }

  ghost predicate Grown(t: Table, t': Table) {
    forall id | id in t.records ::
      id in t'.records && t'.records[id].token == t.records[id].token && t.records[id].scopes <= t'.records[id].scopes
  }

  lemma GrownTwice(t: Table, t1: Table, t2: Table)
    requires Grown(t, t1) && Grown(t1, t2)
    ensures Grown(t, t2)
  {
    forall id | id in t.records
      ensures id in t2.records && t2.records[id].token == t.records[id].token &&
              t.records[id].scopes <= t2.records[id].scopes
    {
      assert id in t1.records;
    }
  }

  /** The record as it is after one more listing. */
  function Listed(t: Table, r: TokenRecord): TokenRecord {
    if r.id in t.records then Again(t.records[r.id], r) else r
  }

  lemma PutSucceeds(t: Table, kept: map<string, TokenRecord>, key: string, r: TokenRecord)
    requires ReadFrom(t, kept) && NoSharedToken(kept) && OneTokenEach(kept) && FiledIn(kept, key) && r == kept[key]
    ensures PutItem(t, r) == Ok(Table(t.records[r.id := Listed(t, r)], t.owner[r.token := r.id]))
    ensures r.id in t.records ==> t.records[r.id].token == r.token
  {
    if r.token in t.owner {
      assert t.owner[r.token] in t.records && t.records[t.owner[r.token]].token == r.token;
      assert TokenFiled(kept, t.owner[r.token], r.token);
    }
    if r.id in t.records {
      assert TokenFiled(kept, r.id, t.records[r.id].token);
    }
  }

  lemma PutStaysClean(t: Table, r: TokenRecord, t': Table)
    requires Inverse(t) && CleanRecords(t.records) && CleanRecord(r.id, r) && PutItem(t, r) == Ok(t')
    ensures Inverse(t') && CleanRecords(t'.records)
  {
    PutItemKeepsInverse(t, r);
  }

  lemma PutIsReadFrom(t: Table, kept: map<string, TokenRecord>, r: TokenRecord, t': Table)
    requires ReadFrom(t, kept) && Inverse(t') && CleanRecords(t'.records)
    requires t'.records == t.records[r.id := Listed(t, r)]
    requires r.id in t.records ==> t.records[r.id].token == r.token
    requires TokenFiled(kept, r.id, r.token) && forall s | s in r.scopes :: ScopeFiled(kept, r.id, s)
    ensures ReadFrom(t', kept)
  {
    forall id, s | id in t'.records && s in t'.records[id].scopes
      ensures ScopeFiled(kept, id, s)
    {
      assert (id == r.id && s in r.scopes) || (id in t.records && s in t.records[id].scopes);
    }
  }

  lemma PutGrows(t: Table, r: TokenRecord, t': Table)
    requires t'.records == t.records[r.id := Listed(t, r)]
    requires r.id in t.records ==> t.records[r.id].token == r.token
    ensures Holds(t', r) && Grown(t, t')
  {
  }

  lemma PutWorks(t: Table, kept: map<string, TokenRecord>, key: string, r: TokenRecord) returns (t': Table)
    requires ReadFrom(t, kept) && NoSharedToken(kept) && OneTokenEach(kept) && FiledIn(kept, key) && r == kept[key]
    requires CleanRecord(r.id, r)
    ensures PutItem(t, r) == Ok(t') && ReadFrom(t', kept) && Holds(t', r) && Grown(t, t')
    ensures t'.records == t.records[r.id := Listed(t, r)]
  {
    PutSucceeds(t, kept, key, r);
    t' := Table(t.records[r.id := Listed(t, r)], t.owner[r.token := r.id]);
    PutStaysClean(t, r, t');
    PutGrows(t, r, t');
    PutIsReadFrom(t, kept, r, t');
  }

  lemma {:induction false} PutAllWorks(t: Table, kept: map<string, TokenRecord>, keys: seq<string>) returns (t': Table)
    requires AllClean(kept) && NoSharedToken(kept) && OneTokenEach(kept) && ReadFrom(t, kept)
    requires forall key | key in keys :: key in kept
    ensures PutAll(t, kept, keys) == Ok(t') && ReadFrom(t', kept) && Grown(t, t')
    ensures forall k | k in keys && FiledIn(kept, k) :: Holds(t', kept[k])
    decreases |keys|
  {
    if |keys| == 0 {
      t' := t;
    } else {
      var key, rest := keys[0], keys[1..];
      assert keys == [key] + rest;
      if FiledIn(kept, key) {
        var t1 := PutWorks(t, kept, key, kept[key]);
        t' := PutAllWorks(t1, kept, rest);
        GrownTwice(t, t1, t');
      } else {
        t' := PutAllWorks(t, kept, rest);
      }
    }
  }

  /** None of the keys has a record in the table yet. */
  ghost predicate AllNew(t: Table, kept: map<string, TokenRecord>, keys: seq<string>) {
    forall key | key in keys && FiledIn(kept, key) :: kept[key].id !in t.records
  }

  predicate Exactly(t: Table, r: TokenRecord) {
    r.id in t.records && t.records[r.id] == r
  }

  /** Records of the first table are in the second as they were. */
  predicate Includes(t': Table, t: Table) {
    forall id | id in t.records :: id in t'.records && t'.records[id] == t.records[id]
  }

  lemma OthersStayNew(t: Table, t1: Table, kept: map<string, TokenRecord>, key: string, rest: seq<string>)
    requires IdsApart(kept) && AllNew(t, kept, [key] + rest) && FiledIn(kept, key) && key !in rest
    requires t1.records == t.records[kept[key].id := Listed(t, kept[key])]
    ensures AllNew(t1, kept, rest) && Exactly(t1, kept[key]) && Includes(t1, t)
  {
    assert key in [key] + rest;
    forall k | k in rest && FiledIn(kept, k)
      ensures kept[k].id !in t1.records
    {
      assert k in [key] + rest;
    }
  }

  lemma PutNew(t: Table, kept: map<string, TokenRecord>, key: string, rest: seq<string>) returns (t1: Table)
    requires NoSharedToken(kept) && OneTokenEach(kept) && ReadFrom(t, kept)
    requires IdsApart(kept) && FiledIn(kept, key) && CleanRecord(kept[key].id, kept[key])
    requires AllNew(t, kept, [key] + rest) && key !in rest
    ensures PutItem(t, kept[key]) == Ok(t1) && ReadFrom(t1, kept) && AllNew(t1, kept, rest)
    ensures Exactly(t1, kept[key]) && Includes(t1, t)
  {
    t1 := PutWorks(t, kept, key, kept[key]);
    OthersStayNew(t, t1, kept, key, rest);
  }

  ghost predicate AllExact(t: Table, kept: map<string, TokenRecord>, keys: seq<string>) {
    forall k | k in keys && FiledIn(kept, k) :: Exactly(t, kept[k])
  }

  lemma OneMoreExact(t: Table, t1: Table, t': Table, kept: map<string, TokenRecord>, key: string, rest: seq<string>)
    requires Includes(t1, t) && Includes(t', t1) && AllExact(t', kept, rest)
    requires FiledIn(kept, key) ==> Exactly(t1, kept[key])
    ensures Includes(t', t) && AllExact(t', kept, [key] + rest)
  {
    forall k | k in [key] + rest && FiledIn(kept, k)
      ensures Exactly(t', kept[k])
    {
      assert k == key || k in rest;
    }
  }

  lemma RestApart(key: string, rest: seq<string>)
    requires Apart([key] + rest)
    ensures Apart(rest) && key !in rest
  {
    var keys := [key] + rest;
    forall i | 0 <= i < |rest|
      ensures rest[i] != key
    {
      assert keys[0] != keys[i + 1];
    }
    forall i, j | 0 <= i < j < |rest|
      ensures rest[i] != rest[j]
    {
      assert keys[i + 1] != keys[j + 1];
    }
  }

  /** With every third party filed once, every record is read back as it is kept. */
  lemma {:induction false} PutAllExact(t: Table, kept: map<string, TokenRecord>, keys: seq<string>) returns (t': Table)
    requires AllClean(kept) && NoSharedToken(kept) && OneTokenEach(kept) && ReadFrom(t, kept)
    requires IdsApart(kept) && Apart(keys) && AllNew(t, kept, keys) && forall key | key in keys :: key in kept
    ensures PutAll(t, kept, keys) == Ok(t')
    ensures Includes(t', t) && AllExact(t', kept, keys)
    decreases |keys|
  {
    if |keys| == 0 {
      t' := t;
    } else {
      var key, rest, t1 := keys[0], keys[1..], t;
      assert keys == [key] + rest;
      RestApart(key, rest);
      if FiledIn(kept, key) {
        t1 := PutNew(t, kept, key, rest);
      }
      t' := PutAllExact(t1, kept, rest);
      OneMoreExact(t, t1, t', kept, key, rest);
    }
  }

  lemma {:induction false} PutAllNeedsOneToken(t: Table, kept: map<string, TokenRecord>, keys: seq<string>)
    requires forall key | key in keys :: key in kept
    requires PutAll(t, kept, keys).Ok?
    ensures forall k | k in keys && FiledIn(kept, k) && kept[k].id in t.records ::
              t.records[kept[k].id].token == kept[k].token
    ensures forall a, b {:trigger FiledIn(kept, a), FiledIn(kept, b)} |
              a in keys && b in keys && FiledIn(kept, a) && FiledIn(kept, b) && kept[a].id == kept[b].id ::
              kept[a].token == kept[b].token
    decreases |keys|
  {
    if |keys| > 0 {
      var r, rest := kept[keys[0]], keys[1..];
      assert keys == [keys[0]] + rest;
      var t' := PutItem(t, r).value;
      if Filed(r) {
        assert r.id in t'.records && t'.records[r.id].token == r.token;
      }
      assert forall id | id in t.records :: id in t'.records && t'.records[id].token == t.records[id].token;
      PutAllNeedsOneToken(t', kept, rest);
    }
  }

  /** The table that was read tells exactly what was written: the third parties, their tokens and their scopes, and
      everything about a third party that was filed once. */
  ghost predicate ReadBack(t: Table, kept: map<string, TokenRecord>) {
    && ReadFrom(t, kept)
    && (forall k | FiledIn(kept, k) :: Holds(t, kept[k]))
    && (IdsApart(kept) ==> forall k | FiledIn(kept, k) :: Exactly(t, kept[k]))
  }

  /** What is written can be read back exactly when no third party has two tokens. */
  ghost predicate ReadsBack(items: seq<RawRecord>, kept: map<string, TokenRecord>) {
    var read := ParseFrom(Table(map[], map[]), items);
    && (read.Ok? <==> OneTokenEach(kept))
    && (read.Ok? ==> ReadBack(read.value, kept))
  }

  /** For any records and any order of writing: they are written exactly when all scopes are valid and no token is
      shared, and then they read back. */
  lemma WriteThenParse(records: map<string, RawRecord>, keys: seq<string>)
    requires Apart(keys) && forall key :: key in keys <==> key in records
    ensures var written := WriteFrom(records, keys, map[]);
            && (written.Ok? <==> AllValid(records) && NoSharedToken(NormalizedAll(records)))
            && (written.Ok? ==> ReadsBack(written.value, NormalizedAll(records)))
  {
    if WriteFrom(records, keys, map[]).Ok? {
      WrittenIsUnshared(records, keys, map[]);
      UnsharedTokens(NormalizedAll(records), keys, map[]);
    }
    if AllValid(records) && NoSharedToken(NormalizedAll(records)) {
      GoodRecordsAreWritten(records, keys, map[]);
      NormalizedAreClean(records);
      WrittenIsRead(NormalizedAll(records), keys);
    }
  }

  lemma NormalizedAreClean(records: map<string, RawRecord>)
    ensures AllClean(NormalizedAll(records))
  {
    forall k | FiledIn(NormalizedAll(records), k)
      ensures CleanRecord(NormalizedAll(records)[k].id, NormalizedAll(records)[k])
    {
      NormalizedIsClean(k, records[k]);
    }
  }

  lemma WrittenIsRead(kept: map<string, TokenRecord>, keys: seq<string>)
    requires AllClean(kept) && NoSharedToken(kept) && Apart(keys) && forall key :: key in keys <==> key in kept
    ensures ReadsBack(Items(kept, keys), kept)
  {
    var empty: Table := Table(map[], map[]);
    ItemsAreRead(empty, kept, keys);
    if PutAll(empty, kept, keys).Ok? {
      PutAllNeedsOneToken(empty, kept, keys);
    }
    if OneTokenEach(kept) {
      var t := PutAllWorks(empty, kept, keys);
      if IdsApart(kept) {
        var exact := PutAllExact(empty, kept, keys);
      }
    }
  }

  lemma PutItemKeepsInverse(t: Table, r: TokenRecord)
    requires Inverse(t) && CleanRecords(t.records) && (r.id != "" && r.token != "" ==> CleanRecord(r.id, r))
    ensures match PutItem(t, r)
            case Ok(t') => Inverse(t') && CleanRecords(t'.records)
            case Err(_) => true
  {
    if r.id != "" && r.token != "" && PutItem(t, r).Ok? {
      if r.id !in t.records {
        AddKeepsInverse(t, r);
      } else {
        AgainKeepsInverse(t, r);
      }
    }
  }

  lemma AgainKeepsInverse(t: Table, r: TokenRecord)
    requires Inverse(t) && CleanRecords(t.records) && CleanRecord(r.id, r)
    requires r.id in t.records && t.records[r.id].token == r.token
    ensures Inverse(Table(t.records[r.id := Again(t.records[r.id], r)], t.owner[r.token := r.id]))
    ensures CleanRecords(t.records[r.id := Again(t.records[r.id], r)])
  {
    var records := t.records[r.id := Again(t.records[r.id], r)];
    assert t.owner[r.token := r.id] == t.owner;
    assert CleanRecord(r.id, t.records[r.id]) && CleanRecord(r.id, Again(t.records[r.id], r));
    forall x | x in records
      ensures CleanRecord(x, records[x]) && records[x].token == t.records[x].token
    {
      assert x != r.id ==> CleanRecord(x, t.records[x]);
    }
  }

  lemma ParseItemKeepsInverse(t: Table, item: RawRecord)
    requires Inverse(t) && CleanRecords(t.records)
    ensures match ParseItem(t, item)
            case Ok(t') => Inverse(t') && CleanRecords(t'.records)
            case Err(_) => true
  {
    TrimIdempotent(item.id);
    TrimIdempotent(item.token);
    TrimIdempotent(item.createdAt);
    TrimIdempotent(item.updatedAt);
    PutItemKeepsInverse(t, Normalized(item.id, item));
  }

  /** Whatever is read is a clean table in which no token is shared. */
  lemma {:induction false} ParsedTableIsClean(t: Table, items: seq<RawRecord>)
    requires Inverse(t) && CleanRecords(t.records)
    ensures match ParseFrom(t, items)
            case Ok(t') => Inverse(t') && CleanRecords(t'.records) && TokensApart(t'.records)
            case Err(_) => true
    decreases |items|
  {
    if |items| > 0 {
      ParseItemKeepsInverse(t, items[0]);
      if ParseItem(t, items[0]).Ok? {
        ParsedTableIsClean(ParseItem(t, items[0]).value, items[1..]);
      }
    }
  }

  /* ----- The loops over a table's keys ----- */

  lemma SortedApart(keys: seq<string>)
    requires Apart(keys)
    ensures Apart(Sorted(keys, TextBefore)) && forall k :: k in Sorted(keys, TextBefore) <==> k in keys
    ensures Ordered(Sorted(keys, TextBefore), TextBefore)
  {
    SortedDistinct(keys, TextBefore, (k: string) => k);
    SortedIsPermutation(keys, TextBefore);
    var sorted := Sorted(keys, TextBefore);
    forall k
      ensures k in sorted <==> k in keys
    {
      assert k in multiset(sorted) <==> k in multiset(keys);
    }
    KeysTotal(keys);
    SortedIsOrdered(keys, TextBefore);
  }

  lemma KeysTotal(keys: seq<string>)
    requires Apart(keys)
    ensures TotalOn(keys, TextBefore)
  {
    forall i, j | 0 <= i < j < |keys|
      ensures TextBefore(keys[i], keys[j]) || TextBefore(keys[j], keys[i])
    {
      TextBeforeTotal(keys[i], keys[j]);
    }
    forall x | x in keys
      ensures !TextBefore(x, x)
    {
      TextBeforeTotal(x, x);
    }
    forall x, y, z | x in keys && y in keys && z in keys && TextBefore(x, y) && TextBefore(y, z)
      ensures TextBefore(x, z)
    {
      TextBeforeTransitive(x, y, z);
    }
  }

  method SortedKeys<R>(records: map<string, R>) returns (keys: seq<string>)
    ensures Apart(keys) && forall key :: key in keys <==> key in records
  {
    keys := [];
    var rest := records.Keys;
    while rest != {}
      invariant rest <= records.Keys
      invariant Apart(keys) && forall key :: key in keys <==> key in records && key !in rest
      decreases |rest|
    {
      var key :| key in rest;
      rest := rest - {key};
      keys := keys + [key];
    }
    SortedApart(keys);
    keys := Sorted(keys, TextBefore);
  }

  lemma PrependOne(items: seq<RawRecord>, r: RawRecord, result: Result<seq<RawRecord>>)
    ensures Prepend(items, Prepend([r], result)) == Prepend(items + [r], result)
  {
    if result.Ok? {
      assert items + ([r] + result.value) == items + [r] + result.value;
    }
  }

  method WriteKeys(records: map<string, RawRecord>, keys: seq<string>) returns (result: Result<seq<RawRecord>>)
    requires forall key | key in keys :: key in records
    ensures result == WriteFrom(records, keys, map[])
  {
    var items: seq<RawRecord> := [];
    var owner: map<string, string> := map[];
    assert keys[0..] == keys;
    PrependNothing(WriteFrom(records, keys, map[]));
    for i := 0 to |keys|
      invariant WriteFrom(records, keys, map[]) == Prepend(items, WriteFrom(records, keys[i..], owner))
    {
      ghost var rest := keys[i..];
      assert rest[0] == keys[i] && rest[1..] == keys[i + 1..];
      var record := records[keys[i]];
      var valid := ValidateScopes(record.scopes);
      if !valid {
        return Err(InvalidScope);
      }
      var scopes := NormalizeScopes(record.scopes, []);
      var r := TokenRecord(Trim(keys[i]), Trim(record.token), scopes, Trim(record.createdAt), Trim(record.updatedAt));
      if r.id == "" || r.token == "" {
        continue;
      }
      if r.token in owner && owner[r.token] != r.id {
        return Err(TokenShared(r.token));
      }
      owner := owner[r.token := r.id];
      PrependOne(items, Stored(r), WriteFrom(records, keys[i + 1..], owner));
      items := items + [Stored(r)];
    }
    assert items + [] == items;
    return Ok(items);
  }

  lemma PrependNothing(result: Result<seq<RawRecord>>)
    ensures Prepend([], result) == result
  {
    if result.Ok? {
      assert [] + result.value == result.value;
    }
  }

  method WriteSecurityTokenRecords(records: map<string, RawRecord>) returns (result: Result<seq<RawRecord>>)
    ensures result.Ok? <==> AllValid(records) && NoSharedToken(NormalizedAll(records))
    ensures result.Ok? ==> ReadsBack(result.value, NormalizedAll(records))
  {
    var keys := SortedKeys(records);
    result := WriteKeys(records, keys);
    WriteThenParse(records, keys);
  }

  /** A table in memory, as it is handed to the writer. */
  function StoredAll(records: map<string, TokenRecord>): map<string, RawRecord> {
    map id | id in records :: Stored(records[id])
  }

  lemma CleanIsNormalized(records: map<string, TokenRecord>)
    requires CleanRecords(records)
    ensures NormalizedAll(StoredAll(records)) == records && AllValid(StoredAll(records))
    ensures IdsApart(records) && OneTokenEach(records)
  {
    forall id | id in records
      ensures Normalized(id, Stored(records[id])) == records[id] && ValidScopes(Stored(records[id]).scopes)
    {
      assert CleanRecord(id, records[id]);
      StoredIsRead(records[id]);
    }
    assert forall id | FiledIn(records, id) :: CleanRecord(id, records[id]);
  }

  /** A clean table comes back as it is. */
  lemma CleanTableComesBack(records: map<string, TokenRecord>, t: Table)
    requires CleanRecords(records) && IdsApart(records) && ReadBack(t, records)
    ensures t.records == records
  {
    forall id | id in records
      ensures id in t.records && t.records[id] == records[id]
    {
      assert CleanRecord(id, records[id]);
      assert FiledIn(records, id);
    }
    forall id | id in t.records
      ensures id in records
    {
      assert TokenFiled(records, id, t.records[id].token);
      var k :| FiledIn(records, k) && records[k].id == id && records[k].token == t.records[id].token;
      assert CleanRecord(k, records[k]);
    }
  }

  /* ----- Migration ----- */

  function ClientId(n: nat): string {
    "booking-client-" + Decimal(n)
  }

  lemma ClientIdInjective(m: nat, n: nat)
    requires ClientId(m) == ClientId(n)
    ensures m == n
  {
    assert ClientId(m)[15..] == Decimal(m) && ClientId(n)[15..] == Decimal(n);
    DecimalInjective(m, n);
  }

  lemma ClientIdIsTrimmed(n: nat)
    ensures Trim(ClientId(n)) == ClientId(n)
  {
    TrimFixed(ClientId(n));
    assert ClientId(n)[|ClientId(n)| - 1] == Decimal(n)[|Decimal(n)| - 1];
  }

  /** The search for a free client id ends: every id it passes over is taken, and only so many are. */
  method NextClientId(records: map<string, TokenRecord>, counter: nat) returns (id: string, next: nat)
    ensures next > counter && id == ClientId(next - 1) && id !in records
    ensures forall n | counter <= n < next - 1 :: ClientId(n) in records
  {
    next := counter;
    ghost var tried: set<string> := {};
    while true
      invariant next >= counter
      invariant forall n | counter <= n < next :: ClientId(n) in records
      invariant forall x | x in tried :: exists n: nat :: n < next && x == ClientId(n)
      decreases records.Keys - tried
    {
      id := ClientId(next);
      if id !in records {
        next := next + 1;
        return;
      }
      assert id !in tried by {
        if id in tried {
          var n: nat :| n < next && id == ClientId(n);
          ClientIdInjective(n, next);
        }
      }
      tried := tried + {id};
      next := next + 1;
    }
  }

  predicate Named(item: RawRecord) {
    Trim(item.id) != "" && Trim(item.token) != ""
  }

  function Kept(item: RawRecord): TokenRecord {
    TokenRecord(Trim(item.id), Trim(item.token), NormalScopes(item.scopes, ["webhook"]), Trim(item.createdAt),
                Trim(item.updatedAt))
  }

  /** The older webhook list: a later valid entry for a third party replaces an earlier one. */
  function LegacyRecords(items: seq<RawRecord>): map<string, TokenRecord> {
    if |items| == 0 then map[] else
    var rest := LegacyRecords(items[..|items| - 1]);
    var item := items[|items| - 1];
    if Named(item) then rest[Trim(item.id) := Kept(item)] else rest
  }

  /** The last valid entry for a third party, or -1. */
  function LastEntry(items: seq<RawRecord>, id: string): (last: int)
    ensures -1 <= last < |items|
    ensures last >= 0 ==> Named(items[last]) && Trim(items[last].id) == id
  {
    if |items| == 0 then -1
    else if Named(items[|items| - 1]) && Trim(items[|items| - 1].id) == id then |items| - 1
    else LastEntry(items[..|items| - 1], id)
  }

  lemma {:induction false} LastEntryIsLast(items: seq<RawRecord>, id: string, i: nat)
    requires i < |items| && Named(items[i]) && Trim(items[i].id) == id
    ensures i <= LastEntry(items, id)
    decreases |items|
  {
    if i < |items| - 1 {
      assert items[..|items| - 1][i] == items[i];
      LastEntryIsLast(items[..|items| - 1], id, i);
    }
  }

  /** Of the entries for one third party the last valid one is kept. */
  lemma {:induction false} LastEntryIsKept(items: seq<RawRecord>, id: string)
    ensures id in LegacyRecords(items) <==> LastEntry(items, id) >= 0
    ensures LastEntry(items, id) >= 0 ==> LegacyRecords(items)[id] == Kept(items[LastEntry(items, id)])
    decreases |items|
  {
    if |items| > 0 {
      LastEntryIsKept(items[..|items| - 1], id);
    }
  }

  lemma {:induction false} SomeRecord(items: seq<RawRecord>)
    ensures LegacyRecords(items) == map[] <==> forall i | 0 <= i < |items| :: !Named(items[i])
    decreases |items|
  {
    if |items| > 0 {
      var init, last := items[..|items| - 1], items[|items| - 1];
      SomeRecord(init);
      assert forall i | 0 <= i < |init| :: init[i] == items[i];
      if Named(last) {
        assert Trim(last.id) in LegacyRecords(items);
      }
    }
  }

  predicate AnyNamed(items: seq<RawRecord>) {
    exists i :: 0 <= i < |items| && Named(items[i])
  }

  /** An old webhook file without any valid entry is an error. */
  method ParseLegacyWebhookRecords(items: seq<RawRecord>) returns (result: Result<map<string, TokenRecord>>)
    ensures result == if AnyNamed(items) then Ok(LegacyRecords(items)) else Err(NoValidRecords)
    ensures CleanRecords(LegacyRecords(items))
  {
    var records: map<string, TokenRecord> := map[];
    for i := 0 to |items|
      invariant records == LegacyRecords(items[..i]) && CleanRecords(records)
    {
      assert items[..i + 1][..i] == items[..i];
      var id, token := Trim(items[i].id), Trim(items[i].token);
      TrimIdempotent(items[i].id);
      TrimIdempotent(items[i].token);
      TrimIdempotent(items[i].createdAt);
      TrimIdempotent(items[i].updatedAt);
      if !(id != "" && token != "") {
        continue;
      }
      var scopes := NormalizeScopes(items[i].scopes, ["webhook"]);
      records := records[id := TokenRecord(id, token, scopes, Trim(items[i].createdAt), Trim(items[i].updatedAt))];
    }
    assert items[..|items|] == items;
    SomeRecord(items);
    if records == map[] {
      return Err(NoValidRecords);
    }
    return Ok(records);
  }

  predicate KeyOf(keys: seq<string>, k: string) {
    k != "" && exists x :: x in keys && Trim(x) == k
  }

  lemma KeyOfNext(keys: seq<string>, i: nat)
    requires i < |keys|
    ensures forall k :: KeyOf(keys[..i + 1], k) <==> KeyOf(keys[..i], k) || (k != "" && k == Trim(keys[i]))
  {
    var before, after := keys[..i], keys[..i + 1];
    assert after == before + [keys[i]];
    forall k
      ensures KeyOf(after, k) <==> KeyOf(before, k) || (k != "" && k == Trim(keys[i]))
    {
      if KeyOf(before, k) {
        var x :| x in before && Trim(x) == k;
        assert x in after;
      } else if k != "" && k == Trim(keys[i]) {
        assert keys[i] in after;
      }
    }
  }

  /** The older key list: trimmed, without blanks and repetitions, sorted; without any key, an error. */
  method ParseLegacyKeys(keys: seq<string>) returns (result: Result<seq<string>>)
    ensures result.Ok? <==> exists k :: KeyOf(keys, k)
    ensures result.Ok? ==>
              && Apart(result.value) && Ordered(result.value, TextBefore)
              && forall k :: k in result.value <==> KeyOf(keys, k)
    ensures result.Err? ==> result.error == NoValidKeys
  {
    var clean: seq<string> := [];
    for i := 0 to |keys|
      invariant Apart(clean)
      invariant forall k :: k in clean <==> KeyOf(keys[..i], k)
    {
      var trimmed := Trim(keys[i]);
      KeyOfNext(keys, i);
      if trimmed == "" {
        continue;
      }
      if trimmed in clean {
        continue;
      }
      clean := clean + [trimmed];
    }
    assert keys[..|keys|] == keys;
    if |clean| == 0 {
      return Err(NoValidKeys);
    }
    assert clean[0] in clean;
    SortedApart(clean);
    return Ok(Sorted(clean, TextBefore));
  }

  /** Merging a clean record of a third party that is not in the table yet: no error, and its token and
      scopes are covered. */
  lemma MergeNewcomer(t: Table, r: TokenRecord, defaults: seq<string>, now: string) returns (t': Table)
    requires Inverse(t) && CleanRecords(t.records) && Trim(now) == now
    requires CleanRecord(r.id, r) && r.id !in t.records
    ensures MergeRecord(t, Stored(r), defaults, now) == Ok(t')
    ensures Inverse(t') && CleanRecords(t'.records) && Covers(t', r.token, r.scopes)
    ensures t'.owner.Keys == t.owner.Keys + {r.token} && t'.records.Keys <= t.records.Keys + {r.id}
    ensures Extends(t, t') && AddsOnly(t, t', r)
  {
    t' := MergeSucceeds(t, r, defaults, now);
    ScopeTextsRoundTrip(r.scopes, defaults);
    MergeKeepsInverse(t, Stored(r), defaults, now);
    MergeCovers(t, Stored(r), defaults, now, r.token, r.scopes);
    MergeExtends(t, Stored(r), defaults, now);
    StoredAddsOnly(t, r, defaults, now);
  }

  /** The owner of the record's token has gained the record's scopes, and nobody has gained any other; owners stay. */
  ghost predicate AddsOnly(t: Table, t': Table, r: TokenRecord) {
    && (forall token :: ScopesOf(t', token) == ScopesOf(t, token) + (if token == r.token then r.scopes else {}))
    && (forall token | token in t.owner :: token in t'.owner && t'.owner[token] == t.owner[token])
    && (forall token | token in t'.owner && token !in t.owner :: t'.owner[token] == r.id)
  }

  lemma StoredAddsOnly(t: Table, r: TokenRecord, defaults: seq<string>, now: string)
    requires Inverse(t) && CleanRecord(r.id, r) && MergeRecord(t, Stored(r), defaults, now).Ok?
    ensures AddsOnly(t, MergeRecord(t, Stored(r), defaults, now).value, r)
  {
    ScopeTextsRoundTrip(r.scopes, defaults);
    forall token
      ensures var t' := MergeRecord(t, Stored(r), defaults, now).value;
              && ScopesOf(t', token) == ScopesOf(t, token) + (if token == r.token then r.scopes else {})
              && (token in t.owner ==> token in t'.owner && t'.owner[token] == t.owner[token])
              && (token in t'.owner && token !in t.owner ==> t'.owner[token] == r.id)
    {
      MergeGivesExactly(t, Stored(r), defaults, now, token);
    }
  }

  lemma MergeSucceeds(t: Table, r: TokenRecord, defaults: seq<string>, now: string) returns (t': Table)
    requires Inverse(t) && CleanRecord(r.id, r) && r.id !in t.records
    ensures MergeRecord(t, Stored(r), defaults, now) == Ok(t')
    ensures t'.owner.Keys == t.owner.Keys + {r.token} && t'.records.Keys <= t.records.Keys + {r.id}
  {
    ScopeTextsRoundTrip(r.scopes, defaults);
    MergeFailsWhen(t, Stored(r), defaults, now);
    t' := MergeRecord(t, Stored(r), defaults, now).value;
  }

  /** The tokens of the old webhook file. */
  function Tokens(webhooks: map<string, TokenRecord>): set<string> {
    set id | id in webhooks :: webhooks[id].token
  }

  /** One of the first n webhook records has this token and this scope. */
  ghost predicate Brought(webhooks: map<string, TokenRecord>, ids: seq<string>, n: nat, token: string, s: Scope)
    requires n <= |ids| && forall id | id in ids :: id in webhooks
  {
    exists j :: 0 <= j < n && webhooks[ids[j]].token == token && s in webhooks[ids[j]].scopes
  }

  /** One of the first n webhook records, that of the given third party, has this token. */
  ghost predicate BroughtBy(webhooks: map<string, TokenRecord>, ids: seq<string>, n: nat, token: string, id: string)
    requires n <= |ids| && forall id | id in ids :: id in webhooks
  {
    exists j :: 0 <= j < n && webhooks[ids[j]].token == token && ids[j] == id
  }

  /** The first n webhook records are in the table; the others are not yet, and no token and no scope is made up. */
  ghost predicate WebhooksMerged(t: Table, webhooks: map<string, TokenRecord>, ids: seq<string>, n: nat)
    requires n <= |ids| && forall id | id in ids :: id in webhooks
  {
    && Inverse(t) && CleanRecords(t.records)
    && (forall j | n <= j < |ids| :: ids[j] !in t.records)
    && (forall j | 0 <= j < n :: Covers(t, webhooks[ids[j]].token, webhooks[ids[j]].scopes))
    && t.owner.Keys <= Tokens(webhooks)
  }

  ghost predicate NothingExtra(t: Table, webhooks: map<string, TokenRecord>, ids: seq<string>, n: nat)
    requires n <= |ids| && forall id | id in ids :: id in webhooks
  {
    && (forall token, s | s in ScopesOf(t, token) :: Brought(webhooks, ids, n, token, s))
    && (forall token | token in t.owner :: BroughtBy(webhooks, ids, n, token, t.owner[token]))
  }

  lemma BroughtStays(webhooks: map<string, TokenRecord>, ids: seq<string>, n: nat, token: string, s: Scope, id: string)
    requires n < |ids| && forall x | x in ids :: x in webhooks
    ensures Brought(webhooks, ids, n, token, s) ==> Brought(webhooks, ids, n + 1, token, s)
    ensures BroughtBy(webhooks, ids, n, token, id) ==> BroughtBy(webhooks, ids, n + 1, token, id)
  {
    if Brought(webhooks, ids, n, token, s) {
      var j :| 0 <= j < n && webhooks[ids[j]].token == token && s in webhooks[ids[j]].scopes;
      assert 0 <= j < n + 1;
    }
    if BroughtBy(webhooks, ids, n, token, id) {
      var j :| 0 <= j < n && webhooks[ids[j]].token == token && ids[j] == id;
      assert 0 <= j < n + 1;
    }
  }

  lemma NextIsBrought(webhooks: map<string, TokenRecord>, ids: seq<string>, n: nat)
    requires n < |ids| && forall x | x in ids :: x in webhooks
    ensures BroughtBy(webhooks, ids, n + 1, webhooks[ids[n]].token, ids[n])
    ensures forall s | s in webhooks[ids[n]].scopes :: Brought(webhooks, ids, n + 1, webhooks[ids[n]].token, s)
  {
  }

  lemma MergeNextWebhook(t: Table, webhooks: map<string, TokenRecord>, ids: seq<string>, n: nat, now: string)
    returns (t': Table)
    requires CleanRecords(webhooks) && Apart(ids) && Trim(now) == now
    requires n < |ids| && (forall id | id in ids :: id in webhooks) && WebhooksMerged(t, webhooks, ids, n)
    requires NothingExtra(t, webhooks, ids, n)
    ensures MergeRecord(t, Stored(webhooks[ids[n]]), ["webhook"], now) == Ok(t')
    ensures WebhooksMerged(t', webhooks, ids, n + 1) && NothingExtra(t', webhooks, ids, n + 1)
  {
    assert CleanRecord(ids[n], webhooks[ids[n]]);
    t' := MergeNewcomer(t, webhooks[ids[n]], ["webhook"], now);
    WebhooksGrow(t, t', webhooks, ids, n);
    NothingMadeUp(t, t', webhooks, ids, n);
  }

  lemma WebhooksGrow(t: Table, t': Table, webhooks: map<string, TokenRecord>, ids: seq<string>, n: nat)
    requires Apart(ids) && n < |ids| && (forall id | id in ids :: id in webhooks) && WebhooksMerged(t, webhooks, ids, n)
    requires Inverse(t') && CleanRecords(t'.records) && Extends(t, t')
    requires Covers(t', webhooks[ids[n]].token, webhooks[ids[n]].scopes)
    requires t'.owner.Keys == t.owner.Keys + {webhooks[ids[n]].token} && t'.records.Keys <= t.records.Keys + {ids[n]}
    ensures WebhooksMerged(t', webhooks, ids, n + 1)
  {
    assert ids[n] in webhooks;
    forall j | 0 <= j < n + 1
      ensures Covers(t', webhooks[ids[j]].token, webhooks[ids[j]].scopes)
    {
      assert j < n ==> Covers(t, webhooks[ids[j]].token, webhooks[ids[j]].scopes);
    }
    forall j | n + 1 <= j < |ids|
      ensures ids[j] !in t'.records
    {
      assert ids[j] != ids[n] && ids[j] !in t.records.Keys;
      assert ids[j] !in t'.records.Keys;
    }
  }

  lemma NothingMadeUp(t: Table, t': Table, webhooks: map<string, TokenRecord>, ids: seq<string>, n: nat)
    requires n < |ids| && (forall id | id in ids :: id in webhooks) && NothingExtra(t, webhooks, ids, n)
    requires AddsOnly(t, t', webhooks[ids[n]]) && webhooks[ids[n]].id == ids[n]
    requires t'.owner.Keys == t.owner.Keys + {webhooks[ids[n]].token}
    ensures NothingExtra(t', webhooks, ids, n + 1)
  {
    NextIsBrought(webhooks, ids, n);
    forall token, s | s in ScopesOf(t', token)
      ensures Brought(webhooks, ids, n + 1, token, s)
    {
      BroughtStays(webhooks, ids, n, token, s, ids[n]);
    }
    forall token | token in t'.owner
      ensures BroughtBy(webhooks, ids, n + 1, token, t'.owner[token])
    {
      BroughtStays(webhooks, ids, n, token, BookingScope, t'.owner[token]);
      assert token in t'.owner.Keys;
    }
  }

  /** Some webhook record has this token and this scope. */
  ghost predicate InWebhooks(webhooks: map<string, TokenRecord>, token: string, s: Scope) {
    exists id :: id in webhooks && webhooks[id].token == token && s in webhooks[id].scopes
  }

  /** Every token of the records has an owner that had it, with exactly the scopes of the records with the token. */
  ghost predicate FromWebhooks(t: Table, webhooks: map<string, TokenRecord>) {
    && t.owner.Keys == Tokens(webhooks)
    && (forall token, s :: s in ScopesOf(t, token) <==> InWebhooks(webhooks, token, s))
    && (forall token | token in t.owner :: t.owner[token] in webhooks && webhooks[t.owner[token]].token == token)
  }

  /** Each kept record was made when the old one of the same third party was, or now if that is not known. */
  ghost predicate Dated(t: Table, webhooks: map<string, TokenRecord>, now: string) {
    forall id | id in t.records ::
      id in webhooks && t.records[id].createdAt == StampOr(webhooks[id].createdAt, now)
  }

  lemma WebhookKeepsDates(t: Table, t': Table, webhooks: map<string, TokenRecord>, id: string, now: string)
    requires Inverse(t) && Dated(t, webhooks, now) && id in webhooks && CleanRecord(id, webhooks[id])
    requires MergeRecord(t, Stored(webhooks[id]), ["webhook"], now) == Ok(t')
    ensures Dated(t', webhooks, now)
  {
    var record := Stored(webhooks[id]);
    assert Bears(record, Trim(record.token));
    forall x | x in t'.records
      ensures x in webhooks && t'.records[x].createdAt == StampOr(webhooks[x].createdAt, now)
    {
      MergeTouchesOne(t, record, ["webhook"], now, x);
    }
  }

  /** The table made from the old webhook records.  Whatever the records are, no merge fails, every token keeps an owner
      that had it, the owner has exactly the scopes of the records with the token, and no token is made up. */
  method MigrateWebhooks(table: KeyTable, webhooks: map<string, TokenRecord>, now: string)
    requires table.Contents() == Table(map[], map[]) && CleanRecords(webhooks) && Trim(now) == now
    modifies table
    ensures Inverse(table.Contents()) && CleanRecords(table.records)
    ensures FromWebhooks(table.Contents(), webhooks) && Dated(table.Contents(), webhooks, now)
  {
    var ids := SortedKeys(webhooks);
    for i := 0 to |ids|
      invariant WebhooksMerged(table.Contents(), webhooks, ids, i) && NothingExtra(table.Contents(), webhooks, ids, i)
      invariant Dated(table.Contents(), webhooks, now)
    {
      ghost var next := MergeNextWebhook(table.Contents(), webhooks, ids, i, now);
      WebhookKeepsDates(table.Contents(), next, webhooks, ids[i], now);
      var error := table.MergeSecurityRecord(Stored(webhooks[ids[i]]), ["webhook"], now);
    }
    AllWebhooksMerged(table.Contents(), webhooks, ids);
  }

  lemma AllWebhooksMerged(t: Table, webhooks: map<string, TokenRecord>, ids: seq<string>)
    requires (forall id :: id in ids <==> id in webhooks)
    requires WebhooksMerged(t, webhooks, ids, |ids|) && NothingExtra(t, webhooks, ids, |ids|)
    ensures FromWebhooks(t, webhooks)
  {
    forall id | id in webhooks
      ensures Covers(t, webhooks[id].token, webhooks[id].scopes)
    {
      var j :| 0 <= j < |ids| && ids[j] == id;
      assert Covers(t, webhooks[ids[j]].token, webhooks[ids[j]].scopes);
    }
    AllAreFromWebhooks(t, webhooks, ids);
  }

  lemma AllAreFromWebhooks(t: Table, webhooks: map<string, TokenRecord>, ids: seq<string>)
    requires (forall id :: id in ids <==> id in webhooks) && NothingExtra(t, webhooks, ids, |ids|)
    requires forall id | id in webhooks :: Covers(t, webhooks[id].token, webhooks[id].scopes)
    requires t.owner.Keys <= Tokens(webhooks)
    ensures FromWebhooks(t, webhooks)
  {
    forall token, s | s in ScopesOf(t, token)
      ensures InWebhooks(webhooks, token, s)
    {
      assert Brought(webhooks, ids, |ids|, token, s);
      var j :| 0 <= j < |ids| && webhooks[ids[j]].token == token && s in webhooks[ids[j]].scopes;
      assert ids[j] in webhooks;
    }
    forall token | token in t.owner
      ensures t.owner[token] in webhooks && webhooks[t.owner[token]].token == token
    {
      assert BroughtBy(webhooks, ids, |ids|, token, t.owner[token]);
    }
    forall token | token in Tokens(webhooks)
      ensures token in t.owner.Keys
    {
      var id :| id in webhooks && webhooks[id].token == token;
      assert Covers(t, webhooks[id].token, webhooks[id].scopes);
    }
  }

  /** The first n booking keys have joined the table that was there before. */
  ghost predicate KeysMerged(start: Table, t: Table, keys: seq<string>, n: nat)
    requires n <= |keys|
  {
    && Inverse(t) && CleanRecords(t.records)
    && (forall j | 0 <= j < n :: Covers(t, keys[j], {BookingScope}))
    && Extends(start, t)
    && (forall token | token in t.owner :: token in start.owner || token in keys)
  }

  ghost predicate OnlyKeysAdded(start: Table, t: Table, keys: seq<string>) {
    && (forall token, s | s in ScopesOf(t, token) ::
          s in ScopesOf(start, token) || (s == BookingScope && token in keys))
    && (forall token | token in start.owner :: token in t.owner && t.owner[token] == start.owner[token])
    && (forall token | token in t.owner && token !in start.owner :: IsClientId(t.owner[token]))
  }

  ghost predicate IsClientId(id: string) {
    exists n: nat :: id == ClientId(n)
  }

  /** Every key has an owner, and the owner of a key exactly the booking scope more; who owned a token still does, and a
      key of nobody's has got a client of its own. */
  ghost predicate WithKeys(start: Table, t: Table, keys: seq<string>) {
    && (forall token :: token in t.owner <==> token in start.owner || token in keys)
    && (forall token, s ::
          s in ScopesOf(t, token) <==> s in ScopesOf(start, token) || (s == BookingScope && token in keys))
    && (forall token | token in start.owner :: t.owner[token] == start.owner[token])
    && (forall token | token in t.owner && token !in start.owner :: IsClientId(t.owner[token]))
  }

  lemma AllKeysMerged(start: Table, t: Table, keys: seq<string>)
    requires KeysMerged(start, t, keys, |keys|) && OnlyKeysAdded(start, t, keys)
    ensures WithKeys(start, t, keys)
  {
    forall token, s | s in ScopesOf(start, token)
      ensures s in ScopesOf(t, token)
    {
      assert Covers(start, token, {s});
      assert Covers(t, token, {s});
    }
    forall token | token in keys
      ensures token in t.owner && BookingScope in ScopesOf(t, token)
    {
      var j :| 0 <= j < |keys| && keys[j] == token;
      assert Covers(t, keys[j], {BookingScope});
    }
  }

  function KeyRecord(id: string, key: string, now: string): RawRecord {
    RawRecord(id, key, ["booking"], now, now)
  }

  lemma BookingOnly()
    ensures ScopeTexts({BookingScope}) == ["booking"]
  {
    assert ScopeTexts({BookingScope}) == [ScopeText(BookingScope)] + [];
  }

  lemma MergeNextKey(start: Table, t: Table, keys: seq<string>, n: nat, id: string, now: string) returns (t': Table)
    requires IsClientId(id) && n < |keys| && KeysMerged(start, t, keys, n) && OnlyKeysAdded(start, t, keys)
    requires Trim(now) == now
    requires keys[n] != "" && Trim(keys[n]) == keys[n] && id != "" && Trim(id) == id && id !in t.records
    ensures MergeRecord(t, KeyRecord(id, keys[n], now), ["booking"], now) == Ok(t')
    ensures KeysMerged(start, t', keys, n + 1) && OnlyKeysAdded(start, t', keys)
  {
    var r := TokenRecord(id, keys[n], {BookingScope}, now, now);
    BookingOnly();
    assert Stored(r) == KeyRecord(id, keys[n], now);
    t' := MergeNewcomer(t, r, ["booking"], now);
    KeysGrow(start, t, t', keys, n);
    OnlyKeyIsAdded(start, t, t', keys, r);
  }

  lemma OnlyKeyIsAdded(start: Table, t: Table, t': Table, keys: seq<string>, r: TokenRecord)
    requires OnlyKeysAdded(start, t, keys) && AddsOnly(t, t', r)
    requires r.token in keys && r.scopes == {BookingScope} && IsClientId(r.id)
    ensures OnlyKeysAdded(start, t', keys)
  {
  }

  lemma KeysGrow(start: Table, t: Table, t': Table, keys: seq<string>, n: nat)
    requires n < |keys| && KeysMerged(start, t, keys, n)
    requires Inverse(t') && CleanRecords(t'.records) && Extends(t, t') && Covers(t', keys[n], {BookingScope})
    requires t'.owner.Keys == t.owner.Keys + {keys[n]}
    ensures KeysMerged(start, t', keys, n + 1)
  {
    forall j | 0 <= j < n + 1
      ensures Covers(t', keys[j], {BookingScope})
    {
      assert j < n ==> Covers(t, keys[j], {BookingScope});
    }
    forall token | token in t'.owner
      ensures token in start.owner || token in keys
    {
      assert token in t'.owner.Keys;
      assert keys[n] in keys;
    }
  }

  /** The records of `start` keep their tokens and the time they were made; every other one is made now. */
  ghost predicate DatedSince(start: Table, t: Table, now: string) {
    && (forall id | id in start.records ::
          id in t.records && t.records[id].createdAt == start.records[id].createdAt
          && t.records[id].token == start.records[id].token)
    && (forall id | id in t.records && id !in start.records :: t.records[id].createdAt == now)
  }

  lemma KeyKeepsDates(start: Table, t: Table, t': Table, id: string, key: string, now: string)
    requires Inverse(t) && DatedSince(start, t, now) && Trim(now) == now
    requires key != "" && Trim(key) == key && id != "" && Trim(id) == id && id !in t.records
    requires MergeRecord(t, KeyRecord(id, key, now), ["booking"], now) == Ok(t')
    ensures DatedSince(start, t', now)
  {
    var record := KeyRecord(id, key, now);
    assert Bears(record, Trim(record.token));
    forall x
      ensures x in start.records ==>
                x in t'.records && t'.records[x].createdAt == start.records[x].createdAt
                && t'.records[x].token == start.records[x].token
      ensures x in t'.records && x !in start.records ==> t'.records[x].createdAt == now
    {
      MergeTouchesOne(t, record, ["booking"], now, x);
    }
  }

  /** The old booking keys join the table, each under a fresh client id unless somebody has the token
      already: again no merge fails, nothing is lost, and nobody gains more than the booking scope for a booking key. */
  method MigrateKeys(table: KeyTable, keys: seq<string>, now: string)
    requires Inverse(table.Contents()) && CleanRecords(table.records) && Trim(now) == now
    requires forall k | k in keys :: k != "" && Trim(k) == k
    modifies table
    ensures Inverse(table.Contents()) && CleanRecords(table.records)
    ensures WithKeys(old(table.Contents()), table.Contents(), keys)
    ensures DatedSince(old(table.Contents()), table.Contents(), now)
  {
    var counter := 1;
    ghost var start := table.Contents();
    for i := 0 to |keys|
      invariant KeysMerged(start, table.Contents(), keys, i) && OnlyKeysAdded(start, table.Contents(), keys)
      invariant DatedSince(start, table.Contents(), now)
    {
      var id;
      id, counter := NextClientId(table.records, counter);
      ClientIdIsTrimmed(counter - 1);
      assert keys[i] in keys;
      ghost var next := MergeNextKey(start, table.Contents(), keys, i, id, now);
      KeyKeepsDates(start, table.Contents(), next, id, keys[i], now);
      var error := table.MergeSecurityRecord(KeyRecord(id, keys[i], now), ["booking"], now);
    }
    AllKeysMerged(start, table.Contents(), keys);
  }

  lemma InverseTokensApart(t: Table)
    requires Inverse(t)
    ensures TokensApart(t.records)
  {
  }

  /** A clean table in which no token is shared is written and comes back as it is. */
  method WriteTable(records: map<string, TokenRecord>) returns (written: Result<seq<RawRecord>>)
    requires CleanRecords(records) && TokensApart(records)
    ensures written.Ok?
    ensures match ParseFrom(Table(map[], map[]), written.value)
            case Ok(loaded) => loaded.records == records
            case Err(_) => false
  {
    CleanIsNormalized(records);
    written := WriteSecurityTokenRecords(StoredAll(records));
    CleanTableComesBack(records, ParseFrom(Table(map[], map[]), written.value).value);
  }

  /** The token of some third party's last valid entry. */
  ghost predicate LastToken(items: seq<RawRecord>, token: string) {
    exists id :: LastEntry(items, id) >= 0 && Trim(items[LastEntry(items, id)].token) == token
  }

  lemma TokensAreLast(items: seq<RawRecord>, token: string)
    ensures token in Tokens(LegacyRecords(items)) <==> LastToken(items, token)
  {
    if token in Tokens(LegacyRecords(items)) {
      var id :| id in LegacyRecords(items) && LegacyRecords(items)[id].token == token;
      LastEntryIsKept(items, id);
    }
    if LastToken(items, token) {
      var id :| LastEntry(items, id) >= 0 && Trim(items[LastEntry(items, id)].token) == token;
      LastEntryIsKept(items, id);
    }
  }

  /** A token that an entry lost to a later entry of its third party, and that nobody else brings along. */
  lemma SupersededTokenIsLost(id: string, first: string, second: string)
    requires Trim(id) != "" && Trim(first) != "" && Trim(second) != "" && Trim(first) != Trim(second)
    ensures var items := [RawRecord(id, first, [], "", ""), RawRecord(id, second, [], "", "")];
            Named(items[0]) && !LastToken(items, Trim(items[0].token))
  {
    var items := [RawRecord(id, first, [], "", ""), RawRecord(id, second, [], "", "")];
    forall other | LastEntry(items, other) >= 0
      ensures LastEntry(items, other) == 1
    {
      LastEntryIsLast(items, Trim(id), 1);
    }
  }

  /** The scope that some third party's last valid entry with this token has. */
  ghost predicate LastScope(items: seq<RawRecord>, token: string, s: Scope) {
    exists id :: LastEntry(items, id) >= 0 && Trim(items[LastEntry(items, id)].token) == token
                 && s in NormalScopes(items[LastEntry(items, id)].scopes, ["webhook"])
  }

  lemma ScopesAreLast(items: seq<RawRecord>, token: string, s: Scope)
    ensures LastScope(items, token, s) <==>
            InWebhooks(LegacyRecords(items), token, s)
  {
    var webhooks := LegacyRecords(items);
    if LastScope(items, token, s) {
      var id :| LastEntry(items, id) >= 0 && Trim(items[LastEntry(items, id)].token) == token
                && s in NormalScopes(items[LastEntry(items, id)].scopes, ["webhook"]);
      LastEntryIsKept(items, id);
      assert id in webhooks && webhooks[id].token == token && s in webhooks[id].scopes;
    }
    if id :| id in webhooks && webhooks[id].token == token && s in webhooks[id].scopes {
      LastEntryIsKept(items, id);
    }
  }

  /** The old files: the entries or keys, or None when there is no such file. */
  datatype OldFiles = OldFiles(webhooks: Option<seq<RawRecord>>, keys: Option<seq<string>>)

  function Entries(f: OldFiles): seq<RawRecord> {
    if f.webhooks.Some? then f.webhooks.value else []
  }

  function Keys(f: OldFiles): seq<string> {
    if f.keys.Some? then f.keys.value else []
  }

  /** Every old file there is holds something valid. */
  ghost predicate Readable(f: OldFiles) {
    && (f.webhooks.Some? ==> AnyNamed(f.webhooks.value))
    && (f.keys.Some? ==> exists k :: KeyOf(f.keys.value, k))
  }

  datatype Migration = NothingToDo | Refused(error: Error) | Migrated(written: seq<RawRecord>, table: Table)

  /** Reads the old files that are there; a missing file counts as an empty one. */
  method ReadOldFiles(f: OldFiles)
    returns (refused: Option<Error>, webhooks: map<string, TokenRecord>, keys: seq<string>)
    ensures refused.None? <==> Readable(f)
    ensures refused.None? ==>
              && webhooks == LegacyRecords(Entries(f)) && CleanRecords(webhooks)
              && forall k :: k in keys <==> KeyOf(Keys(f), k)
  {
    refused, webhooks, keys := None, map[], [];
    if f.webhooks.Some? {
      var parsed := ParseLegacyWebhookRecords(f.webhooks.value);
      if parsed.Err? {
        return Some(parsed.error), webhooks, keys;
      }
      webhooks := parsed.value;
    }
    if f.keys.Some? {
      var parsed := ParseLegacyKeys(f.keys.value);
      if parsed.Err? {
        return Some(parsed.error), webhooks, keys;
      }
      keys := parsed.value;
    }
  }

  lemma KeysAreTrimmed(f: OldFiles, keys: seq<string>)
    requires forall k :: k in keys <==> KeyOf(Keys(f), k)
    ensures forall k | k in keys :: k != "" && Trim(k) == k
  {
    forall k | k in keys
      ensures k != "" && Trim(k) == k
    {
      var x :| x in Keys(f) && Trim(x) == k;
      TrimIdempotent(x);
    }
  }

  /** The owners and their scopes come from the last valid entries and the keys, and from nothing else. */
  ghost predicate FromOldFiles(f: OldFiles, t: Table) {
    && (forall token :: token in t.owner <==> LastToken(Entries(f), token) || KeyOf(Keys(f), token))
    && (forall token, s ::
          s in ScopesOf(t, token) <==>
          LastScope(Entries(f), token, s) || (s == BookingScope && KeyOf(Keys(f), token)))
    && (forall token | token in t.owner ::
          if LastToken(Entries(f), token) then IsLastOf(Entries(f), t.owner[token], token)
          else IsClientId(t.owner[token]))
  }

  /** The last valid entry of the third party has the token. */
  predicate IsLastOf(items: seq<RawRecord>, id: string, token: string) {
    LastEntry(items, id) >= 0 && Trim(items[LastEntry(items, id)].token) == token
  }

  lemma MigratedTokens(f: OldFiles, webhooks: map<string, TokenRecord>, keys: seq<string>, start: Table, t: Table)
    requires webhooks == LegacyRecords(Entries(f)) && (forall k :: k in keys <==> KeyOf(Keys(f), k))
    requires FromWebhooks(start, webhooks) && WithKeys(start, t, keys)
    ensures FromOldFiles(f, t)
  {
    forall token
      ensures token in start.owner <==> LastToken(Entries(f), token)
      ensures token in start.owner ==> IsLastOf(Entries(f), start.owner[token], token)
    {
      TokensAreLast(Entries(f), token);
      assert token in start.owner <==> token in Tokens(webhooks);
      if token in start.owner {
        LastEntryIsKept(Entries(f), start.owner[token]);
      }
    }
    forall token, s
      ensures s in ScopesOf(start, token) <==> LastScope(Entries(f), token, s)
    {
      ScopesAreLast(Entries(f), token, s);
      assert InWebhooks(webhooks, token, s) <==> LastScope(Entries(f), token, s);
    }
  }

  /** The owner of a token was made when the last valid entry of the old list says, or now. */
  ghost predicate BornAs(f: OldFiles, t: Table, token: string, now: string) {
    token in t.owner && t.owner[token] in t.records &&
    var id := t.owner[token];
    if LastToken(Entries(f), token)
    then LastEntry(Entries(f), id) >= 0 &&
         t.records[id].createdAt == StampOr(Entries(f)[LastEntry(Entries(f), id)].createdAt, now)
    else t.records[id].createdAt == now
  }

  lemma OwnersBorn(f: OldFiles, webhooks: map<string, TokenRecord>, keys: seq<string>, start: Table, t: Table,
                   now: string, token: string)
    requires webhooks == LegacyRecords(Entries(f)) && Inverse(start) && Inverse(t)
    requires FromWebhooks(start, webhooks) && WithKeys(start, t, keys)
    requires Dated(start, webhooks, now) && DatedSince(start, t, now) && token in t.owner
    ensures BornAs(f, t, token, now)
  {
    TokensAreLast(Entries(f), token);
    assert token in start.owner <==> token in Tokens(webhooks);
    var id := t.owner[token];
    if token in start.owner {
      LastEntryIsKept(Entries(f), id);
      TrimIdempotent(Entries(f)[LastEntry(Entries(f), id)].createdAt);
    }
    assert t.records[id].token == token;
    assert id in start.records ==> start.records[id].token == token;
  }

  /** The whole migration. It is refused exactly when an old file holds nothing valid. Otherwise the old files that are
      there become one list that is written without error and read back by a later start. In it a token has an owner
      exactly when it is that of some third party's last valid entry or a booking key; its owner is one of those third
      parties, or a new client for a key of nobody's; and the owner has exactly the scopes that those entries and that
      key gave to the token. The token of an earlier entry for the same third party is dropped. */
  method Migrate(f: OldFiles, now: string) returns (m: Migration)
    requires Trim(now) == now
    ensures m.NothingToDo? <==> f == OldFiles(None, None)
    ensures m.Refused? <==> !Readable(f)
    ensures m.Migrated? ==>
              && Inverse(m.table) && CleanRecords(m.table.records)
              && (match ParseFrom(Table(map[], map[]), m.written)
                  case Ok(loaded) => loaded.records == m.table.records
                  case Err(_) => false)
              && FromOldFiles(f, m.table) && forall token | token in m.table.owner :: BornAs(f, m.table, token, now)
  {
    var refused, webhooks, keys := ReadOldFiles(f);
    if refused.Some? {
      return Refused(refused.value);
    }
    if f.webhooks.None? && f.keys.None? {
      return NothingToDo;
    }
    KeysAreTrimmed(f, keys);
    var table := new KeyTable();
    MigrateWebhooks(table, webhooks, now);
    ghost var start := table.Contents();
    MigrateKeys(table, keys, now);
    MigratedTokens(f, webhooks, keys, start, table.Contents());
    forall token | token in table.owner
      ensures BornAs(f, table.Contents(), token, now)
    {
      OwnersBorn(f, webhooks, keys, start, table.Contents(), now, token);
    }
    InverseTokensApart(table.Contents());
    var written := WriteTable(table.records);
    return Migrated(written.value, table.Contents());
  }
}
