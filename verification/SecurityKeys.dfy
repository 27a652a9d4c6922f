/** Tokens of third parties: scopes, and the merge of one record into the table
    (internal/service/security_keys.go).  A stored list of scopes holds each scope once and in order, so
    it is modelled as a set. */
module SecurityKeys {
  import opened Text

  datatype Scope = BookingScope | WebhookScope

  /** A record as it is read or handed in. */
  datatype RawRecord = RawRecord(id: string, token: string, scopes: seq<string>, createdAt: string, updatedAt: string)

  /** A record as it is kept. */
  datatype TokenRecord = TokenRecord(id: string, token: string, scopes: set<Scope>, createdAt: string,
                                     updatedAt: string)

  datatype Error =
    | InvalidScope
    | ScopesRequired
    | MultipleTokens(id: string)
    | TokenShared(token: string)
    | NoValidRecords
    | NoValidKeys

  datatype Result<+T> = Ok(value: T) | Err(error: Error)

  /* ----- Scopes ----- */

  function NormalScope(s: string): Option<Scope> {
    var key := FoldKey(s);
    if key == "booking" then Some(BookingScope) else if key == "webhook" then Some(WebhookScope) else None
  }

  function ScopeText(s: Scope): string {
    match s
    case BookingScope => "booking"
    case WebhookScope => "webhook"
  }

  predicate Grants(scopes: seq<string>, scope: Scope) {
    exists s :: s in scopes && NormalScope(s) == Some(scope)
  }

  predicate ValidScopes(scopes: seq<string>) {
    forall s | s in scopes :: NormalScope(s).Some?
  }

  /** The scopes that the list names; both of them if it names none. */
  function NormalScopes(scopes: seq<string>, defaults: seq<string>): (clean: set<Scope>)
    ensures clean != {}
  {
    var all := if |scopes| == 0 then defaults else scopes;
    var named := set s: Scope | Grants(all, s);
    if named == {} then {BookingScope, WebhookScope} else named
  }

  method NormalizeScopes(scopes: seq<string>, defaults: seq<string>) returns (clean: set<Scope>)
    ensures clean == NormalScopes(scopes, defaults)
  {
    var merged := scopes;
    if |merged| == 0 {
      merged := defaults;
    }
    clean := {};
    for i := 0 to |merged|
      invariant forall s :: s in clean <==> Grants(merged[..i], s)
    {
      GrantsNext(merged, i);
      var normalized := NormalScope(merged[i]);
      if normalized.None? {
        continue;
      }
      clean := clean + {normalized.value};
    }
    assert merged[..|merged|] == merged;
    assert clean == set s: Scope | Grants(merged, s);
    if clean == {} {
      clean := {BookingScope, WebhookScope};
    }
  }

  lemma GrantsNext(scopes: seq<string>, i: nat)
    requires i < |scopes|
    ensures forall s :: Grants(scopes[..i + 1], s) <==> Grants(scopes[..i], s) || NormalScope(scopes[i]) == Some(s)
  {
    assert scopes[..i + 1] == scopes[..i] + [scopes[i]];
  }

  method ValidateScopes(scopes: seq<string>) returns (ok: bool)
    ensures ok == ValidScopes(scopes)
  {
    for i := 0 to |scopes|
      invariant forall j | 0 <= j < i :: NormalScope(scopes[j]).Some?
    {
      if NormalScope(scopes[i]).None? {
        return false;
      }
    }
    return true;
  }

  /** The names of the scopes, in the order in which they are written. */
  function ScopeTexts(scopes: set<Scope>): seq<string> {
    (if BookingScope in scopes then [ScopeText(BookingScope)] else [])
    + (if WebhookScope in scopes then [ScopeText(WebhookScope)] else [])
  }

  lemma ScopeTextIsItsName(s: Scope)
    ensures NormalScope(ScopeText(s)) == Some(s)
  {
    TrimFixed(ScopeText(s));
    assert Lower(ScopeText(s)) == ScopeText(s);
  }

  lemma ScopeTextsAre(scopes: set<Scope>, x: string)
    ensures x in ScopeTexts(scopes) <==> exists s: Scope :: s in scopes && x == ScopeText(s)
  {
    if x in ScopeTexts(scopes) {
      var s := if BookingScope in scopes && x == ScopeText(BookingScope) then BookingScope else WebhookScope;
      assert s in scopes && x == ScopeText(s);
    }
  }

  lemma ScopeTextsGrant(scopes: set<Scope>, s: Scope)
    ensures Grants(ScopeTexts(scopes), s) <==> s in scopes
    ensures ValidScopes(ScopeTexts(scopes))
  {
    forall x | x in ScopeTexts(scopes)
      ensures exists t: Scope :: t in scopes && NormalScope(x) == Some(t)
    {
      ScopeTextsAre(scopes, x);
      var t: Scope :| t in scopes && x == ScopeText(t);
      ScopeTextIsItsName(t);
    }
    if s in scopes {
      ScopeTextsAre(scopes, ScopeText(s));
      ScopeTextIsItsName(s);
    }
  }

  /** Writing and reading a kept set of scopes changes nothing. */
  lemma ScopeTextsRoundTrip(scopes: set<Scope>, defaults: seq<string>)
    requires scopes != {}
    ensures |ScopeTexts(scopes)| > 0 && ValidScopes(ScopeTexts(scopes))
    ensures NormalScopes(ScopeTexts(scopes), defaults) == scopes
  {
    var s :| s in scopes;
    ScopeTextsGrant(scopes, s);
    forall x: Scope
      ensures Grants(ScopeTexts(scopes), x) <==> x in scopes
    {
      ScopeTextsGrant(scopes, x);
    }
    assert scopes == set x: Scope | Grants(ScopeTexts(scopes), x);
  }

  /* ----- The table and its inverse ----- */

  datatype Table = Table(records: map<string, TokenRecord>, owner: map<string, string>)

  /** A kept record: named, with a token, at least one scope, and no space around its texts. */
  predicate CleanRecord(id: string, r: TokenRecord) {
    && r.id == id != "" && Trim(id) == id
    && r.token != "" && Trim(r.token) == r.token
    && r.scopes != {}
    && Trim(r.createdAt) == r.createdAt && Trim(r.updatedAt) == r.updatedAt
  }

  ghost predicate CleanRecords(records: map<string, TokenRecord>) {
    forall id | id in records :: CleanRecord(id, records[id])
  }

  /** `owner` is exactly the inverse of the records' token column. */
  ghost predicate Inverse(t: Table) {
    && (forall id | id in t.records :: t.records[id].token in t.owner && t.owner[t.records[id].token] == id)
    && (forall token | token in t.owner :: t.owner[token] in t.records && t.records[t.owner[token]].token == token)
  }

  /** Every owner has a record. */
  ghost predicate OwnersKnown(t: Table) {
    forall token | token in t.owner :: t.owner[token] in t.records
  }

  function Tidy(r: RawRecord, defaults: seq<string>, now: string): TokenRecord {
    TokenRecord(Trim(r.id), Trim(r.token), NormalScopes(r.scopes, defaults),
                if Trim(r.createdAt) == "" then now else Trim(r.createdAt),
                if Trim(r.updatedAt) == "" then now else Trim(r.updatedAt))
  }

  function Joined(existing: TokenRecord, r: TokenRecord): TokenRecord {
    existing.(scopes := existing.scopes + r.scopes, updatedAt := r.updatedAt)
  }

  function MergeTidy(t: Table, r: TokenRecord): Result<Table> {
    if r.id == "" || r.token == "" then Ok(t)
    else if r.token in t.owner && t.owner[r.token] in t.records then
      Ok(t.(records := t.records[t.owner[r.token] := Joined(t.records[t.owner[r.token]], r)]))
    else if r.id in t.records then
      if t.records[r.id].token != r.token then Err(MultipleTokens(r.id))
      else Ok(Table(t.records[r.id := Joined(t.records[r.id], r)], t.owner[r.token := t.records[r.id].id]))
    else Ok(Table(t.records[r.id := r], t.owner[r.token := r.id]))
  }

  function MergeRecord(t: Table, record: RawRecord, defaults: seq<string>, now: string): Result<Table> {
    if !ValidScopes(record.scopes) then Err(InvalidScope) else MergeTidy(t, Tidy(record, defaults, now))
  }

  class KeyTable {
    var records: map<string, TokenRecord>
    var owner: map<string, string>

    constructor ()
      ensures Contents() == Table(map[], map[])
    {
      records, owner := map[], map[];
    }

    function Contents(): Table
      reads this
    {
      Table(records, owner)
    }

    method MergeTidyRecord(r: TokenRecord) returns (error: Option<Error>)
      requires OwnersKnown(Contents())
      modifies this
      ensures match MergeTidy(old(Contents()), r)
              case Ok(t) => error == None && Contents() == t
              case Err(e) => error == Some(e) && Contents() == old(Contents())
    {
      if r.id == "" || r.token == "" {
        return None;
      }
      if r.token in owner {
        var existing := records[owner[r.token]];
        records := records[owner[r.token] := Joined(existing, r)];
        return None;
      }
      if r.id in records {
        var existing := records[r.id];
        if existing.token != r.token {
          return Some(MultipleTokens(r.id));
        }
        records := records[r.id := Joined(existing, r)];
        owner := owner[existing.token := existing.id];
        return None;
      }
      records := records[r.id := r];
      owner := owner[r.token := r.id];
      return None;
    }

    method MergeSecurityRecord(record: RawRecord, defaults: seq<string>, now: string) returns (error: Option<Error>)
      requires OwnersKnown(Contents())
      modifies this
      ensures match MergeRecord(old(Contents()), record, defaults, now)
              case Ok(t) => error == None && Contents() == t
              case Err(e) => error == Some(e) && Contents() == old(Contents())
    {
      var valid := ValidateScopes(record.scopes);
      if !valid {
        return Some(InvalidScope);
      }
      var scopes := NormalizeScopes(record.scopes, defaults);
      var r := TokenRecord(Trim(record.id), Trim(record.token), scopes, Trim(record.createdAt), Trim(record.updatedAt));
      if r.createdAt == "" {
        r := r.(createdAt := now);
      }
      if r.updatedAt == "" {
        r := r.(updatedAt := now);
      }
      error := MergeTidyRecord(r);
    }
  }

  lemma TidyIsClean(record: RawRecord, defaults: seq<string>, now: string)
    requires Trim(now) == now
    ensures var r := Tidy(record, defaults, now);
            r.id != "" && r.token != "" ==> CleanRecord(r.id, r)
  {
    TrimIdempotent(record.id);
    TrimIdempotent(record.token);
    TrimIdempotent(record.createdAt);
    TrimIdempotent(record.updatedAt);
  }

  lemma JoinKeepsInverse(t: Table, id: string, r: TokenRecord)
    requires Inverse(t) && CleanRecords(t.records) && id in t.records && r.scopes != {} &&
             Trim(r.updatedAt) == r.updatedAt
    ensures Inverse(t.(records := t.records[id := Joined(t.records[id], r)]))
    ensures CleanRecords(t.records[id := Joined(t.records[id], r)])
  {
    var joined := Joined(t.records[id], r);
    var records := t.records[id := joined];
    assert CleanRecord(id, t.records[id]);
    assert CleanRecord(id, joined);
    forall x | x in records
      ensures CleanRecord(x, records[x]) && records[x].token == t.records[x].token
    {
      assert x != id ==> CleanRecord(x, t.records[x]);
    }
  }

  lemma AddKeepsInverse(t: Table, r: TokenRecord)
    requires Inverse(t) && CleanRecords(t.records) && CleanRecord(r.id, r) && r.id !in t.records && r.token !in t.owner
    ensures Inverse(Table(t.records[r.id := r], t.owner[r.token := r.id])) && CleanRecords(t.records[r.id := r])
  {
    InverseGrows(t, r.id, r);
    var records := t.records[r.id := r];
    forall x | x in records
      ensures CleanRecord(x, records[x])
    {
      assert x != r.id ==> CleanRecord(x, t.records[x]);
    }
  }

  lemma InverseGrows(t: Table, key: string, r: TokenRecord)
    requires Inverse(t) && key !in t.records && r.token !in t.owner
    ensures Inverse(Table(t.records[key := r], t.owner[r.token := key]))
  {
  }

  lemma MergeTidyKeepsInverse(t: Table, r: TokenRecord)
    requires Inverse(t) && CleanRecords(t.records) && (r.id != "" && r.token != "" ==> CleanRecord(r.id, r))
    ensures match MergeTidy(t, r)
            case Ok(t') => Inverse(t') && CleanRecords(t'.records)
            case Err(_) => true
  {
    if r.id != "" && r.token != "" {
      if r.token in t.owner {
        JoinKeepsInverse(t, t.owner[r.token], r);
      } else if r.id !in t.records {
        AddKeepsInverse(t, r);
      }
    }
  }

  /** A merge keeps `owner` the inverse of the records, and the records clean. */
  lemma MergeKeepsInverse(t: Table, record: RawRecord, defaults: seq<string>, now: string)
    requires Inverse(t) && CleanRecords(t.records) && Trim(now) == now
    ensures match MergeRecord(t, record, defaults, now)
            case Ok(t') => Inverse(t') && CleanRecords(t'.records)
            case Err(_) => true
  {
    TidyIsClean(record, defaults, now);
    MergeTidyKeepsInverse(t, Tidy(record, defaults, now));
  }

  /** The merge refuses a record exactly when a scope is unknown, or when the third party already has
      another token and the new one belongs to nobody. */
  lemma MergeFailsWhen(t: Table, record: RawRecord, defaults: seq<string>, now: string)
    requires Inverse(t)
    ensures MergeRecord(t, record, defaults, now).Err? <==>
            || !ValidScopes(record.scopes)
            || (Trim(record.id) in t.records && Trim(record.id) != "" && Trim(record.token) !in t.owner &&
                Trim(record.token) != "")
  {
  }

  /** The scopes that the owner of a token has. */
  function ScopesOf(t: Table, token: string): set<Scope> {
    if token in t.owner && t.owner[token] in t.records then t.records[t.owner[token]].scopes else {}
  }

  predicate Covers(t: Table, token: string, scopes: set<Scope>) {
    token in t.owner && scopes <= ScopesOf(t, token)
  }

  lemma MergeTidyCovers(t: Table, r: TokenRecord, token: string, scopes: set<Scope>)
    requires Inverse(t) && MergeTidy(t, r).Ok?
    requires Covers(t, token, scopes) || (token == r.token != "" && r.id != "" && scopes == r.scopes)
    ensures Covers(MergeTidy(t, r).value, token, scopes)
  {
  }

  /** A merge takes no token and no scope away from anybody, and gives the record's token an owner with
      the record's scopes. */
  lemma MergeCovers(t: Table, record: RawRecord, defaults: seq<string>, now: string, token: string, scopes: set<Scope>)
    requires Inverse(t) && MergeRecord(t, record, defaults, now).Ok?
    requires Covers(t, token, scopes) ||
             (token == Trim(record.token) != "" && Trim(record.id) != "" &&
              scopes == NormalScopes(record.scopes, defaults))
    ensures Covers(MergeRecord(t, record, defaults, now).value, token, scopes)
  {
    MergeTidyCovers(t, Tidy(record, defaults, now), token, scopes);
  }

  /* ----- Exactly what a merge changes ----- */

  /** The record has a name and a token; any other is passed over. */
  predicate Bears(record: RawRecord, token: string) {
    Trim(record.id) != "" && Trim(record.token) != "" && token == Trim(record.token)
  }

  /** A merge gives the scopes of the record to the owner of its token, and no scope to anybody else. Owners stay; a
      token without one gets the third party of the record. */
  lemma MergeGivesExactly(t: Table, record: RawRecord, defaults: seq<string>, now: string, token: string)
    requires Inverse(t) && MergeRecord(t, record, defaults, now).Ok?
    ensures var t' := MergeRecord(t, record, defaults, now).value;
            && ScopesOf(t', token) ==
               (if Bears(record, token) then ScopesOf(t, token) + NormalScopes(record.scopes, defaults)
                else ScopesOf(t, token))
            && (token in t'.owner <==> token in t.owner || Bears(record, token))
            && (token in t.owner ==> t'.owner[token] == t.owner[token])
            && (token !in t.owner && Bears(record, token) ==> t'.owner[token] == Trim(record.id))
  {
    TidyGivesExactly(t, Tidy(record, defaults, now), token);
  }

  lemma TidyGivesExactly(t: Table, r: TokenRecord, token: string)
    requires Inverse(t) && MergeTidy(t, r).Ok?
    ensures var t' := MergeTidy(t, r).value;
            var bears := r.id != "" && r.token != "" && token == r.token;
            && ScopesOf(t', token) == (if bears then ScopesOf(t, token) + r.scopes else ScopesOf(t, token))
            && (token in t'.owner <==> token in t.owner || bears)
            && (token in t.owner ==> t'.owner[token] == t.owner[token])
            && (token !in t.owner && bears ==> t'.owner[token] == r.id)
  {
  }

  /** The text if there is any, else the time of the merge. */
  function StampOr(text: string, now: string): string {
    if Trim(text) != "" then Trim(text) else now
  }

  /** A merge touches one record at most: that of the token's owner is updated, and a new third party gets one of its
      own with the times of the record. */
  lemma MergeTouchesOne(t: Table, record: RawRecord, defaults: seq<string>, now: string, id: string)
    requires Inverse(t) && MergeRecord(t, record, defaults, now).Ok? && Bears(record, Trim(record.token))
    ensures var t' := MergeRecord(t, record, defaults, now).value;
            var owner := if Trim(record.token) in t.owner then t.owner[Trim(record.token)] else Trim(record.id);
            && owner in t'.records
            && (id != owner ==> (id in t'.records <==> id in t.records))
            && (id != owner && id in t.records ==> t'.records[id] == t.records[id])
            && t'.records[owner].token == Trim(record.token)
            && t'.records[owner].updatedAt == StampOr(record.updatedAt, now)
            && (owner in t.records ==> t'.records[owner].id == t.records[owner].id
                                       && t'.records[owner].createdAt == t.records[owner].createdAt)
            && (owner !in t.records ==> t'.records[owner].id == owner
                                        && t'.records[owner].createdAt == StampOr(record.createdAt, now))
  {
  }

  /** Whatever one table covers, the other does. */
  ghost predicate Extends(t: Table, t': Table) {
    forall token, scopes | Covers(t, token, scopes) :: Covers(t', token, scopes)
  }

  lemma MergeExtends(t: Table, record: RawRecord, defaults: seq<string>, now: string)
    requires Inverse(t) && MergeRecord(t, record, defaults, now).Ok?
    ensures Extends(t, MergeRecord(t, record, defaults, now).value)
  {
    forall token, scopes | Covers(t, token, scopes)
      ensures Covers(MergeRecord(t, record, defaults, now).value, token, scopes)
    {
      MergeCovers(t, record, defaults, now, token, scopes);
    }
  }
}
