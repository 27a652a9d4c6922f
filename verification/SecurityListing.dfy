/** What the list of third parties means: which scopes a text grants, and what is kept of the items of one third party,
    wherever they stand in the list (internal/service/security_keys.go). */
module SecurityListing {
  import opened SecurityKeys
  import opened SecurityMigration
  import opened Text

  /* ----- Scopes ----- */

  /** Some text of the list reads as the scope's name, in any case and with spaces around it. */
  ghost predicate Names(scopes: seq<string>, s: Scope) {
    exists x :: x in scopes && FoldKey(x) == (if s == BookingScope then "booking" else "webhook")
  }

  lemma GrantsWhatIsNamed(scopes: seq<string>, s: Scope)
    ensures Grants(scopes, s) <==> Names(scopes, s)
  {
    if Grants(scopes, s) {
      var x :| x in scopes && NormalScope(x) == Some(s);
      assert FoldKey(x) == if s == BookingScope then "booking" else "webhook";
    }
    if Names(scopes, s) {
      var x :| x in scopes && FoldKey(x) == (if s == BookingScope then "booking" else "webhook");
      assert NormalScope(x) == Some(s);
    }
  }

  /** The scopes of a list are those it names; those of the defaults where it is empty; both where nothing is named. */
  lemma ScopesMean(scopes: seq<string>, defaults: seq<string>, s: Scope)
    ensures var all := if scopes == [] then defaults else scopes;
            s in NormalScopes(scopes, defaults) <==>
            Names(all, s) || (!Names(all, BookingScope) && !Names(all, WebhookScope))
  {
    var all := if scopes == [] then defaults else scopes;
    GrantsWhatIsNamed(all, s);
    GrantsWhatIsNamed(all, BookingScope);
    GrantsWhatIsNamed(all, WebhookScope);
    var named := set x: Scope | Grants(all, x);
    assert s in named <==> Grants(all, s);
    assert BookingScope in named <==> Grants(all, BookingScope);
    assert WebhookScope in named <==> Grants(all, WebhookScope);
    if named != {} {
      var x :| x in named;
      assert x == BookingScope || x == WebhookScope;
    }
  }

  lemma ValidMeans(scopes: seq<string>)
    ensures ValidScopes(scopes) <==> forall x | x in scopes :: FoldKey(x) == "booking" || FoldKey(x) == "webhook"
  {
  }

  lemma ValidScopesAreNamed(scopes: seq<string>, s: Scope)
    requires |scopes| > 0 && ValidScopes(scopes)
    ensures s in NormalScopes(scopes, []) <==> Names(scopes, s)
  {
    ScopesMean(scopes, [], s);
    var x := scopes[0];
    var t := NormalScope(x).value;
    assert Grants(scopes, t);
    GrantsWhatIsNamed(scopes, t);
  }

  /* ----- One item ----- */

  /** The item is one of the third party. */
  predicate Lists(item: RawRecord, id: string) {
    Trim(item.id) == id != "" && Trim(item.token) != ""
  }

  /** An item gives its third party its token and scopes, a time of creation where it has none yet, and its own time of
      change if it has one. Everybody else stays as he is. */
  lemma ItemMeans(t: Table, item: RawRecord, id: string)
    requires ParseItem(t, item).Ok?
    ensures var t' := ParseItem(t, item).value;
            && (!Lists(item, id) ==> (id in t'.records <==> id in t.records)
                                     && (id in t.records ==> t'.records[id] == t.records[id]))
            && (Lists(item, id) ==>
                  && id in t'.records && t'.records[id].token == Trim(item.token)
                  && (forall s :: s in t'.records[id].scopes <==>
                                  (id in t.records && s in t.records[id].scopes) || Names(item.scopes, s))
                  && t'.records[id].createdAt ==
                     (if id in t.records && t.records[id].createdAt != "" then t.records[id].createdAt
                      else Trim(item.createdAt))
                  && t'.records[id].updatedAt ==
                     (if id in t.records && Trim(item.updatedAt) == "" then t.records[id].updatedAt
                      else Trim(item.updatedAt))
                  && t'.owner == t.owner[Trim(item.token) := id])
  {
    forall s
      ensures s in NormalScopes(item.scopes, []) <==> Names(item.scopes, s)
    {
      ValidScopesAreNamed(item.scopes, s);
    }
  }

  /** An item is refused exactly when it has no scope or an unknown one, or when its token or its third party is
      already bound otherwise. */
  lemma ItemRefusedExactly(t: Table, item: RawRecord)
    requires Inverse(t)
    ensures var named := Trim(item.id) != "" && Trim(item.token) != "";
            ParseItem(t, item) == (
              if item.scopes == [] then Err(ScopesRequired)
              else if exists x :: x in item.scopes && FoldKey(x) != "booking" && FoldKey(x) != "webhook" then
                Err(InvalidScope)
              else if named && exists id :: id in t.records && t.records[id].token == Trim(item.token)
                                            && id != Trim(item.id) then
                Err(TokenShared(Trim(item.token)))
              else if named && Trim(item.id) in t.records && t.records[Trim(item.id)].token != Trim(item.token) then
                Err(MultipleTokens(Trim(item.id)))
              else Ok(ParseItem(t, item).value))
  {
    ValidMeans(item.scopes);
    var token := Trim(item.token);
    if token in t.owner {
      assert t.records[t.owner[token]].token == token;
    }
  }

  /* ----- The whole list ----- */

  ghost predicate ListedIn(items: seq<RawRecord>, id: string) {
    exists i :: 0 <= i < |items| && Lists(items[i], id)
  }

  ghost predicate GrantedIn(items: seq<RawRecord>, id: string, s: Scope) {
    exists i :: 0 <= i < |items| && Lists(items[i], id) && Names(items[i].scopes, s)
  }

  lemma ListedFirst(items: seq<RawRecord>, id: string, s: Scope)
    requires |items| > 0
    ensures ListedIn(items, id) <==> Lists(items[0], id) || ListedIn(items[1..], id)
    ensures GrantedIn(items, id, s) <==>
            (Lists(items[0], id) && Names(items[0].scopes, s)) || GrantedIn(items[1..], id, s)
  {
    var rest := items[1..];
    if i :| 0 <= i < |items| && Lists(items[i], id) {
      assert i > 0 ==> rest[i - 1] == items[i];
    }
    if i :| 0 <= i < |items| && Lists(items[i], id) && Names(items[i].scopes, s) {
      assert i > 0 ==> rest[i - 1] == items[i];
    }
    if i :| 0 <= i < |rest| && Lists(rest[i], id) {
      assert items[i + 1] == rest[i];
    }
    if i :| 0 <= i < |rest| && Lists(rest[i], id) && Names(rest[i].scopes, s) {
      assert items[i + 1] == rest[i];
    }
  }

  predicate HasScope(t: Table, id: string, s: Scope) {
    id in t.records && s in t.records[id].scopes
  }

  /** Reading a list on top of a table: a third party is kept exactly when it was there or an item lists it, with
      exactly the scopes it had and those that its items name. */
  lemma {:induction false} ListMeans(t: Table, items: seq<RawRecord>, id: string, s: Scope)
    requires ParseFrom(t, items).Ok?
    ensures var t' := ParseFrom(t, items).value;
            && (id in t'.records <==> id in t.records || ListedIn(items, id))
            && (HasScope(t', id, s) <==> HasScope(t, id, s) || GrantedIn(items, id, s))
    decreases |items|
  {
    if |items| > 0 {
      ItemMeans(t, items[0], id);
      ListedFirst(items, id, s);
      ListMeans(ParseItem(t, items[0]).value, items[1..], id, s);
    }
  }

  /** All items of a third party carry the token that is kept for it. */
  lemma {:induction false} ListedTokens(t: Table, items: seq<RawRecord>, id: string, i: nat)
    requires ParseFrom(t, items).Ok? && Inverse(t) && i < |items| && Lists(items[i], id)
    ensures id in ParseFrom(t, items).value.records
    ensures ParseFrom(t, items).value.records[id].token == Trim(items[i].token)
    decreases |items|
  {
    var t1 := ParseItem(t, items[0]).value;
    ItemKeepsInverse(t, items[0]);
    if i == 0 {
      ItemMeans(t, items[0], id);
      TokenStays(t1, items[1..], id);
    } else {
      ListedTokens(t1, items[1..], id, i - 1);
    }
  }

  lemma ItemKeepsInverse(t: Table, item: RawRecord)
    requires Inverse(t) && ParseItem(t, item).Ok?
    ensures Inverse(ParseItem(t, item).value)
  {
  }

  lemma ItemKeepsToken(t: Table, item: RawRecord, id: string)
    requires ParseItem(t, item).Ok? && id in t.records
    ensures id in ParseItem(t, item).value.records
    ensures ParseItem(t, item).value.records[id].token == t.records[id].token
  {
  }

  lemma {:induction false} TokenStays(t: Table, items: seq<RawRecord>, id: string)
    requires ParseFrom(t, items).Ok? && id in t.records
    ensures id in ParseFrom(t, items).value.records
    ensures ParseFrom(t, items).value.records[id].token == t.records[id].token
    decreases |items|
  {
    if |items| > 0 {
      ItemKeepsToken(t, items[0], id);
      TokenStays(ParseItem(t, items[0]).value, items[1..], id);
    }
  }

  /* ----- Times ----- */

  predicate Dates(item: RawRecord, id: string) {
    Lists(item, id) && Trim(item.createdAt) != ""
  }

  predicate Changes(item: RawRecord, id: string) {
    Lists(item, id) && Trim(item.updatedAt) != ""
  }

  lemma {:induction false} CreatedStays(t: Table, items: seq<RawRecord>, id: string)
    requires ParseFrom(t, items).Ok? && id in t.records && t.records[id].createdAt != ""
    ensures id in ParseFrom(t, items).value.records
    ensures ParseFrom(t, items).value.records[id].createdAt == t.records[id].createdAt
    decreases |items|
  {
    if |items| > 0 {
      ItemMeans(t, items[0], id);
      CreatedStays(ParseItem(t, items[0]).value, items[1..], id);
    }
  }

  /** A third party keeps the first time of creation that its items give ... */
  lemma {:induction false} FirstCreationIsKept(t: Table, items: seq<RawRecord>, id: string, k: nat)
    requires ParseFrom(t, items).Ok? && (id in t.records ==> t.records[id].createdAt == "")
    requires k < |items| && Dates(items[k], id) && forall i | 0 <= i < k :: !Dates(items[i], id)
    ensures id in ParseFrom(t, items).value.records
    ensures ParseFrom(t, items).value.records[id].createdAt == Trim(items[k].createdAt)
    decreases |items|
  {
    ItemMeans(t, items[0], id);
    var t1 := ParseItem(t, items[0]).value;
    if k == 0 {
      CreatedStays(t1, items[1..], id);
    } else {
      FirstCreationIsKept(t1, items[1..], id, k - 1);
    }
  }

  lemma {:induction false} UpdatedStays(t: Table, items: seq<RawRecord>, id: string)
    requires ParseFrom(t, items).Ok? && id in t.records
    requires forall i | 0 <= i < |items| :: !Changes(items[i], id)
    ensures id in ParseFrom(t, items).value.records
    ensures ParseFrom(t, items).value.records[id].updatedAt == t.records[id].updatedAt
    decreases |items|
  {
    if |items| > 0 {
      ItemMeans(t, items[0], id);
      UpdatedStays(ParseItem(t, items[0]).value, items[1..], id);
    }
  }

  /** ... and the last time of change. */
  lemma {:induction false} LastChangeIsKept(t: Table, items: seq<RawRecord>, id: string, k: nat)
    requires ParseFrom(t, items).Ok?
    requires k < |items| && Changes(items[k], id) && forall i | k < i < |items| :: !Changes(items[i], id)
    ensures id in ParseFrom(t, items).value.records
    ensures ParseFrom(t, items).value.records[id].updatedAt == Trim(items[k].updatedAt)
    decreases |items|
  {
    ItemMeans(t, items[0], id);
    var t1 := ParseItem(t, items[0]).value;
    if k == 0 {
      UpdatedStays(t1, items[1..], id);
    } else {
      LastChangeIsKept(t1, items[1..], id, k - 1);
    }
  }
}
