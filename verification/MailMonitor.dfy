/** The mail monitor: the newest messages of a search, the watermark, and the cursor that survives a
    restart (internal/service/email_receive_command.go).  A message is its UID. */
module MailMonitor {
  import opened Sorting
  import opened Text

  predicate Newer(a: nat, b: nat) { a > b }

  predicate Older(a: nat, b: nat) { a < b }

  /** What `receiveIMAPMessages` keeps of a search result: the newest ones, at most `limit`. */
  function Recent(found: seq<nat>, limit: nat): seq<nat> {
    var newestFirst := Sorted(found, Newer);
    if |newestFirst| > limit then newestFirst[..limit] else newestFirst
  }

  function Above(uids: seq<nat>, watermark: nat): seq<nat> {
    if |uids| == 0 then []
    else Above(uids[..|uids| - 1], watermark) + (if uids[|uids| - 1] > watermark then [uids[|uids| - 1]] else [])
  }

  function NewUids(uids: seq<nat>, watermark: nat): seq<nat> {
    Sorted(Above(uids, watermark), Older)
  }

  function MaxUid(uids: seq<nat>): nat {
    if |uids| == 0 then 0 else
    var rest := MaxUid(uids[..|uids| - 1]);
    if uids[|uids| - 1] > rest then uids[|uids| - 1] else rest
  }

  method CollectNewUids(uids: seq<nat>, watermark: nat) returns (newer: seq<nat>)
    ensures newer == NewUids(uids, watermark)
  {
    newer := [];
    for i := 0 to |uids|
      invariant newer == Above(uids[..i], watermark)
    {
      assert uids[..i + 1][..i] == uids[..i];
      if uids[i] > watermark {
        newer := newer + [uids[i]];
      }
    }
    assert uids[..|uids|] == uids;
    newer := Sorted(newer, Older);
  }

  method MaxUidFromMessages(uids: seq<nat>) returns (maxUid: nat)
    ensures maxUid == MaxUid(uids)
  {
    maxUid := 0;
    for i := 0 to |uids|
      invariant maxUid == MaxUid(uids[..i])
    {
      assert uids[..i + 1][..i] == uids[..i];
      if uids[i] > maxUid {
        maxUid := uids[i];
      }
    }
    assert uids[..|uids|] == uids;
  }

  lemma {:induction false} AboveAre(uids: seq<nat>, watermark: nat)
    ensures forall u :: u in Above(uids, watermark) <==> u in uids && u > watermark
  {
    if |uids| > 0 {
      AboveAre(uids[..|uids| - 1], watermark);
      assert uids == uids[..|uids| - 1] + [uids[|uids| - 1]];
    }
  }

  lemma {:induction false} MaxUidIsMax(uids: seq<nat>)
    ensures forall u | u in uids :: u <= MaxUid(uids)
    ensures |uids| > 0 ==> MaxUid(uids) in uids
    ensures |uids| == 0 ==> MaxUid(uids) == 0
  {
    if |uids| > 0 {
      var init, last := uids[..|uids| - 1], uids[|uids| - 1];
      MaxUidIsMax(init);
      assert uids == init + [last];
      forall u | u in uids
        ensures u <= MaxUid(uids)
      {
        assert u in init || u == last;
      }
    }
  }

  lemma SortedUids(uids: seq<nat>, before: (nat, nat) -> bool)
    ensures |Sorted(uids, before)| == |uids| && forall u :: u in Sorted(uids, before) <==> u in uids
  {
    SortedIsPermutation(uids, before);
    PermutationMembers(Sorted(uids, before), uids);
  }

  lemma NewUidsAre(uids: seq<nat>, watermark: nat)
    ensures forall u :: u in NewUids(uids, watermark) <==> u in uids && u > watermark
    ensures |NewUids(uids, watermark)| == |Above(uids, watermark)|
  {
    AboveAre(uids, watermark);
    SortedUids(Above(uids, watermark), Older);
  }

  /* ----- The newest messages ----- */

  ghost predicate Descending(uids: seq<nat>) {
    forall i, j | 0 <= i < j < |uids| :: uids[i] >= uids[j]
  }

  lemma {:induction false} InsertKeepsDescending(u: nat, uids: seq<nat>)
    requires Descending(uids)
    ensures Descending(Insert(u, uids, Newer))
  {
    if |uids| > 0 && u <= uids[0] {
      var tail := uids[1..];
      var rest := Insert(u, tail, Newer);
      InsertKeepsDescending(u, tail);
      var k := InsertAt(u, tail, Newer);
      forall j | 0 <= j < |rest|
        ensures rest[j] <= uids[0]
      {
        assert rest[j] == if j < k then tail[j] else if j == k then u else tail[j - 1];
      }
    }
  }

  lemma {:induction false} SortedDescending(uids: seq<nat>)
    ensures Descending(Sorted(uids, Newer))
  {
    if |uids| > 0 {
      SortedDescending(uids[1..]);
      InsertKeepsDescending(uids[0], Sorted(uids[1..], Newer));
    }
  }

  function CountAbove(watermark: nat): nat -> nat {
    (u: nat) => if u > watermark then 1 else 0
  }

  lemma {:induction false} AboveCount(uids: seq<nat>, watermark: nat)
    ensures |Above(uids, watermark)| == Sum(uids, CountAbove(watermark))
  {
    if |uids| > 0 {
      var init := uids[..|uids| - 1];
      AboveCount(init, watermark);
      SumConcat(init, [uids[|uids| - 1]], CountAbove(watermark));
      assert uids == init + [uids[|uids| - 1]];
      assert [uids[|uids| - 1]][1..] == [];
    }
  }

  /** In a descending list the messages above the watermark are exactly the first ones. */
  lemma {:induction false} AboveIsPrefix(uids: seq<nat>, watermark: nat, i: nat)
    requires Descending(uids) && i < |uids|
    ensures uids[i] > watermark <==> i < Sum(uids, CountAbove(watermark))
  {
    if uids[0] <= watermark {
      SumZero(uids, CountAbove(watermark));
    } else if i > 0 {
      AboveIsPrefix(uids[1..], watermark, i - 1);
    }
  }

  /** Looking at the newest `limit` messages only finds all new ones exactly when at most `limit` are new. */
  lemma CutKeepsNew(found: seq<nat>, limit: nat, watermark: nat)
    requires forall i, j | 0 <= i < j < |found| :: found[i] != found[j]
    ensures (forall u :: u in NewUids(Recent(found, limit), watermark) <==> u in found && u > watermark)
            <==> |Above(found, watermark)| <= limit
  {
    var all := Sorted(found, Newer);
    var weight := CountAbove(watermark);
    SortedUids(found, Newer);
    SortedDescending(found);
    SortedIsPermutation(found, Newer);
    SumOfPermutation(all, found, weight);
    AboveCount(found, watermark);
    NewUidsAre(Recent(found, limit), watermark);
    var n := |Above(found, watermark)|;
    assert n == Sum(all, weight);
    if n <= limit {
      forall u | u in found && u > watermark
        ensures u in Recent(found, limit)
      {
        var i :| 0 <= i < |all| && all[i] == u;
        AboveIsPrefix(all, watermark, i);
        assert Recent(found, limit)[i] == u;
      }
    } else {
      CutDropsNew(found, limit, watermark);
    }
  }

  lemma CutDropsNew(found: seq<nat>, limit: nat, watermark: nat)
    requires forall i, j | 0 <= i < j < |found| :: found[i] != found[j]
    requires |Above(found, watermark)| > limit
    ensures exists u :: u in found && u > watermark && u !in Recent(found, limit)
  {
    var all := Sorted(found, Newer);
    SortedUids(found, Newer);
    SortedDescending(found);
    SortedIsPermutation(found, Newer);
    SumOfPermutation(all, found, CountAbove(watermark));
    AboveCount(found, watermark);
    AboveLength(found, watermark);
    AboveIsPrefix(all, watermark, limit);
    var u := all[limit];
    UidsApart(found);
    forall j | 0 <= j < limit
      ensures all[..limit][j] != u
    {
      assert all[j] != all[limit];
    }
    assert all[limit] in all;
    assert Recent(found, limit) == all[..limit];
  }

  lemma {:induction false} AboveLength(uids: seq<nat>, watermark: nat)
    ensures |Above(uids, watermark)| <= |uids|
  {
    if |uids| > 0 {
      AboveLength(uids[..|uids| - 1], watermark);
    }
  }

  /** Sorting keeps distinct UIDs distinct. */
  lemma UidsApart(uids: seq<nat>)
    requires forall i, j | 0 <= i < j < |uids| :: uids[i] != uids[j]
    ensures forall i, j | 0 <= i < j < |Sorted(uids, Newer)| :: Sorted(uids, Newer)[i] != Sorted(uids, Newer)[j]
  {
    var key := (u: nat) => Decimal(u);
    forall i, j | 0 <= i < j < |uids|
      ensures key(uids[i]) != key(uids[j])
    {
      if Decimal(uids[i]) == Decimal(uids[j]) {
        DecimalInjective(uids[i], uids[j]);
      }
    }
    SortedDistinct(uids, Newer, key);
    var all := Sorted(uids, Newer);
    forall i, j | 0 <= i < j < |all|
      ensures all[i] != all[j]
    {
      assert key(all[i]) != key(all[j]);
    }
  }
}
