/** The rules of a conversation, without its code: which draft goes on, what a continuation keeps of the texts that are
    not tracked, and which products and slots a message fits (internal/service/booking_service_runtime.go). */
module DraftRules {
  import opened Booking
  import opened Continuation
  import opened Draft
  import opened DraftOutcomes
  import opened DraftService
  import opened DraftTheorems
  import opened Sorting
  import opened Text

  /* ----- The draft that goes on ----- */

  const DAY := 86_400_000_000_000

  /** The draft was last changed, or else was created, at that instant. */
  predicate LastTouched(d: IntakeDraft, at: int) {
    d.updatedAt == Some(at) || (d.updatedAt.None? && d.createdAt == Some(at))
  }

  /** An open draft of the user that was touched within the last day. */
  ghost predicate GoesOn(d: IntakeDraft, userId: string, now: int) {
    d.status == Open && FoldKey(d.userId) == FoldKey(userId) && exists at :: LastTouched(d, at) && now - at <= DAY
  }

  lemma GoesOnExactly(d: IntakeDraft, userId: string, channel: string, now: int)
    ensures GoesOn(d, userId, now) <==> Eligible(d, Search(userId, channel, false, now))
  {
    if Stamp(d).Some? {
      assert LastTouched(d, Stamp(d).value);
    }
  }

  /** A message continues a draft exactly when its user is named and has an open draft of the last day; it continues
      such a draft, and one of its own channel if there is one. */
  lemma ContinuesExactly(ds: seq<IntakeDraft>, userId: string, channel: string, now: int)
    ensures var i := ContinuableIndex(ds, userId, channel, now);
            && (i >= 0 <==> Trim(userId) != "" && exists d :: d in ds && GoesOn(d, userId, now))
            && (i >= 0 ==> GoesOn(ds[i], userId, now))
            && (i >= 0 && Trim(channel) != ""
                && (exists d :: d in ds && GoesOn(d, userId, now) && FoldKey(d.channel) == FoldKey(channel)) ==>
                  FoldKey(ds[i].channel) == FoldKey(channel))
  {
    var i := ContinuableIndex(ds, userId, channel, now);
    NothingToContinue(ds, userId, channel, now);
    forall d | d in ds
      ensures GoesOn(d, userId, now) <==> Eligible(d, Search(userId, channel, false, now))
    {
      GoesOnExactly(d, userId, channel, now);
    }
    if i >= 0 {
      assert ds[i] in ds;
    }
    if d :| d in ds && GoesOn(d, userId, now) && FoldKey(d.channel) == FoldKey(channel) && Trim(userId) != "" {
      var j :| 0 <= j < |ds| && ds[j] == d;
      ContinuableIsTheLatest(ds, userId, channel, now, j);
    }
  }

  /** It is the latest one of those it is chosen from. */
  lemma ContinuesTheLatest(ds: seq<IntakeDraft>, userId: string, channel: string, now: int, j: nat, at: int, last: int)
    requires j < |ds| && GoesOn(ds[j], userId, now) && LastTouched(ds[j], at) && Trim(userId) != ""
    requires Trim(channel) == "" || FoldKey(ds[j].channel) == FoldKey(channel)
    ensures var i := ContinuableIndex(ds, userId, channel, now);
            i >= 0 && (LastTouched(ds[i], last) ==> at <= last)
  {
    GoesOnExactly(ds[j], userId, channel, now);
    ContinuableIsTheLatest(ds, userId, channel, now, j);
  }

  /** A conversation goes on: whatever message of a user was stored, his next one within a day continues a draft. */
  lemma ConversationGoesOn(b: DraftBook, req: ParseRequest, m: Message, now: int, channel: string, later: int)
    requires Trim(req.userId) != "" && now <= later <= now + DAY
    ensures ContinuableIndex(Parse(b, req, m, now, true).drafts, req.userId, channel, later) >= 0
  {
    var c := Parse(b, req, m, now, true);
    var i := ContinuableIndex(b.drafts, req.userId, req.channel, now);
    var d;
    if i >= 0 {
      d := MessageContinues(b, req, m, now, true);
      ContinuesExactly(b.drafts, req.userId, req.channel, now);
    } else {
      d := MessageStarts(b, req, m, now, true);
    }
    assert d in multiset(c.drafts);
    assert LastTouched(d, now);
    assert GoesOn(d, req.userId, later);
    ContinuesExactly(c.drafts, req.userId, channel, later);
  }

  function MadeAt(d: IntakeDraft): int {
    if d.createdAt.Some? then d.createdAt.value else 0
  }

  /** The drafts are stored newest first. */
  lemma DraftsAreNewestFirst(b: DraftBook)
    ensures forall i, j | 0 <= i < j < |WriteDrafts(b).drafts| ::
              MadeAt(WriteDrafts(b).drafts[i]) >= MadeAt(WriteDrafts(b).drafts[j])
  {
    SortedChronological(b.drafts, DraftBefore, (d: IntakeDraft) => -MadeAt(d));
  }

  /* ----- The rest of the merge ----- */

  /** The product's name and the time as typed are the draft's, or the message's where the draft has none; no confidence
      replaces them. The confidence itself is raised to the message's when the draft has none or must give way. */
  lemma MergeOfTheRest(base: Intent, incoming: Intent)
    ensures var c := Merge(base, incoming);
            && c.productName == Trim(if Trim(base.productName) != "" then base.productName else incoming.productName)
            && c.slotStartAt == Trim(if Trim(base.slotStartAt) != "" then base.slotStartAt else incoming.slotStartAt)
            && c.confidence ==
               if Clamp(base.confidence) == 0.0 ||
                  (MayOverride(base, incoming) && Clamp(incoming.confidence) > Clamp(base.confidence))
               then Clamp(incoming.confidence) else Clamp(base.confidence)
  {
    MergeUnfolds(base, incoming);
    TrimIdempotent(base.productName);
    TrimIdempotent(base.slotStartAt);
    TrimIdempotent(incoming.productName);
    TrimIdempotent(incoming.slotStartAt);
  }

  /* ----- What fits a message ----- */

  ghost predicate OccursIn(part: string, text: string) {
    exists a: string, b: string :: text == a + part + b
  }

  lemma {:induction false} ContainedOccurs(text: string, part: string) returns (a: string, b: string)
    requires Contains(text, part)
    ensures text == a + part + b
    decreases |text|
  {
    if |part| <= |text| && text[..|part|] == part {
      a, b := "", text[|part|..];
    } else {
      a, b := ContainedOccurs(text[1..], part);
      a := [text[0]] + a;
    }
  }

  lemma {:induction false} OccurrenceIsContained(a: string, part: string, b: string)
    ensures Contains(a + part + b, part)
    decreases |a|
  {
    var text := a + part + b;
    if a == "" {
      assert text[..|part|] == part;
    } else {
      assert text[1..] == a[1..] + part + b;
      OccurrenceIsContained(a[1..], part, b);
    }
  }

  lemma ContainsExactly(text: string, part: string)
    ensures Contains(text, part) <==> OccursIn(part, text)
  {
    if Contains(text, part) {
      var a, b := ContainedOccurs(text, part);
    }
    if OccursIn(part, text) {
      var a, b :| text == a + part + b;
      OccurrenceIsContained(a, part, b);
    }
  }

  /** A product fits by its id, or by its name: the name in the message occurs in the product's name or id, or the
      product's name in it, upper and lower case alike. */
  lemma FittingProduct(e: Intent, p: Product)
    requires Trim(p.id) != ""
    ensures var asked, name, id := Lower(Trim(e.productName)), Lower(Trim(p.name)), Lower(Trim(p.id));
            ProductMatches(e, p) <==>
            || (Trim(e.productId) != "" && Lower(Trim(e.productId)) == id)
            || (Trim(e.productName) != "" && (OccursIn(asked, name) || OccursIn(name, asked) || OccursIn(asked, id)))
  {
    var asked, name, id := Lower(Trim(e.productName)), Lower(Trim(p.name)), Lower(Trim(p.id));
    ContainsExactly(name, asked);
    ContainsExactly(asked, name);
    ContainsExactly(id, asked);
    assert Trim(e.productName) != "" <==> asked != "";
  }

  /** A slot fits by its id or by the instant it starts at, and only if it is of the product, where that is known. */
  lemma FittingSlot(e: Intent, timeOf: string -> Option<int>, s: Slot)
    requires Trim(s.id) != ""
    ensures SlotMatches(e, timeOf, s) <==>
            && ((Filled(e, SlotField) && SlotKey(s) == FoldKey(e.slotId)) ||
                timeOf(Trim(e.slotStartAt)) == Some(s.startAt))
            && (Filled(e, ProductField) ==> FoldKey(s.productId) == FoldKey(e.productId))
  {
  }

  lemma {:induction false} SlotCandidatesAreAll(e: Intent, timeOf: string -> Option<int>, ss: seq<Slot>, s: Slot)
    requires s in ss && SlotMatches(e, timeOf, s)
    ensures exists q :: q in SlotCandidates(e, timeOf, ss) && SlotKey(q) == SlotKey(s)
    decreases |ss|
  {
    var init := ss[..|ss| - 1];
    var last := ss[|ss| - 1];
    if s in init {
      SlotCandidatesAreAll(e, timeOf, init, s);
      var q :| q in SlotCandidates(e, timeOf, init) && SlotKey(q) == SlotKey(s);
      assert q in SlotCandidates(e, timeOf, ss);
    } else {
      assert ss == init + [last];
      assert s == last;
      if forall q | q in SlotCandidates(e, timeOf, init) :: SlotKey(q) != SlotKey(s) {
        assert s in SlotCandidates(e, timeOf, ss);
      }
    }
  }

  lemma {:induction false} SlotKeysApart(e: Intent, timeOf: string -> Option<int>, ss: seq<Slot>)
    ensures Distinct(SlotCandidates(e, timeOf, ss), SlotKey)
    decreases |ss|
  {
    if |ss| > 0 {
      SlotKeysApart(e, timeOf, ss[..|ss| - 1]);
    }
  }

  /** A slot is filled in exactly when the message names none and the slots that fit are one; it is that one. */
  lemma OnlySlotIsFilled(e: Intent, ctx: Context, s: Slot)
    requires Trim(e.slotId) == "" && s in ctx.slots && SlotMatches(e, ctx.timeOf, s)
    ensures FoldKey(EnrichSlot(e, ctx).slotId) == SlotKey(s) <==>
            forall q | q in ctx.slots && SlotMatches(e, ctx.timeOf, q) :: SlotKey(q) == SlotKey(s)
  {
    var found := SlotCandidates(e, ctx.timeOf, ctx.slots);
    SlotCandidatesAreAll(e, ctx.timeOf, ctx.slots, s);
    SlotKeysApart(e, ctx.timeOf, ctx.slots);
    SlotCandidatesAre(e, ctx.timeOf, ctx.slots, found[0]);
    TrimIdempotent(found[0].id);
    if |found| > 1 {
      TwoKeys(found, SlotKey);
      SlotCandidatesAre(e, ctx.timeOf, ctx.slots, found[1]);
      SlotKeyIsNotBlank(s);
    } else {
      forall q | q in ctx.slots && SlotMatches(e, ctx.timeOf, q)
        ensures SlotKey(q) == SlotKey(found[0])
      {
        SlotCandidatesAreAll(e, ctx.timeOf, ctx.slots, q);
      }
    }
  }

  lemma SlotKeyIsNotBlank(s: Slot)
    requires Trim(s.id) != ""
    ensures SlotKey(s) != ""
  {
  }
}
