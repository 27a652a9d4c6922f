/** What a message leaves in the draft list and what a confirmation books: every datum is the message's, the
    request's or the draft's, and nothing else changes (internal/service/booking_service_runtime.go). */
module DraftOutcomes {
  import opened Booking
  import opened BookingOutcomes
  import opened BookingTheorems
  import opened Continuation
  import opened Draft
  import opened DraftService
  import opened DraftTheorems
  import opened Sorting
  import opened Text

  /* ----- The list after a write ----- */

  lemma WrittenDrafts(b: DraftBook)
    ensures multiset(WriteDrafts(b).drafts) == multiset(b.drafts)
    ensures b.nextId > 0 ==> WriteDrafts(b).nextId == b.nextId
  {
    SortedIsPermutation(b.drafts, DraftBefore);
  }

  lemma ReplacedMultiset<T>(xs: seq<T>, i: nat, x: T)
    requires i < |xs|
    ensures multiset(xs[i := x]) == multiset(xs) - multiset{xs[i]} + multiset{x}
  {
  }

  /* ----- One message ----- */

  /** The field after a continuation: the new reading's where it has one and the draft has none or must give way; the
      draft's everywhere else that the draft has one. */
  lemma ContinuationTakes(e: Intent, m: Message, f: Field)
    ensures Filled(Reading(m), f) && (!Filled(e, f) || MayOverride(e, Reading(m))) ==>
              SameField(Continue(e, m), Reading(m), f)
    ensures Filled(e, f) && !(Filled(Reading(m), f) && MayOverride(e, Reading(m))) ==> SameField(Continue(e, m), e, f)
  {
    var merged := Merge(e, Reading(m));
    MergeTakes(e, Reading(m), f);
    MergeFields(e, Reading(m), f);
    EnrichKeepsFilled(merged, m.ctx, f);
    NormalizeKeepsFields(Enrich(merged, m.ctx), f);
  }

  /** A message says about a field what the language model read, up to surrounding space. */
  lemma ReadingKeeps(m: Message, f: Field)
    requires Filled(m.reading, f)
    ensures SameField(Reading(m), m.reading, f)
  {
    NormalizeKeepsFields(m.reading, f);
    SameFieldFilled(m.reading, Normalize(m.reading), f);
    EnrichKeepsFilled(Normalize(m.reading), m.ctx, f);
  }

  /** The draft holds what the message says, and is one of this user, channel and moment. */
  predicate StartedBy(d: IntakeDraft, req: ParseRequest, m: Message, now: int) {
    && d.userId == req.userId && d.channel == req.channel && d.content == req.content && d.status == Open
    && d.extracted == Reading(m) && (forall f :: f in d.missing <==> Required(f) && !Filled(Reading(m), f))
    && d.createdAt == Some(now) && d.updatedAt == Some(now) && d.reservationId == ""
  }

  /** The draft is the same one, continued by this message now. */
  predicate ContinuedNow(d: IntakeDraft, d': IntakeDraft, req: ParseRequest, m: Message, now: int) {
    && d'.id == d.id && d'.userId == d.userId && d'.status == d.status && d'.createdAt == d.createdAt
    && d'.reservationId == d.reservationId
    && d'.extracted == Continue(d.extracted, m)
    && (forall f :: f in d'.missing <==> Required(f) && !Filled(d'.extracted, f))
    && d'.content == req.content && d'.updatedAt == Some(now)
    && d'.channel == (if Trim(d.channel) == "" then req.channel else d.channel)
  }

  /** The candidates offered with a draft are products and slots of the catalog that fit what is known so far, and every
      product that fits is offered. */
  predicate Offers(d: IntakeDraft, known: Intent, ctx: Context) {
    && (forall p | p in d.productCandidates :: p in ctx.products && ProductMatches(known, p))
    && (forall p | p in ctx.products && ProductMatches(known, p) ::
          exists q :: q in d.productCandidates && ProductKey(q) == ProductKey(p))
    && (forall s | s in d.slotCandidates ::
          s in ctx.slots && SlotMatches(EnrichProduct(known, ctx), ctx.timeOf, s))
  }

  lemma CandidatesAreOffered(d: IntakeDraft, known: Intent, ctx: Context)
    requires d.productCandidates == ProductCandidates(known, ctx.products)
    requires d.slotCandidates == SlotCandidates(EnrichProduct(known, ctx), ctx.timeOf, ctx.slots)
    ensures Offers(d, known, ctx)
  {
    forall p | p in d.productCandidates
      ensures p in ctx.products && ProductMatches(known, p)
    {
      ProductCandidatesAre(known, ctx.products, p);
    }
    forall p | p in ctx.products && ProductMatches(known, p)
      ensures exists q :: q in d.productCandidates && ProductKey(q) == ProductKey(p)
    {
      ProductCandidatesAreAll(known, ctx.products, p);
    }
    forall s | s in d.slotCandidates
      ensures s in ctx.slots && SlotMatches(EnrichProduct(known, ctx), ctx.timeOf, s)
    {
      SlotCandidatesAre(EnrichProduct(known, ctx), ctx.timeOf, ctx.slots, s);
    }
  }

  /** A message of a user with a draft to continue changes that draft and no other. */
  lemma MessageContinues(b: DraftBook, req: ParseRequest, m: Message, now: int, saved: bool) returns (d': IntakeDraft)
    requires ContinuableIndex(b.drafts, req.userId, req.channel, now) >= 0
    ensures var d := b.drafts[ContinuableIndex(b.drafts, req.userId, req.channel, now)];
            var c := Parse(b, req, m, now, saved);
            && (!saved ==> c == b)
            && (saved ==>
                  && ContinuedNow(d, d', req, m, now) && Offers(d', Merge(d.extracted, Reading(m)), m.ctx)
                  && multiset(c.drafts) == multiset(b.drafts) - multiset{d} + multiset{d'})
  {
    var i := ContinuableIndex(b.drafts, req.userId, req.channel, now);
    d' := Continued(b.drafts[i], req, m, now);
    CandidatesAreOffered(d', Merge(b.drafts[i].extracted, Reading(m)), m.ctx);
    MissingAre(d'.extracted);
    ReplacedMultiset(b.drafts, i, d');
    WrittenDrafts(Parsed(b, req, m, now));
  }

  lemma MissingAre(e: Intent)
    ensures forall f :: f in MissingFields(e) <==> Required(f) && !Filled(e, f)
  {
    forall f
      ensures f in MissingFields(e) <==> Required(f) && !Filled(e, f)
    {
      MissingFieldsAre(e, f);
    }
  }

  /** Any other message starts one new draft, with the next number, and leaves all others alone. */
  lemma MessageStarts(b: DraftBook, req: ParseRequest, m: Message, now: int, saved: bool) returns (d: IntakeDraft)
    requires ContinuableIndex(b.drafts, req.userId, req.channel, now) < 0
    ensures var c := Parse(b, req, m, now, saved);
            && (!saved ==> c == b)
            && (saved ==>
                  && StartedBy(d, req, m, now) && Offers(d, Normalize(m.reading), m.ctx)
                  && d.id == "d-" + Decimal(NextDraftNumber(b)) && c.nextId == NextDraftNumber(b) + 1
                  && multiset(c.drafts) == multiset(b.drafts) + multiset{d})
  {
    d := Started(DraftId(NextDraftNumber(b)), req, m, now);
    CandidatesAreOffered(d, Normalize(m.reading), m.ctx);
    MissingAre(Reading(m));
    WrittenDrafts(Parsed(b, req, m, now));
  }

  /* ----- The one match is filled in ----- */

  lemma {:induction false} ProductKeysApart(e: Intent, ps: seq<Product>)
    ensures Distinct(ProductCandidates(e, ps), ProductKey)
    decreases |ps|
  {
    if |ps| > 0 {
      ProductKeysApart(e, ps[..|ps| - 1]);
    }
  }

  lemma TwoKeys<T>(xs: seq<T>, key: T -> string)
    requires Distinct(xs, key) && |xs| > 1
    ensures key(xs[0]) != key(xs[1])
  {
  }

  /** Where one product of the catalog fits a message that names none, it is filled in. */
  lemma OnlyProductIsFilled(e: Intent, ctx: Context, p: Product)
    requires Trim(e.productId) == "" && p in ctx.products && ProductMatches(e, p)
    requires forall q | q in ctx.products && ProductMatches(e, q) :: ProductKey(q) == ProductKey(p)
    ensures FoldKey(EnrichProduct(e, ctx).productId) == ProductKey(p)
  {
    var found := ProductCandidates(e, ctx.products);
    ProductCandidatesAreAll(e, ctx.products, p);
    ProductKeysApart(e, ctx.products);
    ProductCandidatesAre(e, ctx.products, found[0]);
    TrimIdempotent(found[0].id);
    if |found| > 1 {
      TwoKeys(found, ProductKey);
      ProductCandidatesAre(e, ctx.products, found[1]);
      assert false;
    }
  }

  /* ----- Confirmations ----- */

  /** The text of the request where it says something, else that of the draft. */
  predicate TakenFrom(got: string, asked: string, kept: string) {
    got == if Trim(asked) != "" then Trim(asked) else Trim(kept)
  }

  /** The reservation has the data of the request where that fills them in, and the draft's everywhere else. */
  predicate CarriesDraft(r: Reservation, d: IntakeDraft, req: ConfirmRequest) {
    && r.userId == Trim(d.userId)
    && TakenFrom(r.productId, req.productId, d.extracted.productId)
    && TakenFrom(r.slotId, req.slotId, d.extracted.slotId)
    && r.partySize == (if req.partySize > 0 then req.partySize else d.extracted.partySize)
    && TakenFrom(r.specialRequirements, req.specialRequirements, d.extracted.specialRequirements)
    && (match req.personnel
        case Some(p) =>
          && TakenFrom(r.personnel.contactName, p.contactName, d.extracted.contactName)
          && TakenFrom(r.personnel.contactPhone, p.contactPhone, d.extracted.contactPhone)
          && r.personnel.members == NonBlank(if p.members.Some? then p.members.value else d.extracted.members)
        case None =>
          && r.personnel.contactName == Trim(d.extracted.contactName)
          && r.personnel.contactPhone == Trim(d.extracted.contactPhone)
          && r.personnel.members == NonBlank(d.extracted.members))
  }

  lemma NonBlankTwice(texts: seq<string>)
    ensures NonBlank(NonBlank(texts)) == NonBlank(texts)
  {
    NonBlankClean(texts);
    NonBlankFixed(NonBlank(texts));
  }

  lemma Overridden(kept: string, asked: string)
    ensures TakenFrom(Trim(Trim(Override(Trim(kept), asked))), asked, kept)
  {
    TrimIdempotent(kept);
    TrimIdempotent(asked);
  }

  /** The request put over the draft is what the reservation is asked for. */
  lemma AskedFromDraft(d: IntakeDraft, req: ConfirmRequest, r: Reservation)
    requires AskedFor(ToReservationInput(MergeForConfirm(d.extracted, req), d.userId), r)
    ensures CarriesDraft(r, d, req)
  {
    TextsFromDraft(d.extracted, req);
    MembersFromDraft(d.extracted, req);
    TrimIdempotent(d.userId);
    var e := MergeForConfirm(d.extracted, req);
    TrimIdempotent(e.productId);
    TrimIdempotent(e.slotId);
    TrimIdempotent(e.contactName);
    TrimIdempotent(e.contactPhone);
    TrimIdempotent(e.specialRequirements);
  }

  lemma TextsFromDraft(base: Intent, req: ConfirmRequest)
    ensures var e := MergeForConfirm(base, req);
            && TakenFrom(Trim(e.productId), req.productId, base.productId)
            && TakenFrom(Trim(e.slotId), req.slotId, base.slotId)
            && TakenFrom(Trim(e.specialRequirements), req.specialRequirements, base.specialRequirements)
            && e.partySize == (if req.partySize > 0 then req.partySize else base.partySize)
            && (match req.personnel
                case Some(p) =>
                  && TakenFrom(Trim(e.contactName), p.contactName, base.contactName)
                  && TakenFrom(Trim(e.contactPhone), p.contactPhone, base.contactPhone)
                case None =>
                  && Trim(e.contactName) == Trim(base.contactName) && Trim(e.contactPhone) == Trim(base.contactPhone))
  {
    Overridden(base.productId, req.productId);
    Overridden(base.slotId, req.slotId);
    Overridden(base.specialRequirements, req.specialRequirements);
    if req.personnel.Some? {
      Overridden(base.contactName, req.personnel.value.contactName);
      Overridden(base.contactPhone, req.personnel.value.contactPhone);
    }
    TrimIdempotent(base.contactName);
    TrimIdempotent(base.contactPhone);
  }

  lemma MembersFromDraft(base: Intent, req: ConfirmRequest)
    ensures NonBlank(MergeForConfirm(base, req).members) ==
            NonBlank(if req.personnel.Some? && req.personnel.value.members.Some? then req.personnel.value.members.value
                     else base.members)
  {
    NonBlankTwice(base.members);
    if req.personnel.Some? && req.personnel.value.members.Some? {
      NonBlankTwice(req.personnel.value.members.value);
    }
  }

  /** The draft that the request names. */
  predicate NamedDraft(b: DraftBook, req: ConfirmRequest, i: nat) {
    i < |b.drafts| && DraftKey(b.drafts[i]) == FoldKey(req.draftId)
  }

  lemma NamedDraftIsFound(b: DraftBook, req: ConfirmRequest, i: nat)
    requires DraftsOk(b) && NamedDraft(b, req, i)
    ensures KeyIndex(b.drafts, DraftKey, FoldKey(Trim(req.draftId))) == i
  {
    FoldKeyOfTrim(req.draftId);
    KeyIndexFinds(b.drafts, DraftKey, FoldKey(req.draftId));
    assert b.drafts[i] in b.drafts;
  }

  /** The draft as it is closed: settled, with the merged data, and with the number of its reservation. */
  predicate ClosedFor(d: IntakeDraft, d': IntakeDraft, req: ConfirmRequest, r: Reservation, now: int) {
    && d'.id == d.id && d'.userId == d.userId && d'.channel == d.channel && d'.content == d.content
    && d'.createdAt == d.createdAt && d'.productCandidates == d.productCandidates
    && d'.slotCandidates == d.slotCandidates
    && d'.status == Closed && d'.reservationId == r.id && d'.missing == [] && d'.updatedAt == Some(now)
    && d'.extracted == MergeForConfirm(d.extracted, req)
  }

  lemma NamedDraftIsConfirmed(b: DraftBook, books: Books, req: ConfirmRequest, now: int, r1: bool, r2: bool, i: nat)
    requires DraftsOk(b) && NamedDraft(b, req, i) && Trim(req.draftId) != ""
    ensures var reply := Confirm(b, books, req, now, r1, r2);
            var input := ToReservationInput(MergeForConfirm(b.drafts[i].extracted, req), b.drafts[i].userId);
            var made := CreateReservation(books, input, now, r1);
            && (!reply.result.Reserved? ==> reply.drafts == b && reply.books == books)
            && (reply.result.Reserved? ==>
                  && made.result == Ok(reply.result.reservation) && reply.books == made.books
                  && reply.drafts == Closing(b, i, req, reply.result.reservation, now, r2))
  {
    NamedDraftIsFound(b, req, i);
    var input := ToReservationInput(MergeForConfirm(b.drafts[i].extracted, req), b.drafts[i].userId);
    CreatedAsAsked(books, input, now, r1);
  }

  lemma NamedDraftIsClosed(b: DraftBook, req: ConfirmRequest, r: Reservation, now: int, saved: bool, i: nat)
    returns (d': IntakeDraft)
    requires i < |b.drafts|
    ensures var c := Closing(b, i, req, r, now, saved);
            && (!saved ==> c == b)
            && (saved ==> ClosedFor(b.drafts[i], d', req, r, now)
                          && multiset(c.drafts) == multiset(b.drafts) - multiset{b.drafts[i]} + multiset{d'})
  {
    d' := Close(b.drafts[i], MergeForConfirm(b.drafts[i].extracted, req), r.id, now);
    ReplacedMultiset(b.drafts, i, d');
    WrittenDrafts(b.(drafts := b.drafts[i := d']));
  }

  /** A confirmation that is accepted books the draft's own data, and closes that draft and no other. One that is not
      changes neither the drafts nor the books. */
  lemma ConfirmedCarriesDraft(b: DraftBook, books: Books, req: ConfirmRequest, now: int, r1: bool, r2: bool, i: nat)
    returns (d': IntakeDraft)
    requires DraftsOk(b) && NamedDraft(b, req, i) && Trim(req.draftId) != ""
    ensures var reply := Confirm(b, books, req, now, r1, r2);
            && (!reply.result.Reserved? ==> reply.drafts == b && reply.books == books)
            && (reply.result.Reserved? ==>
                  var r := reply.result.reservation;
                  && CarriesDraft(r, b.drafts[i], req)
                  && r.status == Pending && r.createdAt == now
                  && multiset(reply.books.reservations) == multiset(books.reservations) + multiset{r}
                  && reply.books.products == books.products && reply.books.slots == books.slots
                  && (!r2 ==> reply.drafts == b)
                  && (r2 ==> ClosedFor(b.drafts[i], d', req, r, now)
                             && multiset(reply.drafts.drafts) ==
                                multiset(b.drafts) - multiset{b.drafts[i]} + multiset{d'}))
  {
    d' := b.drafts[i];
    NamedDraftIsConfirmed(b, books, req, now, r1, r2, i);
    if Confirm(b, books, req, now, r1, r2).result.Reserved? {
      var r := Confirm(b, books, req, now, r1, r2).result.reservation;
      var input := ToReservationInput(MergeForConfirm(b.drafts[i].extracted, req), b.drafts[i].userId);
      CreatedAsAsked(books, input, now, r1);
      AskedFromDraft(b.drafts[i], req, r);
      d' := NamedDraftIsClosed(b, req, r, now, r2, i);
    }
  }

  /** It is accepted exactly when the draft is open, its user is named, nothing is missing once the request is put over
      it, the books have room, and the reservation can be written. */
  lemma ConfirmedExactly(b: DraftBook, books: Books, req: ConfirmRequest, now: int, r1: bool, r2: bool, i: nat)
    requires DraftsOk(b) && CatalogOk(books) && NamedDraft(b, req, i) && Trim(req.draftId) != ""
    ensures var e := MergeForConfirm(b.drafts[i].extracted, req);
            Confirm(b, books, req, now, r1, r2).result.Reserved? <==>
            && b.drafts[i].status == Open && (forall f | Required(f) :: Filled(e, f)) && Trim(b.drafts[i].userId) != ""
            && HasRoom(books, ToReservationInput(e, b.drafts[i].userId)) && r1
  {
    var e := MergeForConfirm(b.drafts[i].extracted, req);
    NamedDraftIsFound(b, req, i);
    MissingAre(e);
    if MissingFields(e) == [] {
      CheckedDraftIsComplete(e, b.drafts[i].userId);
      RoomOfDraft(books, e, b.drafts[i].userId, now, r1);
    } else {
      assert MissingFields(e)[0] in MissingFields(e);
    }
  }

  lemma RoomOfDraft(books: Books, e: Intent, userId: string, now: int, saved: bool)
    requires CatalogOk(books) && MissingFields(e) == []
    requires CheckInput(ToReservationInput(e, userId)).Ok? <==> Trim(userId) != ""
    ensures CreateReservation(books, ToReservationInput(e, userId), now, saved).result.Ok? <==>
            Trim(userId) != "" && HasRoom(books, ToReservationInput(e, userId)) && saved
  {
    NothingMissing(e, SizeField);
    RoomMeans(books, ToReservationInput(e, userId));
  }
}
