/** What holds over whole runs of the draft list next to the booking service
    (internal/service/booking_service_runtime.go).  Each confirmation is one step: overlapping
    confirmations of one draft are not part of this model. */
module DraftTheorems {
  import opened Booking
  import BookingLaws
  import opened BookingTheorems
  import opened Continuation
  import opened Draft
  import opened DraftService
  import opened Sorting
  import opened Text

  datatype State = State(drafts: DraftBook, books: Books)

  datatype Event =
    | ReadMessage(req: ParseRequest, m: Message, now: int, saved: bool)
    | ConfirmDraft(confirm: ConfirmRequest, now: int, reservationSaved: bool, draftSaved: bool)
    | Booked(request: Request)

  function Step(s: State, e: Event): State {
    match e
    case ReadMessage(req, m, now, saved) => s.(drafts := Parse(s.drafts, req, m, now, saved))
    case ConfirmDraft(req, now, reservationSaved, draftSaved) =>
      var reply := Confirm(s.drafts, s.books, req, now, reservationSaved, draftSaved);
      State(reply.drafts, reply.books)
    case Booked(q) => s.(books := Serve(s.books, q))
  }

  function Run(s: State, es: seq<Event>): State
    decreases |es|
  {
    if |es| == 0 then s else Run(Step(s, es[0]), es[1..])
  }

  /** Every draft id is one that the counter has handed out, and no two drafts share one. */
  ghost predicate DraftsOk(b: DraftBook) {
    && Distinct(b.drafts, DraftKey)
    && forall d | d in b.drafts :: Issued(d, NextDraftNumber(b))
  }

  ghost predicate Issued(d: IntakeDraft, bound: nat) {
    exists n: nat :: n < bound && DraftKey(d) == DraftId(n)
  }

  lemma DraftIdIsItsKey(n: nat)
    ensures FoldKey(DraftId(n)) == DraftId(n)
  {
    var id := DraftId(n);
    TrimFixed(id);
    assert id[|id| - 1] == Decimal(n)[|Decimal(n)| - 1];
    assert Lower(id) == id;
  }

  lemma DraftIdInjective(m: nat, n: nat)
    requires DraftId(m) == DraftId(n)
    ensures m == n
  {
    assert DraftId(m)[2..] == Decimal(m) && DraftId(n)[2..] == Decimal(n);
    DecimalInjective(m, n);
  }

  lemma NoDraftsOk()
    ensures DraftsOk(DraftBook(1, []))
  {
  }

  lemma WriteDraftsKeepsOk(b: DraftBook)
    requires DraftsOk(b)
    ensures DraftsOk(WriteDrafts(b))
    ensures forall d :: d in WriteDrafts(b).drafts <==> d in b.drafts
  {
    SortedMembers(b.drafts, DraftBefore, DraftKey);
    forall d | d in WriteDrafts(b).drafts
      ensures Issued(d, NextDraftNumber(WriteDrafts(b)))
    {
      assert Issued(d, NextDraftNumber(b));
    }
  }

  lemma ReplacedKeepsOk(b: DraftBook, i: nat, d: IntakeDraft)
    requires DraftsOk(b) && i < |b.drafts| && DraftKey(d) == DraftKey(b.drafts[i])
    ensures DraftsOk(b.(drafts := b.drafts[i := d]))
    ensures forall x | x in b.drafts :: x in b.drafts[i := d] || x == b.drafts[i]
    ensures d in b.drafts[i := d]
  {
    var c := b.(drafts := b.drafts[i := d]);
    Replaced(b.drafts, i, d, DraftKey);
    assert c.drafts[i] == d;
    assert b.drafts[i] in b.drafts;
    assert Issued(b.drafts[i], NextDraftNumber(b));
    forall x | x in c.drafts
      ensures Issued(x, NextDraftNumber(c))
    {
      var j :| 0 <= j < |c.drafts| && c.drafts[j] == x;
      assert j != i ==> b.drafts[j] in b.drafts;
    }
    forall x | x in b.drafts
      ensures x in c.drafts || x == b.drafts[i]
    {
      var j :| 0 <= j < |b.drafts| && b.drafts[j] == x;
      assert j != i ==> c.drafts[j] == x;
    }
  }

  lemma AppendedKeepsOk(b: DraftBook, d: IntakeDraft)
    requires DraftsOk(b) && d.id == DraftId(NextDraftNumber(b))
    ensures DraftsOk(DraftBook(NextDraftNumber(b) + 1, b.drafts + [d]))
  {
    var n := NextDraftNumber(b);
    var c := DraftBook(n + 1, b.drafts + [d]);
    DraftIdIsItsKey(n);
    forall x | x in b.drafts
      ensures DraftKey(x) != DraftKey(d)
    {
      assert Issued(x, n);
      var k: nat :| k < n && DraftKey(x) == DraftId(k);
      if DraftId(k) == DraftId(n) {
        DraftIdInjective(k, n);
      }
    }
    Appended(b.drafts, d, DraftKey);
    forall x | x in c.drafts
      ensures Issued(x, n + 1)
    {
      if x in b.drafts {
        assert Issued(x, n);
        var k: nat :| k < n && DraftKey(x) == DraftId(k);
        assert k < n + 1;
      } else {
        assert DraftKey(x) == DraftId(n);
      }
    }
  }

  /* ----- What one message does to the list ----- */

  /** The draft is the same one, still open, continued by one message. */
  ghost predicate ContinuedBy(d: IntakeDraft, d': IntakeDraft, m: Message) {
    && d.status == Open && d'.status == Open
    && d'.id == d.id && d'.userId == d.userId && d'.createdAt == d.createdAt && d'.reservationId == d.reservationId
    && d'.extracted == Continue(d.extracted, m)
    && d'.missing == MissingFields(d'.extracted)
  }

  /** A message touches at most one draft, an open one of its own user, and only by continuing it. */
  lemma ParseKeepsOk(b: DraftBook, req: ParseRequest, m: Message, now: int, saved: bool)
    requires DraftsOk(b)
    ensures var c := Parse(b, req, m, now, saved);
            && DraftsOk(c)
            && forall d | d in b.drafts && d !in c.drafts ::
                 FoldKey(d.userId) == FoldKey(req.userId) && exists d' :: d' in c.drafts && ContinuedBy(d, d', m)
    ensures var c := Parse(b, req, m, now, saved);
            forall d, x | d in b.drafts && x in b.drafts :: d in c.drafts || x in c.drafts || d == x
  {
    if saved {
      var i := ContinuableIndex(b.drafts, req.userId, req.channel, now);
      var c := Parsed(b, req, m, now);
      if i >= 0 {
        ReplacedKeepsOk(b, i, c.drafts[i]);
        assert ContinuedBy(b.drafts[i], c.drafts[i], m);
      } else {
        AppendedKeepsOk(b, c.drafts[|b.drafts|]);
      }
      WriteDraftsKeepsOk(c);
    }
  }

  /* ----- Confirming ----- */

  lemma FoldKeyOfTrim(id: string)
    ensures FoldKey(Trim(id)) == FoldKey(id)
  {
    TrimIdempotent(id);
  }

  /** What an accepted confirmation found. */
  lemma AcceptedConfirmation(b: DraftBook, books: Books, req: ConfirmRequest, now: int, r1: bool, r2: bool)
    returns (i: nat)
    requires Confirm(b, books, req, now, r1, r2).result.Reserved?
    ensures i < |b.drafts| && DraftKey(b.drafts[i]) == FoldKey(req.draftId) && b.drafts[i].status == Open
    ensures Confirm(b, books, req, now, r1, r2).drafts ==
            Closing(b, i, req, Confirm(b, books, req, now, r1, r2).result.reservation, now, r2)
  {
    i := CheckedDraft(b, req);
  }

  lemma CheckedDraft(b: DraftBook, req: ConfirmRequest) returns (i: nat)
    requires CheckDraft(b, req).Missing?
    ensures i == KeyIndex(b.drafts, DraftKey, FoldKey(Trim(req.draftId)))
    ensures i < |b.drafts| && DraftKey(b.drafts[i]) == FoldKey(req.draftId) && b.drafts[i].status == Open
  {
    FoldKeyOfTrim(req.draftId);
    KeyIndexFinds(b.drafts, DraftKey, FoldKey(Trim(req.draftId)));
    i := KeyIndex(b.drafts, DraftKey, FoldKey(Trim(req.draftId)));
  }

  lemma ConfirmKeepsOk(b: DraftBook, books: Books, req: ConfirmRequest, now: int, r1: bool, r2: bool)
    requires DraftsOk(b)
    ensures var c := Confirm(b, books, req, now, r1, r2).drafts;
            DraftsOk(c) && forall d | d in b.drafts && d !in c.drafts :: d.status == Open
  {
    if Confirm(b, books, req, now, r1, r2).result.Reserved? && r2 {
      var i := AcceptedConfirmation(b, books, req, now, r1, r2);
      var r := Confirm(b, books, req, now, r1, r2).result.reservation;
      var d := Close(b.drafts[i], MergeForConfirm(b.drafts[i].extracted, req), r.id, now);
      ReplacedKeepsOk(b, i, d);
      WriteDraftsKeepsOk(b.(drafts := b.drafts[i := d]));
    }
  }

  lemma StepKeepsOk(s: State, e: Event)
    requires DraftsOk(s.drafts)
    ensures DraftsOk(Step(s, e).drafts)
    ensures forall d | d in s.drafts.drafts && d.status != Open :: d in Step(s, e).drafts.drafts
  {
    match e
    case ReadMessage(req, m, now, saved) => ParseKeepsOk(s.drafts, req, m, now, saved);
    case ConfirmDraft(req, now, r1, r2) => ConfirmKeepsOk(s.drafts, s.books, req, now, r1, r2);
    case Booked(q) =>
  }

  /** A draft that is no longer open stays in the list as it is, through any run. */
  lemma {:induction false} ClosedDraftsNeverChange(s: State, es: seq<Event>, d: IntakeDraft)
    requires DraftsOk(s.drafts) && d in s.drafts.drafts && d.status != Open
    ensures DraftsOk(Run(s, es).drafts) && d in Run(s, es).drafts.drafts
    decreases |es|
  {
    if |es| > 0 {
      StepKeepsOk(s, es[0]);
      ClosedDraftsNeverChange(Step(s, es[0]), es[1..], d);
    }
  }

  lemma ClosedDraftIsRefused(b: DraftBook, d: IntakeDraft, req: ConfirmRequest)
    requires DraftsOk(b) && d in b.drafts && d.status != Open && DraftKey(d) == FoldKey(req.draftId) &&
             Trim(req.draftId) != ""
    ensures CheckDraft(b, req) == DraftNotOpen
  {
    FoldKeyOfTrim(req.draftId);
    KeyIndexFinds(b.drafts, DraftKey, FoldKey(Trim(req.draftId)));
    var i := KeyIndex(b.drafts, DraftKey, FoldKey(Trim(req.draftId)));
    assert HasKey(b.drafts, DraftKey, DraftKey(d));
    DistinctMembers(b.drafts, DraftKey, d, b.drafts[i]);
  }

  lemma ClosingStores(b: DraftBook, i: nat, req: ConfirmRequest, r: Reservation, now: int) returns (d: IntakeDraft)
    requires DraftsOk(b) && i < |b.drafts|
    ensures DraftsOk(Closing(b, i, req, r, now, true))
    ensures d in Closing(b, i, req, r, now, true).drafts && d.status == Closed && d.id == b.drafts[i].id &&
            d.reservationId == r.id
  {
    d := Close(b.drafts[i], MergeForConfirm(b.drafts[i].extracted, req), r.id, now);
    ReplacedKeepsOk(b, i, d);
    WriteDraftsKeepsOk(b.(drafts := b.drafts[i := d]));
  }

  /** One draft makes at most one reservation in any run without overlapping confirmations, provided the
      draft was written back: every later confirmation of it is refused. */
  lemma ConfirmedOnce(s: State, first: ConfirmRequest, now: int, es: seq<Event>, second: ConfirmRequest)
    requires DraftsOk(s.drafts)
    requires Confirm(s.drafts, s.books, first, now, true, true).result.Reserved?
    requires FoldKey(second.draftId) == FoldKey(first.draftId)
    ensures CheckDraft(Run(Step(s, ConfirmDraft(first, now, true, true)), es).drafts, second) == DraftNotOpen
  {
    var i := AcceptedConfirmation(s.drafts, s.books, first, now, true, true);
    var r := Confirm(s.drafts, s.books, first, now, true, true).result.reservation;
    var d := ClosingStores(s.drafts, i, first, r, now);
    var t := Step(s, ConfirmDraft(first, now, true, true));
    ClosedDraftsNeverChange(t, es, d);
    assert |Trim(second.draftId)| == |FoldKey(second.draftId)| == |Trim(first.draftId)|;
    ClosedDraftIsRefused(Run(t, es).drafts, d, second);
  }

  /** The write is needed: the draft is closed to a second confirmation exactly when it was written back. */
  lemma LostWriteLeavesDraftOpen(b: DraftBook, books: Books, req: ConfirmRequest, now: int, draftSaved: bool)
    requires DraftsOk(b) && Confirm(b, books, req, now, true, draftSaved).result.Reserved?
    ensures CheckDraft(Confirm(b, books, req, now, true, draftSaved).drafts, req) == DraftNotOpen <==> draftSaved
  {
    var i := AcceptedConfirmation(b, books, req, now, true, draftSaved);
    if draftSaved {
      var r := Confirm(b, books, req, now, true, true).result.reservation;
      var d := ClosingStores(b, i, req, r, now);
      ClosedDraftIsRefused(Closing(b, i, req, r, now, true), d, req);
    }
  }

  /** Whenever that write is lost, the same confirmation is accepted once more and makes a second reservation. */
  lemma LostWriteReservesTwice(b: DraftBook, books: Books, req: ConfirmRequest, now: int, later: int, draftSaved: bool)
    requires DraftsOk(b) && BooksOk(books) && Confirm(b, books, req, now, true, false).result.Reserved?
    ensures var first := Confirm(b, books, req, now, true, false);
            var second := Confirm(first.drafts, first.books, req, later, true, draftSaved);
            second.result.Reserved? &&
            ReservationKey(second.result.reservation) != ReservationKey(first.result.reservation)
  {
    var first := Confirm(b, books, req, now, true, false);
    var i := KeyIndex(b.drafts, DraftKey, FoldKey(Trim(req.draftId)));
    var input := ToReservationInput(MergeForConfirm(b.drafts[i].extracted, req), b.drafts[i].userId);
    assert first.drafts == b;
    var r' := BookingLaws.ReserveTwice(books, input, now, first.books, first.result.reservation, later);
  }

  /** The request read as a message that is perfectly sure of itself. */
  function AsIntent(req: ConfirmRequest): Intent {
    var p := if req.personnel.Some? then req.personnel.value else PersonnelInput("", "", None);
    Intent(req.productId, "", req.slotId, "", req.partySize, p.contactName, p.contactPhone,
           if p.members.Some? then p.members.value else [], req.specialRequirements, 1.0)
  }

  /** A confirmation overrides the draft in every field that it fills in and in no other; an explicit list
      of members replaces the draft's even when it is empty. */
  lemma ConfirmationOverrides(base: Intent, req: ConfirmRequest, f: Field)
    ensures f != MembersField ==>
              if Filled(AsIntent(req), f) then SameField(MergeForConfirm(base, req), AsIntent(req), f)
              else SameField(MergeForConfirm(base, req), base, f)
    ensures f == MembersField ==>
              if req.personnel.Some? && req.personnel.value.members.Some?
              then SameField(MergeForConfirm(base, req), AsIntent(req), f)
              else SameField(MergeForConfirm(base, req), base, f)
  {
    var m := Normalize(base);
    NormalizeKeepsFields(base, f);
    NormalizeIsNormal(base);
    TrimIdempotent(req.productId);
    TrimIdempotent(req.slotId);
    TrimIdempotent(req.specialRequirements);
    TrimFixed("");
    if req.personnel.Some? {
      TrimIdempotent(req.personnel.value.contactName);
      TrimIdempotent(req.personnel.value.contactPhone);
      if req.personnel.value.members.Some? {
        NonBlankClean(req.personnel.value.members.value);
        NonBlankFixed(NonBlank(req.personnel.value.members.value));
      }
    }
    NonBlankFixed(m.members);
  }

  lemma NothingMissing(e: Intent, f: Field)
    requires MissingFields(e) == [] && Required(f)
    ensures Filled(e, f)
  {
    MissingFieldsAre(e, f);
  }

  /** A draft that passes the check asks the booking service for a complete reservation: only the user
      and the state of the books can still stand in the way. */
  lemma CheckedDraftIsComplete(e: Intent, userId: string)
    requires MissingFields(e) == []
    ensures CheckInput(ToReservationInput(e, userId)).Ok? <==> Trim(userId) != ""
    ensures Trim(userId) == "" ==> CheckInput(ToReservationInput(e, userId)) == Err(UserIdRequired)
  {
    NothingMissing(e, ProductField);
    NothingMissing(e, SlotField);
    NothingMissing(e, SizeField);
    NothingMissing(e, NameField);
    NothingMissing(e, PhoneField);
    TrimIdempotent(e.productId);
    TrimIdempotent(e.slotId);
    TrimIdempotent(userId);
    TrimIdempotent(e.contactName);
    TrimIdempotent(e.contactPhone);
  }
}
