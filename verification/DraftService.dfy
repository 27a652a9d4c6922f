/** The list of drafts: which one a message continues, how it is stored, and how a draft becomes a
    reservation (internal/service/booking_service_runtime.go).  Instants are in nanoseconds. */
module DraftService {
  import opened Booking
  import opened BookingServices
  import opened Continuation
  import opened Draft
  import opened Sorting
  import opened Text

  datatype DraftStatus = Open | Closed | Expired

  datatype IntakeDraft = IntakeDraft(
    id: string, userId: string, channel: string, content: string, status: DraftStatus, extracted: Intent,
    missing: seq<Field>, productCandidates: seq<Product>, slotCandidates: seq<Slot>,
    createdAt: Option<int>, updatedAt: Option<int>, reservationId: string)

  datatype DraftBook = DraftBook(nextId: int, drafts: seq<IntakeDraft>)

  const CONTINUE_WINDOW := 24 * 60 * 60 * 1_000_000_000

  function DraftKey(d: IntakeDraft): string { FoldKey(d.id) }

  function DraftId(n: nat): string { "d-" + Decimal(n) }

  /** Newest first, then by id. */
  predicate DraftBefore(a: IntakeDraft, b: IntakeDraft) {
    var s := if a.createdAt.Some? then a.createdAt.value else 0;
    var t := if b.createdAt.Some? then b.createdAt.value else 0;
    if s == t then TextBefore(Lower(a.id), Lower(b.id)) else s > t
  }

  function WriteDrafts(b: DraftBook): DraftBook {
    DraftBook(if b.nextId <= 0 then 1 else b.nextId, Sorted(b.drafts, DraftBefore))
  }

  /* ----- The draft that a message continues ----- */

  datatype Search = Search(userId: string, channel: string, requireChannel: bool, now: int)

  function Stamp(d: IntakeDraft): Option<int> {
    if d.updatedAt.Some? then d.updatedAt else d.createdAt
  }

  predicate Eligible(d: IntakeDraft, q: Search) {
    && d.status == Open
    && FoldKey(d.userId) == FoldKey(q.userId)
    && (q.requireChannel ==> FoldKey(d.channel) == FoldKey(q.channel))
    && Stamp(d).Some?
    && q.now - Stamp(d).value <= CONTINUE_WINDOW
  }

  /** The latest eligible one of the first n drafts; the first of them if several are the latest. */
  function LatestOf(ds: seq<IntakeDraft>, q: Search, n: nat): (best: int)
    requires n <= |ds|
    ensures -1 <= best < n && (best >= 0 ==> Eligible(ds[best], q))
  {
    if n == 0 then -1 else
    var best := LatestOf(ds, q, n - 1);
    if Eligible(ds[n - 1], q) && (best < 0 || Stamp(ds[n - 1]).value > Stamp(ds[best]).value) then n - 1 else best
  }

  lemma {:induction false} LatestIsLatest(ds: seq<IntakeDraft>, q: Search, n: nat, j: nat)
    requires j < n <= |ds| && Eligible(ds[j], q)
    ensures LatestOf(ds, q, n) >= 0
    ensures Stamp(ds[j]).value <= Stamp(ds[LatestOf(ds, q, n)]).value
    ensures j < LatestOf(ds, q, n) ==> Stamp(ds[j]).value < Stamp(ds[LatestOf(ds, q, n)]).value
  {
    if j < n - 1 {
      LatestIsLatest(ds, q, n - 1, j);
    }
  }

  function ContinuableIndex(ds: seq<IntakeDraft>, userId: string, channel: string, now: int): (i: int)
    ensures -1 <= i < |ds|
    ensures i >= 0 ==> Trim(userId) != "" && Eligible(ds[i], Search(userId, channel, false, now))
  {
    var here := LatestOf(ds, Search(userId, channel, true, now), |ds|);
    if Trim(userId) == "" then -1
    else if Trim(channel) != "" && here >= 0 then here
    else LatestOf(ds, Search(userId, channel, false, now), |ds|)
  }

  /** A message continues an open draft of its own user from the last day, the latest one, and one from
      its own channel if there is any. */
  lemma ContinuableIsTheLatest(ds: seq<IntakeDraft>, userId: string, channel: string, now: int, j: nat)
    requires Trim(userId) != "" && j < |ds| && Eligible(ds[j], Search(userId, channel, false, now))
    ensures var i := ContinuableIndex(ds, userId, channel, now);
            && i >= 0 && Eligible(ds[i], Search(userId, channel, false, now))
            && (Trim(channel) != "" && FoldKey(ds[j].channel) == FoldKey(channel) ==>
                FoldKey(ds[i].channel) == FoldKey(channel))
            && (Stamp(ds[j]).value > Stamp(ds[i]).value ==>
                  Trim(channel) != "" && FoldKey(ds[i].channel) == FoldKey(channel) != FoldKey(ds[j].channel))
  {
    LatestIsLatest(ds, Search(userId, channel, false, now), |ds|, j);
    if FoldKey(ds[j].channel) == FoldKey(channel) {
      LatestIsLatest(ds, Search(userId, channel, true, now), |ds|, j);
    }
  }

  /** No draft is continued exactly when the user is blank or has no eligible draft. */
  lemma NothingToContinue(ds: seq<IntakeDraft>, userId: string, channel: string, now: int)
    ensures ContinuableIndex(ds, userId, channel, now) < 0 <==>
            Trim(userId) == "" || forall j | 0 <= j < |ds| :: !Eligible(ds[j], Search(userId, channel, false, now))
  {
    if Trim(userId) != "" {
      if j :| 0 <= j < |ds| && Eligible(ds[j], Search(userId, channel, false, now)) {
        ContinuableIsTheLatest(ds, userId, channel, now, j);
      }
    }
  }

  method FindLatestDraft(ds: seq<IntakeDraft>, q: Search) returns (bestIndex: int)
    ensures bestIndex == LatestOf(ds, q, |ds|)
  {
    bestIndex := -1;
    var bestTime := 0;
    for i := 0 to |ds|
      invariant bestIndex == LatestOf(ds, q, i)
      invariant bestIndex >= 0 ==> Stamp(ds[bestIndex]) == Some(bestTime)
    {
      var d := ds[i];
      if d.status != Open {
        continue;
      }
      if FoldKey(d.userId) != FoldKey(q.userId) {
        continue;
      }
      if q.requireChannel && FoldKey(d.channel) != FoldKey(q.channel) {
        continue;
      }
      if Stamp(d).None? {
        continue;
      }
      var timestamp := Stamp(d).value;
      if q.now - timestamp > CONTINUE_WINDOW {
        continue;
      }
      if bestIndex < 0 || timestamp > bestTime {
        bestIndex, bestTime := i, timestamp;
      }
    }
  }

  method FindContinuableDraft(ds: seq<IntakeDraft>, userId: string, channel: string, now: int) returns (index: int)
    ensures index == ContinuableIndex(ds, userId, channel, now)
  {
    if Trim(userId) == "" {
      return -1;
    }
    if Trim(channel) != "" {
      index := FindLatestDraft(ds, Search(userId, channel, true, now));
      if index >= 0 {
        return;
      }
    }
    index := FindLatestDraft(ds, Search(userId, channel, false, now));
  }

  /* ----- Reading a message into the list ----- */

  datatype ParseRequest = ParseRequest(userId: string, channel: string, content: string)

  function Continued(d: IntakeDraft, req: ParseRequest, m: Message, now: int): IntakeDraft {
    var merged := Merge(d.extracted, Reading(m));
    var extracted := Continue(d.extracted, m);
    d.(extracted := extracted,
       missing := MissingFields(extracted),
       productCandidates := ProductCandidates(merged, m.ctx.products),
       slotCandidates := SlotCandidates(EnrichProduct(merged, m.ctx), m.ctx.timeOf, m.ctx.slots),
       content := req.content,
       channel := if Trim(d.channel) == "" then req.channel else d.channel,
       updatedAt := Some(now))
  }

  function Started(id: string, req: ParseRequest, m: Message, now: int): IntakeDraft {
    var e := Normalize(m.reading);
    IntakeDraft(id, req.userId, req.channel, req.content, Open, Reading(m), MissingFields(Reading(m)),
                ProductCandidates(e, m.ctx.products),
                SlotCandidates(EnrichProduct(e, m.ctx), m.ctx.timeOf, m.ctx.slots),
                Some(now), Some(now), "")
  }

  function NextDraftNumber(b: DraftBook): (n: nat)
    ensures n > 0
  {
    if b.nextId <= 0 then 1 else b.nextId
  }

  /** The list after the message, in the order in which the program builds it. */
  function Parsed(b: DraftBook, req: ParseRequest, m: Message, now: int): DraftBook {
    var i := ContinuableIndex(b.drafts, req.userId, req.channel, now);
    if i >= 0 then b.(drafts := b.drafts[i := Continued(b.drafts[i], req, m, now)])
    else DraftBook(NextDraftNumber(b) + 1, b.drafts + [Started(DraftId(NextDraftNumber(b)), req, m, now)])
  }

  function Parse(b: DraftBook, req: ParseRequest, m: Message, now: int, saved: bool): DraftBook {
    if saved then WriteDrafts(Parsed(b, req, m, now)) else b
  }

  /* ----- Turning a draft into a reservation ----- */

  datatype PersonnelInput = PersonnelInput(contactName: string, contactPhone: string, members: Option<seq<string>>)

  datatype ConfirmRequest = ConfirmRequest(draftId: string, productId: string, slotId: string, partySize: int,
                                           personnel: Option<PersonnelInput>, specialRequirements: string)

  datatype ConfirmResult =
    | Reserved(reservation: Reservation)
    | DraftIdRequired
    | DraftNotFound
    | DraftNotOpen
    | Missing(fields: seq<Field>)
    | Refused(error: Error)

  function Override(current: string, value: string): string {
    if Trim(value) == "" then current else Trim(value)
  }

  function MergeForConfirm(base: Intent, req: ConfirmRequest): Intent {
    var m := Normalize(base);
    var p := req.personnel;
    Normalize(m.(
      productId := Override(m.productId, req.productId),
      slotId := Override(m.slotId, req.slotId),
      partySize := if req.partySize > 0 then req.partySize else m.partySize,
      contactName := if p.Some? then Override(m.contactName, p.value.contactName) else m.contactName,
      contactPhone := if p.Some? then Override(m.contactPhone, p.value.contactPhone) else m.contactPhone,
      members := if p.Some? && p.value.members.Some? then p.value.members.value else m.members,
      specialRequirements := Override(m.specialRequirements, req.specialRequirements)))
  }

  function ToReservationInput(e: Intent, userId: string): ReservationInput {
    ReservationInput(Trim(e.productId), Trim(e.slotId), Trim(userId), e.partySize,
                     Personnel(Trim(e.contactName), Trim(e.contactPhone), e.members), Trim(e.specialRequirements))
  }

  /** The checks before the reservation is made: the index of the draft, or why there is none. */
  function CheckDraft(b: DraftBook, req: ConfirmRequest): (check: ConfirmResult)
    ensures check.Missing? ==> KeyIndex(b.drafts, DraftKey, FoldKey(Trim(req.draftId))) >= 0
  {
    var i := KeyIndex(b.drafts, DraftKey, FoldKey(Trim(req.draftId)));
    if Trim(req.draftId) == "" then DraftIdRequired
    else if i < 0 then DraftNotFound
    else if b.drafts[i].status != Open then DraftNotOpen
    else Missing(MissingFields(MergeForConfirm(b.drafts[i].extracted, req)))
  }

  function Close(d: IntakeDraft, e: Intent, reservationId: string, now: int): IntakeDraft {
    d.(extracted := e, missing := [], status := Closed, reservationId := reservationId, updatedAt := Some(now))
  }

  /** The draft list after the reservation was made; an error in this write is not reported. */
  function Closing(b: DraftBook, i: nat, req: ConfirmRequest, r: Reservation, now: int, saved: bool): DraftBook
    requires i < |b.drafts|
  {
    var d := b.drafts[i];
    var closed := Close(d, MergeForConfirm(d.extracted, req), r.id, now);
    if saved then WriteDrafts(b.(drafts := b.drafts[i := closed])) else b
  }

  datatype ConfirmReply = ConfirmReply(drafts: DraftBook, books: Books, result: ConfirmResult)

  function Confirm(b: DraftBook, books: Books, req: ConfirmRequest, now: int, reservationSaved: bool,
                   draftSaved: bool): ConfirmReply {
    var check := CheckDraft(b, req);
    var i := KeyIndex(b.drafts, DraftKey, FoldKey(Trim(req.draftId)));
    if !check.Missing? || |check.fields| > 0 then ConfirmReply(b, books, check)
    else
      var input := ToReservationInput(MergeForConfirm(b.drafts[i].extracted, req), b.drafts[i].userId);
      var made := CreateReservation(books, input, now, reservationSaved);
      if made.result.Err? then ConfirmReply(b, made.books, Refused(made.result.error))
      else ConfirmReply(Closing(b, i, req, made.result.value, now, draftSaved), made.books, Reserved(made.result.value))
  }

  /* ----- The controller ----- */

  class DraftController {
    const service: BookingService
    var nextId: int
    var drafts: seq<IntakeDraft>

    constructor (service: BookingService)
      ensures this.service == service && Contents() == DraftBook(1, [])
    {
      this.service, nextId, drafts := service, 1, [];
    }

    function Contents(): DraftBook
      reads this
    {
      DraftBook(nextId, drafts)
    }

    method ParseIntentDraft(req: ParseRequest, m: Message, now: int, saved: bool)
      modifies this
      ensures Contents() == Parse(old(Contents()), req, m, now, saved)
    {
      var extracted, ps, ss := EnrichCandidates(Normalize(m.reading), m.ctx);
      var index := FindContinuableDraft(drafts, req.userId, req.channel, now);
      var list, next := drafts, nextId;
      if index >= 0 {
        var original := list[index];
        var merged, applied := MergeForContinuation(original.extracted, extracted);
        merged, ps, ss := EnrichCandidates(merged, m.ctx);
        merged := Normalize(merged);
        var updated := original.(extracted := merged, missing := MissingFields(merged), productCandidates := ps,
                                 slotCandidates := ss, content := req.content);
        if Trim(updated.channel) == "" {
          updated := updated.(channel := req.channel);
        }
        list := list[index := updated.(updatedAt := Some(now))];
      } else {
        next := if next <= 0 then 1 else next;
        list := list + [IntakeDraft(DraftId(next), req.userId, req.channel, req.content, Open, extracted,
                                    MissingFields(extracted), ps, ss, Some(now), Some(now), "")];
        next := next + 1;
      }
      if saved {
        nextId := if next <= 0 then 1 else next;
        drafts := Sorted(list, DraftBefore);
      }
    }

    /** The first half: find the draft, apply the request to it and see what is missing. */
    method CheckIntentDraft(req: ConfirmRequest) returns (check: ConfirmResult, index: int)
      ensures check == CheckDraft(Contents(), req)
      ensures check.Missing? ==> index == KeyIndex(drafts, DraftKey, FoldKey(Trim(req.draftId))) && index >= 0
    {
      index := -1;
      var draftId := Trim(req.draftId);
      if draftId == "" {
        return DraftIdRequired, index;
      }
      index := FindIndex(drafts, DraftKey, draftId);
      if index < 0 {
        return DraftNotFound, index;
      }
      if drafts[index].status != Open {
        return DraftNotOpen, index;
      }
      check := Missing(MissingFields(MergeForConfirm(drafts[index].extracted, req)));
    }

    /** The last half: the draft is closed, and a failed write goes unnoticed. */
    method CloseDraft(index: nat, req: ConfirmRequest, r: Reservation, now: int, saved: bool)
      requires index < |drafts|
      modifies this
      ensures Contents() == Closing(old(Contents()), index, req, r, now, saved)
    {
      var merged := MergeForConfirm(drafts[index].extracted, req);
      if saved {
        nextId := if nextId <= 0 then 1 else nextId;
        drafts := Sorted(drafts[index := Close(drafts[index], merged, r.id, now)], DraftBefore);
      }
    }

    method ConfirmIntentDraft(req: ConfirmRequest, now: int, reservationSaved: bool, draftSaved: bool)
      returns (result: ConfirmResult)
      modifies this, service
      ensures ConfirmReply(Contents(), service.Contents(), result) ==
              Confirm(old(Contents()), old(service.Contents()), req, now, reservationSaved, draftSaved)
    {
      var check, index := CheckIntentDraft(req);
      if !check.Missing? || |check.fields| > 0 {
        return check;
      }
      var input := ToReservationInput(MergeForConfirm(drafts[index].extracted, req), drafts[index].userId);
      var made := service.CreateReservation(input, now, reservationSaved);
      if made.Err? {
        return Refused(made.error);
      }
      CloseDraft(index, req, made.value, now, draftSaved);
      return Reserved(made.value);
    }
  }
}
