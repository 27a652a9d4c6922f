/** What the answer of a booking request means to its caller: which request is accepted, that what is stored is what was
    asked for, and that nothing else in the books has changed (internal/service/booking_service.go). */
module BookingOutcomes {
  import opened Booking
  import opened BookingLaws
  import opened BookingTheorems
  import opened Sorting
  import opened Text

  /* ----- Lists of names ----- */

  /** Members are kept one by one, trimmed, in their order; blank ones are dropped. */
  lemma {:induction false} NonBlankConcat(a: seq<string>, b: seq<string>)
    ensures NonBlank(a + b) == NonBlank(a) + NonBlank(b)
    decreases |b|
  {
    if |b| == 0 {
      assert a + b == a && NonBlank(b) == [];
    } else {
      var init, last := b[..|b| - 1], b[|b| - 1];
      assert (a + b)[..|a + b| - 1] == a + init && (a + b)[|a + b| - 1] == last;
      NonBlankConcat(a, init);
    }
  }

  lemma NonBlankOne(text: string)
    ensures NonBlank([text]) == if Trim(text) == "" then [] else [Trim(text)]
  {
    assert [text][..0] == [];
  }

  /* ----- Reservations ----- */

  /** The reservation is the one that the input asks for. */
  predicate AskedFor(input: ReservationInput, r: Reservation) {
    && r.productId == Trim(input.productId) && r.slotId == Trim(input.slotId) && r.userId == Trim(input.userId)
    && r.partySize == input.partySize && r.specialRequirements == Trim(input.specialRequirements)
    && r.personnel.contactName == Trim(input.personnel.contactName)
    && r.personnel.contactPhone == Trim(input.personnel.contactPhone)
    && r.personnel.members == NonBlank(input.personnel.members)
  }

  /** The input names everything that a reservation needs. */
  predicate Complete(input: ReservationInput) {
    && Trim(input.productId) != "" && Trim(input.slotId) != "" && Trim(input.userId) != "" && input.partySize > 0
    && Trim(input.personnel.contactName) != "" && Trim(input.personnel.contactPhone) != ""
  }

  /** There is an enabled product and an enabled slot of it with enough free seats. */
  ghost predicate HasRoom(b: Books, input: ReservationInput) {
    exists p, s :: && p in b.products && ProductKey(p) == FoldKey(input.productId) && p.enabled
                   && s in b.slots && SlotKey(s) == FoldKey(input.slotId) && s.enabled
                   && FoldKey(s.productId) == ProductKey(p)
                   && input.partySize <= s.capacity - ConfirmedTotal(b.reservations, SlotKey(s))
  }

  /** Of an accepted request exactly what it asks for is stored, as pending and from now; the products, the slots and
      every other reservation stay as they are. A refused request changes nothing. */
  lemma CreatedAsAsked(b: Books, input: ReservationInput, now: int, saved: bool)
    ensures var reply := CreateReservation(b, input, now, saved);
            && (reply.result.Err? ==> reply.books == b)
            && (reply.result.Ok? ==>
                  var r := reply.result.value;
                  && AskedFor(input, r)
                  && r.status == Pending && r.systemNote == "" && r.createdAt == now && r.updatedAt == now
                  && r.id == "r-" + Decimal(NextNumber(b))
                  && reply.books.products == b.products && reply.books.slots == b.slots
                  && reply.books.nextId == NextNumber(b) + 1
                  && multiset(reply.books.reservations) == multiset(b.reservations) + multiset{r})
  {
    if CreateReservation(b, input, now, saved).result.Ok? {
      var r := AcceptedReservation(b, input, now, saved);
      SortedIsPermutation(Grown(b, r).reservations, ReservationBefore);
    }
  }

  lemma RoomMeans(b: Books, input: ReservationInput)
    requires CatalogOk(b) && 0 < input.partySize
    ensures CheckRoom(b, input).Ok? <==> HasRoom(b, input)
  {
    TrimIdempotent(input.productId);
    TrimIdempotent(input.slotId);
    KeyIndexFinds(b.products, ProductKey, FoldKey(input.productId));
    KeyIndexFinds(b.slots, SlotKey, FoldKey(input.slotId));
    if HasRoom(b, input) {
      RoomIsFound(b, input);
    }
    if CheckRoom(b, input).Ok? {
      var p := b.products[KeyIndex(b.products, ProductKey, FoldKey(input.productId))];
      var s := CheckRoom(b, input).value;
      AvailableToAll(s.id, s.capacity, b.reservations);
      assert p in b.products && s in b.slots;
    }
  }

  lemma RoomIsFound(b: Books, input: ReservationInput)
    requires CatalogOk(b) && 0 < input.partySize && HasRoom(b, input)
    ensures CheckRoom(b, input).Ok?
  {
    TrimIdempotent(input.productId);
    TrimIdempotent(input.slotId);
    var p, s :| && p in b.products && ProductKey(p) == FoldKey(input.productId) && p.enabled
                && s in b.slots && SlotKey(s) == FoldKey(input.slotId) && s.enabled
                && FoldKey(s.productId) == ProductKey(p)
                && input.partySize <= s.capacity - ConfirmedTotal(b.reservations, SlotKey(s));
    KeyIndexFinds(b.products, ProductKey, FoldKey(input.productId));
    KeyIndexFinds(b.slots, SlotKey, FoldKey(input.slotId));
    var i := KeyIndex(b.products, ProductKey, FoldKey(input.productId));
    var j := KeyIndex(b.slots, SlotKey, FoldKey(input.slotId));
    assert HasKey(b.products, ProductKey, FoldKey(input.productId)) && HasKey(b.slots, SlotKey, FoldKey(input.slotId));
    DistinctMembers(b.products, ProductKey, p, b.products[i]);
    DistinctMembers(b.slots, SlotKey, s, b.slots[j]);
    AvailableToAll(s.id, s.capacity, b.reservations);
  }

  /** A request is accepted exactly when it is complete, there is room, and the file can be written. */
  lemma AcceptedExactly(b: Books, input: ReservationInput, now: int, saved: bool)
    requires CatalogOk(b)
    ensures CreateReservation(b, input, now, saved).result.Ok? <==> Complete(input) && HasRoom(b, input) && saved
  {
    if Complete(input) {
      RoomMeans(b, input);
    }
  }

  /** Confirming what was reserved takes exactly the seats that were asked for, of that slot and of no other. */
  lemma ConfirmingTakesTheParty(b: Books, input: ReservationInput, t1: int, c: Books, r: Reservation, note: string,
                                t2: int, slotKey: string)
    requires BooksOk(b) && CreateReservation(b, input, t1, true) == Reply(c, Ok(r))
    ensures Transition(c, r.id, Confirmed, note, t2, true).result.Ok?
    ensures ConfirmedTotal(Transition(c, r.id, Confirmed, note, t2, true).books.reservations, slotKey) ==
            ConfirmedTotal(b.reservations, slotKey) + (if slotKey == FoldKey(input.slotId) then input.partySize else 0)
  {
    CreatedAsAsked(b, input, t1, true);
    PartyIsPositive(b, input, t1, true);
    CreateReservationKeepsOk(b, input, t1, true);
    ReserveThenConfirm(b, input, t1, c, r, note, t2);
    SettleTotals(c, r.id, Confirmed, note, t2, true, slotKey);
    TrimIdempotent(input.slotId);
    assert Transition(c, r.id, Confirmed, note, t2, true).result.value.slotId == Trim(input.slotId);
  }

  lemma PartyIsPositive(b: Books, input: ReservationInput, now: int, saved: bool)
    requires CreateReservation(b, input, now, saved).result.Ok?
    ensures input.partySize > 0
  {
  }

  /* ----- Settling ----- */

  /** The reservation may be confirmed: its product is there, and its slot is enabled and has the seats left. */
  ghost predicate MayConfirm(b: Books, r: Reservation) {
    && HasKey(b.products, ProductKey, FoldKey(r.productId))
    && exists s :: s in b.slots && SlotKey(s) == FoldKey(r.slotId) && s.enabled
                   && r.partySize <= s.capacity - ConfirmedTotal(b.reservations, SlotKey(s))
  }

  lemma ConfirmCheckMeans(b: Books, i: nat)
    requires BooksOk(b) && i < |b.reservations| && b.reservations[i].status == Pending
    ensures CheckConfirm(b, b.reservations[i]).Ok? <==> MayConfirm(b, b.reservations[i])
  {
    var r := b.reservations[i];
    var j := KeyIndex(b.slots, SlotKey, FoldKey(r.slotId));
    KeyIndexFinds(b.products, ProductKey, FoldKey(r.productId));
    KeyIndexFinds(b.slots, SlotKey, FoldKey(r.slotId));
    ExcludingPending(b, i, FoldKey(r.slotId));
    assert r in b.reservations;
    assert Backed(b, r);
    if MayConfirm(b, r) {
      var s :| s in b.slots && SlotKey(s) == FoldKey(r.slotId) && s.enabled
               && r.partySize <= s.capacity - ConfirmedTotal(b.reservations, SlotKey(s));
      assert HasKey(b.slots, SlotKey, FoldKey(r.slotId));
      DistinctMembers(b.slots, SlotKey, s, b.slots[j]);
    }
    if CheckConfirm(b, r).Ok? {
      assert b.slots[j] in b.slots;
    }
  }

  /** The reservation that the id names. */
  predicate Named(b: Books, id: string, i: nat) {
    i < |b.reservations| && ReservationKey(b.reservations[i]) == FoldKey(id)
  }

  /** Only status, note and time differ. */
  predicate SettledFrom(r: Reservation, r': Reservation, target: Target, note: string, now: int) {
    && r'.status == target && r'.systemNote == Trim(note) && r'.updatedAt == now
    && r' == r.(status := r'.status, systemNote := r'.systemNote, updatedAt := r'.updatedAt)
  }

  lemma NamedIsSettled(b: Books, id: string, target: Target, note: string, now: int, saved: bool, i: nat)
    requires BooksOk(b) && Named(b, id, i) && Trim(id) != ""
    ensures Transition(b, id, target, note, now, saved).result.Ok? <==>
            && b.reservations[i].status == Pending && saved
            && (target == Confirmed ==> CheckConfirm(b, b.reservations[i]).Ok?)
    ensures Transition(b, id, target, note, now, saved).result.Ok? ==>
              Transition(b, id, target, note, now, saved)
              == Reply(WriteReservations(Moved(b, i, target, note, now)),
                       Ok(Moved(b, i, target, note, now).reservations[i]))
  {
    NamedIsFound(b, id, i);
  }

  /** A reservation is settled exactly when the id names a pending one, the file can be written and, for a confirmation,
      it may be confirmed. Then it alone changes: status, note and time. A refusal changes nothing. */
  lemma SettledAsAsked(b: Books, id: string, target: Target, note: string, now: int, saved: bool, i: nat)
    requires BooksOk(b) && Named(b, id, i) && Trim(id) != ""
    ensures var r := b.reservations[i];
            var reply := Transition(b, id, target, note, now, saved);
            && (reply.result.Ok? <==> r.status == Pending && saved && (target == Confirmed ==> MayConfirm(b, r)))
            && (reply.result.Err? ==> reply.books == b)
            && (reply.result.Ok? ==>
                  && SettledFrom(r, reply.result.value, target, note, now)
                  && reply.books.products == b.products && reply.books.slots == b.slots
                  && multiset(reply.books.reservations) ==
                     multiset(b.reservations) - multiset{r} + multiset{reply.result.value})
  {
    NamedIsSettled(b, id, target, note, now, saved, i);
    if b.reservations[i].status == Pending {
      ConfirmCheckMeans(b, i);
    }
    if Transition(b, id, target, note, now, saved).result.Err? {
      RefusedTransition(b, id, target, note, now, saved);
    } else {
      MovedMultiset(b, i, target, note, now);
      MovedIsSettled(b, i, target, note, now);
    }
  }

  lemma MovedIsSettled(b: Books, i: nat, target: Target, note: string, now: int)
    requires i < |b.reservations|
    ensures var c := WriteReservations(Moved(b, i, target, note, now));
            && SettledFrom(b.reservations[i], Moved(b, i, target, note, now).reservations[i], target, note, now)
            && c.products == b.products && c.slots == b.slots
  {
  }

  lemma NamedIsFound(b: Books, id: string, i: nat)
    requires BooksOk(b) && Named(b, id, i)
    ensures KeyIndex(b.reservations, ReservationKey, FoldKey(Trim(id))) == i
  {
    TrimIdempotent(id);
    KeyIndexFinds(b.reservations, ReservationKey, FoldKey(id));
    assert b.reservations[i] in b.reservations;
  }

  lemma MovedMultiset(b: Books, i: nat, target: Target, note: string, now: int)
    requires i < |b.reservations|
    ensures var c := Moved(b, i, target, note, now);
            multiset(WriteReservations(c).reservations) ==
            multiset(b.reservations) - multiset{b.reservations[i]} + multiset{c.reservations[i]}
  {
    SortedIsPermutation(Moved(b, i, target, note, now).reservations, ReservationBefore);
  }

  /** An id that names nothing settles nothing. */
  lemma UnknownIsRefused(b: Books, id: string, target: Target, note: string, now: int, saved: bool)
    requires Trim(id) == "" || !HasKey(b.reservations, ReservationKey, FoldKey(id))
    ensures Transition(b, id, target, note, now, saved).books == b
    ensures Transition(b, id, target, note, now, saved).result ==
            if Trim(id) == "" then Err(ReservationIdRequired) else Err(ReservationNotFound)
  {
    TrimIdempotent(id);
    KeyIndexFinds(b.reservations, ReservationKey, FoldKey(id));
  }

  /* ----- Products ----- */

  /** The stored product that the id names, if there is one. */
  function StoredProduct(b: Books, id: string): Option<Product> {
    var i := KeyIndex(b.products, ProductKey, FoldKey(id));
    if i < 0 then None else Some(b.products[i])
  }

  lemma StoredProductIs(b: Books, id: string)
    ensures StoredProduct(b, id).Some? ==>
              StoredProduct(b, id).value in b.products && ProductKey(StoredProduct(b, id).value) == FoldKey(id)
    ensures StoredProduct(b, id).None? <==> !HasKey(b.products, ProductKey, FoldKey(id))
  {
    KeyIndexFinds(b.products, ProductKey, FoldKey(id));
  }

  /** An accepted product has the name, description and switch of the input; a blank name and a missing switch are
      those of the stored product, and a new product is enabled. It keeps the id under which it was first stored. */
  lemma ProductAsAsked(b: Books, input: ProductInput, p: Product)
    requires PlanProduct(b, input) == Ok(p)
    ensures var stored := StoredProduct(b, input.id);
            && p.id == (if stored.Some? then stored.value.id else Trim(input.id))
            && (Trim(input.name) != "" ==> p.name == Trim(input.name))
            && (Trim(input.name) == "" ==> stored.Some? && p.name == stored.value.name)
            && p.description == Trim(input.description)
            && (input.enabled.Some? ==> p.enabled == input.enabled.value)
            && (input.enabled.None? && stored.Some? ==> p.enabled == stored.value.enabled)
            && (input.enabled.None? && stored.None? ==> p.enabled)
  {
    TrimIdempotent(input.id);
    TrimFixed("");
  }

  /** It is accepted exactly when it has an id and, from the input or from the stored product, a name. */
  lemma ProductAcceptedExactly(b: Books, input: ProductInput)
    ensures PlanProduct(b, input).Ok? <==>
            && Trim(input.id) != ""
            && (Trim(input.name) != "" ||
                (StoredProduct(b, input.id).Some? && Trim(StoredProduct(b, input.id).value.name) != ""))
  {
    TrimIdempotent(input.id);
    TrimIdempotent(input.name);
    TrimFixed("");
  }

  /** An accepted product replaces the one with its id, if there is one; all others and everything else stay. */
  lemma UpsertedProducts(b: Books, input: ProductInput, saved: bool, q: Product)
    requires Distinct(b.products, ProductKey)
    ensures var reply := UpsertProduct(b, input, saved);
            && (reply.result.Err? ==> reply.books == b)
            && (reply.result.Ok? <==> PlanProduct(b, input).Ok? && saved)
            && (reply.result.Ok? ==>
                  && PlanProduct(b, input) == reply.result
                  && (q in reply.books.products <==>
                        q == reply.result.value || (q in b.products && ProductKey(q) != FoldKey(input.id)))
                  && reply.books.reservations == b.reservations
                  && multiset(reply.books.slots) == multiset(b.slots))
  {
    if PlanProduct(b, input).Ok? && saved {
      PutProductMembers(b, input.id, PlanProduct(b, input).value, q);
      SortedMembers(PutProduct(b, Trim(input.id), PlanProduct(b, input).value).products, ProductBefore, ProductKey);
      SortedIsPermutation(b.slots, SlotBefore);
    }
  }

  lemma PutProductMembers(b: Books, id: string, p: Product, q: Product)
    requires Distinct(b.products, ProductKey)
    ensures q in PutProduct(b, Trim(id), p).products <==> q == p || (q in b.products && ProductKey(q) != FoldKey(id))
  {
    TrimIdempotent(id);
    var i := KeyIndex(b.products, ProductKey, FoldKey(id));
    var c := PutProduct(b, Trim(id), p);
    KeyIndexFinds(b.products, ProductKey, FoldKey(id));
    assert c.products[if i < 0 then |b.products| else i] == p;
    if q in b.products && ProductKey(q) != FoldKey(id) {
      var j :| 0 <= j < |b.products| && b.products[j] == q;
      assert c.products[j] == q;
    }
    if q in c.products && q != p {
      var j :| 0 <= j < |c.products| && c.products[j] == q;
      assert b.products[j] == q && j != i;
    }
  }

  /** No slot is of the product, and no active reservation is for it. */
  ghost predicate ProductUnused(b: Books, id: string) {
    && (forall s | s in b.slots :: FoldKey(s.productId) != FoldKey(id))
    && (forall r | r in b.reservations && FoldKey(r.productId) == FoldKey(id) :: !Active(r))
  }

  lemma ProductRemoval(b: Books, id: string, saved: bool)
    ensures var i := KeyIndex(b.products, ProductKey, FoldKey(id));
            var reply := RemoveProduct(b, id, saved);
            && (reply.result == Ok(true) <==> Trim(id) != "" && i >= 0 && ProductUnused(b, id) && saved)
            && (reply.result == Ok(false) <==> Trim(id) != "" && i < 0)
            && (reply.result != Ok(true) ==> reply.books == b)
            && (reply.result == Ok(true) ==>
                  reply.books == WriteCatalog(b.(products := b.products[..i] + b.products[i + 1..])))
  {
    TrimIdempotent(id);
    assert ProductUnused(b, id) <==>
           !SlotsUse(b.slots, FoldKey(id)) && !ReservationsUseProduct(b.reservations, FoldKey(id));
  }

  /** A product is removed exactly when it is there, no slot is of it and no active reservation is for it. Then it alone
      goes. */
  lemma RemovedProducts(b: Books, id: string, saved: bool, q: Product)
    requires Distinct(b.products, ProductKey)
    ensures var reply := RemoveProduct(b, id, saved);
            && (reply.result == Ok(true) <==>
                  Trim(id) != "" && HasKey(b.products, ProductKey, FoldKey(id)) && ProductUnused(b, id) && saved)
            && (reply.result == Ok(false) <==> Trim(id) != "" && !HasKey(b.products, ProductKey, FoldKey(id)))
            && (reply.result != Ok(true) ==> reply.books == b)
            && (reply.result == Ok(true) ==>
                  && (q in reply.books.products <==> q in b.products && ProductKey(q) != FoldKey(id))
                  && reply.books.reservations == b.reservations && multiset(reply.books.slots) == multiset(b.slots))
  {
    var i := KeyIndex(b.products, ProductKey, FoldKey(id));
    ProductRemoval(b, id, saved);
    KeyIndexHas(b.products, ProductKey, FoldKey(id));
    if i >= 0 {
      KeyIndexFinds(b.products, ProductKey, FoldKey(id));
      ProductTakenOut(b, i, q);
    }
  }

  lemma ProductTakenOut(b: Books, i: nat, q: Product)
    requires i < |b.products| && Distinct(b.products, ProductKey)
    ensures var c := WriteCatalog(b.(products := b.products[..i] + b.products[i + 1..]));
            && (q in c.products <==> q in b.products && ProductKey(q) != ProductKey(b.products[i]))
            && c.reservations == b.reservations && multiset(c.slots) == multiset(b.slots)
  {
    Removed(b.products, i, ProductKey);
    SortedMembers(b.products[..i] + b.products[i + 1..], ProductBefore, ProductKey);
    SortedIsPermutation(b.slots, SlotBefore);
  }

  /* ----- Slots ----- */

  /** Times, capacity and switch are those of the input; what it leaves open is that of the stored slot, and a new slot
      is enabled. */
  predicate FilledFrom(input: SlotInput, stored: Option<Slot>, s: Slot) {
    && (if input.startAt.At? then s.startAt == input.startAt.instant
        else stored.Some? && s.startAt == stored.value.startAt)
    && (if input.endAt.At? then s.endAt == input.endAt.instant else stored.Some? && s.endAt == stored.value.endAt)
    && (if input.capacity.Some? then s.capacity == input.capacity.value
        else stored.Some? && s.capacity == stored.value.capacity)
    && (if input.enabled.Some? then s.enabled == input.enabled.value
        else if stored.Some? then s.enabled == stored.value.enabled
        else s.enabled)
  }

  /** An accepted slot is what the input says, filled up from the stored slot; so is its product. */
  lemma SlotAsAsked(b: Books, input: SlotInput, s: Slot)
    requires PlanSlot(b, input) == Ok(s)
    ensures var stored := CurrentSlot(b, input.id);
            && s.id == Trim(input.id) && FilledFrom(input, stored, s)
            && (if Trim(input.productId) != "" then s.productId == Trim(input.productId)
                else stored.Some? && s.productId == Trim(stored.value.productId))
  {
    TrimIdempotent(input.id);
    FilledAsAsked(Trim(input.id), SlotProduct(CurrentSlot(b, input.id), input), CurrentSlot(b, input.id), input, s);
  }

  lemma FilledAsAsked(id: string, productId: string, stored: Option<Slot>, input: SlotInput, s: Slot)
    requires FillSlot(id, productId, stored, input) == Ok(s)
    ensures FilledFrom(input, stored, s)
  {
  }

  /** What the input says or leaves to the stored slot makes a slot. */
  ghost predicate SlotMakesSense(b: Books, input: SlotInput) {
    var stored := CurrentSlot(b, input.id);
    && Trim(input.id) != ""
    && input.startAt != Malformed && input.endAt != Malformed
    && (stored.None? ==> Trim(input.productId) != "" && input.startAt.At? && input.endAt.At? && input.capacity.Some?)
    && var productId := if Trim(input.productId) != "" then input.productId else stored.value.productId;
    && Trim(productId) != "" && HasKey(b.products, ProductKey, FoldKey(productId))
    && (if input.startAt.At? then input.startAt.instant else stored.value.startAt)
       < (if input.endAt.At? then input.endAt.instant else stored.value.endAt)
    && (if input.capacity.Some? then input.capacity.value else stored.value.capacity) > 0
  }

  lemma SlotAcceptedExactly(b: Books, input: SlotInput)
    ensures PlanSlot(b, input).Ok? <==> SlotMakesSense(b, input)
  {
    TrimIdempotent(input.id);
    TrimIdempotent(input.productId);
    var stored := CurrentSlot(b, input.id);
    if stored.Some? {
      TrimIdempotent(stored.value.productId);
    }
    KeyIndexHas(b.products, ProductKey, FoldKey(SlotProduct(stored, input)));
  }

  /** An accepted slot replaces the one with its id, if there is one; all others and everything else stay. */
  lemma UpsertedSlotBooks(b: Books, input: SlotInput, saved: bool, t: Slot)
    requires Distinct(b.slots, SlotKey)
    ensures var reply := UpsertSlot(b, input, saved);
            && (reply.result.Err? ==> reply.books == b)
            && (reply.result.Ok? <==> PlanSlot(b, input).Ok? && saved)
            && (reply.result.Ok? ==>
                  && PlanSlot(b, input) == reply.result
                  && (t in reply.books.slots <==>
                        t == reply.result.value || (t in b.slots && SlotKey(t) != SlotKey(reply.result.value)))
                  && reply.books.reservations == b.reservations
                  && multiset(reply.books.products) == multiset(b.products))
  {
    if PlanSlot(b, input).Ok? && saved {
      UpsertedSlots(b, input, PlanSlot(b, input).value, t);
      SortedIsPermutation(b.products, ProductBefore);
    }
  }

  /** A slot is removed exactly when it is there and no active reservation is for it. Then it alone goes. */
  lemma RemovedSlots(b: Books, id: string, saved: bool, t: Slot)
    requires Distinct(b.slots, SlotKey)
    ensures var reply := RemoveSlot(b, id, saved);
            && (reply.result == Ok(true) <==>
                  && Trim(id) != "" && HasKey(b.slots, SlotKey, FoldKey(id)) && saved
                  && (forall r | r in b.reservations && FoldKey(r.slotId) == FoldKey(id) :: !Active(r)))
            && (reply.result == Ok(false) <==> Trim(id) != "" && !HasKey(b.slots, SlotKey, FoldKey(id)))
            && (reply.result != Ok(true) ==> reply.books == b)
            && (reply.result == Ok(true) ==>
                  && (t in reply.books.slots <==> t in b.slots && SlotKey(t) != FoldKey(id))
                  && reply.books.reservations == b.reservations
                  && multiset(reply.books.products) == multiset(b.products))
  {
    TrimIdempotent(id);
    var i := KeyIndex(b.slots, SlotKey, FoldKey(id));
    KeyIndexFinds(b.slots, SlotKey, FoldKey(id));
    if i >= 0 {
      Removed(b.slots, i, SlotKey);
      SortedMembers(b.slots[..i] + b.slots[i + 1..], SlotBefore, SlotKey);
      SortedIsPermutation(b.products, ProductBefore);
    }
  }
}
