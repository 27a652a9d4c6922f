/** Why a booking request is refused, which slots a caller is shown, and in which order
    (internal/service/booking_service.go). */
module BookingAnswers {
  import opened Booking
  import opened BookingLaws
  import opened BookingOutcomes
  import opened BookingTheorems
  import opened BookingViews
  import opened Sorting
  import opened Text

  /* ----- Refusals ----- */

  ghost predicate SomeProduct(b: Books, key: string, enabled: bool) {
    exists p :: p in b.products && ProductKey(p) == key && p.enabled == enabled
  }

  ghost predicate SomeSlot(b: Books, key: string, productKey: string, enabled: bool) {
    exists s :: s in b.slots && SlotKey(s) == key && FoldKey(s.productId) == productKey && s.enabled == enabled
  }

  /** The slot has `available` seats left: its capacity without the confirmed ones, but never less than none. */
  ghost predicate SeatsLeft(b: Books, key: string, available: int) {
    exists s :: s in b.slots && SlotKey(s) == key
                && available == Remaining(s.capacity, ConfirmedTotal(b.reservations, key))
  }

  ghost predicate CatalogExplains(b: Books, input: ReservationInput, e: Error) {
    match e
    case ProductNotFound => !HasKey(b.products, ProductKey, FoldKey(input.productId))
    case ProductDisabled => SomeProduct(b, FoldKey(input.productId), false)
    case SlotNotFound => !HasKey(b.slots, SlotKey, FoldKey(input.slotId))
    case SlotOfOtherProduct =>
      exists s :: s in b.slots && SlotKey(s) == FoldKey(input.slotId)
                  && FoldKey(s.productId) != FoldKey(input.productId)
    case SlotDisabled => SomeSlot(b, FoldKey(input.slotId), FoldKey(input.productId), false)
    case CapacityConflict(available, required) =>
      required == input.partySize > available && SeatsLeft(b, FoldKey(input.slotId), available)
    case _ => false
  }

  /** The error names something that is wrong with the request or with the books. */
  ghost predicate Explains(b: Books, input: ReservationInput, saved: bool, e: Error) {
    match e
    case ProductIdRequired => Trim(input.productId) == ""
    case SlotIdRequired => Trim(input.slotId) == ""
    case UserIdRequired => Trim(input.userId) == ""
    case PartySizeNotPositive => input.partySize <= 0
    case ContactNameRequired => Trim(input.personnel.contactName) == ""
    case ContactPhoneRequired => Trim(input.personnel.contactPhone) == ""
    case WriteFailed => Complete(input) && !saved
    case _ => Complete(input) && CatalogExplains(b, input, e)
  }

  lemma RoomRefusal(b: Books, input: ReservationInput)
    requires CheckRoom(b, input).Err?
    ensures CatalogExplains(b, input, CheckRoom(b, input).error)
  {
    TrimIdempotent(input.productId);
    TrimIdempotent(input.slotId);
    var p := KeyIndex(b.products, ProductKey, FoldKey(input.productId));
    var s := KeyIndex(b.slots, SlotKey, FoldKey(input.slotId));
    KeyIndexFinds(b.products, ProductKey, FoldKey(input.productId));
    KeyIndexFinds(b.slots, SlotKey, FoldKey(input.slotId));
    if p >= 0 {
      assert b.products[p] in b.products;
    }
    if s >= 0 {
      assert b.slots[s] in b.slots;
      AvailableToAll(b.slots[s].id, b.slots[s].capacity, b.reservations);
    }
  }

  /** A refused request is told something that is true of it. */
  lemma RefusedForCause(b: Books, input: ReservationInput, now: int, saved: bool)
    requires CreateReservation(b, input, now, saved).result.Err?
    ensures Explains(b, input, saved, CreateReservation(b, input, now, saved).result.error)
  {
    if CheckInput(input).Ok? && CheckRoom(b, input).Err? {
      RoomRefusal(b, input);
    }
  }

  /** The same for a reservation that is to be settled. */
  ghost predicate SettlingExplains(b: Books, r: Reservation, target: Target, saved: bool, e: Error) {
    match e
    case StatusUnreadable => r.status == Unreadable
    case NotPending => r.status != Pending && r.status != Unreadable
    case ProductNotFound => target == Confirmed && !HasKey(b.products, ProductKey, FoldKey(r.productId))
    case SlotNotFound => target == Confirmed && !HasKey(b.slots, SlotKey, FoldKey(r.slotId))
    case SlotDisabled =>
      target == Confirmed && exists s :: s in b.slots && SlotKey(s) == FoldKey(r.slotId) && !s.enabled
    case CapacityConflict(available, required) =>
      target == Confirmed && required == r.partySize > available && SeatsLeft(b, FoldKey(r.slotId), available)
    case WriteFailed => !saved
    case _ => false
  }

  lemma ConfirmRefusal(b: Books, i: nat, saved: bool)
    requires BooksOk(b) && i < |b.reservations| && b.reservations[i].status == Pending
    requires CheckConfirm(b, b.reservations[i]).Err?
    ensures SettlingExplains(b, b.reservations[i], Confirmed, saved, CheckConfirm(b, b.reservations[i]).error)
  {
    var r := b.reservations[i];
    var s := KeyIndex(b.slots, SlotKey, FoldKey(r.slotId));
    KeyIndexFinds(b.products, ProductKey, FoldKey(r.productId));
    KeyIndexFinds(b.slots, SlotKey, FoldKey(r.slotId));
    ExcludingPending(b, i, FoldKey(r.slotId));
    if s >= 0 {
      assert b.slots[s] in b.slots;
    }
  }

  lemma SettlingRefusedForCause(b: Books, id: string, target: Target, note: string, now: int, saved: bool, i: nat)
    requires BooksOk(b) && Named(b, id, i) && Trim(id) != ""
    requires Transition(b, id, target, note, now, saved).result.Err?
    ensures SettlingExplains(b, b.reservations[i], target, saved,
                             Transition(b, id, target, note, now, saved).result.error)
  {
    NamedIsFound(b, id, i);
    if target == Confirmed && b.reservations[i].status == Pending && CheckConfirm(b, b.reservations[i]).Err? {
      ConfirmRefusal(b, i, saved);
    }
  }

  /** A product needs an id and a name. */
  lemma ProductRefusedForCause(b: Books, input: ProductInput)
    requires PlanProduct(b, input).Err?
    ensures match PlanProduct(b, input).error
            case ProductIdRequired => Trim(input.id) == ""
            case ProductNameRequired => Trim(input.name) == "" && Trim(input.id) != ""
            case _ => false
  {
    TrimIdempotent(input.name);
  }

  /** What is wrong with a slot, which may take its product, times and capacity from the stored slot. */
  ghost predicate SlotExplains(b: Books, input: SlotInput, stored: Option<Slot>, e: Error) {
    match e
    case SlotIdRequired => Trim(input.id) == ""
    case ProductIdRequired => Trim(input.productId) == "" && (stored.Some? ==> Trim(stored.value.productId) == "")
    case ProductNotFound =>
      !HasKey(b.products, ProductKey,
              FoldKey(if Trim(input.productId) == "" && stored.Some? then stored.value.productId else input.productId))
    case StartMalformed => input.startAt == Malformed
    case EndMalformed => input.endAt == Malformed
    case StartRequired => input.startAt == Blank && stored.None?
    case EndRequired => input.endAt == Blank && stored.None?
    case StartNotBeforeEnd =>
      (if stored.Some? && input.startAt == Blank then stored.value.startAt
       else if input.startAt.At? then input.startAt.instant else 0)
      >= (if stored.Some? && input.endAt == Blank then stored.value.endAt
          else if input.endAt.At? then input.endAt.instant else 0)
    case CapacityNotPositive =>
      if input.capacity.Some? then input.capacity.value <= 0 else stored.Some? ==> stored.value.capacity <= 0
    case _ => false
  }

  lemma FillRefusal(b: Books, id: string, productId: string, stored: Option<Slot>, input: SlotInput)
    requires FillSlot(id, productId, stored, input).Err?
    ensures SlotExplains(b, input, stored, FillSlot(id, productId, stored, input).error)
  {
  }

  lemma SlotRefusedForCause(b: Books, input: SlotInput)
    requires PlanSlot(b, input).Err?
    ensures SlotExplains(b, input, CurrentSlot(b, input.id), PlanSlot(b, input).error)
  {
    var id := Trim(input.id);
    TrimIdempotent(input.id);
    TrimIdempotent(input.productId);
    var stored := CurrentSlot(b, id);
    if stored.Some? {
      TrimIdempotent(stored.value.productId);
    }
    var productId := SlotProduct(stored, input);
    KeyIndexHas(b.products, ProductKey, FoldKey(productId));
    if FillSlot(id, productId, stored, input).Err? {
      FillRefusal(b, id, productId, stored, input);
    }
  }

  /** Removing tells why it does not. */
  lemma RemovalRefusedForCause(b: Books, id: string, saved: bool)
    ensures var e := RemoveProduct(b, id, saved).result;
            && (e == Err(ProductHasSlots) ==> exists s :: s in b.slots && FoldKey(s.productId) == FoldKey(id))
            && (e == Err(ProductInUse) ==>
                  exists r :: r in b.reservations && FoldKey(r.productId) == FoldKey(id) && Active(r))
            && (e.Err? ==> e.error in {ProductIdRequired, ProductHasSlots, ProductInUse, WriteFailed})
    ensures var e := RemoveSlot(b, id, saved).result;
            && (e == Err(SlotInUse) ==>
                  exists r :: r in b.reservations && FoldKey(r.slotId) == FoldKey(id) && Active(r))
            && (e.Err? ==> e.error in {SlotIdRequired, SlotInUse, WriteFailed})
  {
    TrimIdempotent(id);
  }

  /** A slot or a product that was removed has no reservation left that is pending or confirmed. */
  lemma RemovalLeavesNoOpenReservation(b: Books, id: string, saved: bool, r: Reservation)
    requires r in b.reservations && (r.status == Pending || r.status == Confirmed)
    ensures RemoveSlot(b, id, saved).result == Ok(true) ==> FoldKey(r.slotId) != FoldKey(id)
    ensures RemoveProduct(b, id, saved).result == Ok(true) ==> FoldKey(r.productId) != FoldKey(id)
  {
    TrimIdempotent(id);
  }

  /* ----- The slots that are shown ----- */

  /** The start lies in the asked window; a start that is not known lies in every window. */
  predicate InWindow(f: SlotFilter, startAt: int) {
    startAt == ZERO_TIME ||
    ((f.from.Some? ==> f.from.value <= startAt) && (f.to.Some? ==> startAt <= f.to.value))
  }

  /** A slot is shown exactly when it is of the asked product, starts in the window and, unless the caller asks for
      those too, is enabled with an enabled product and has a seat that no confirmed reservation takes. */
  lemma ShownExactly(b: Books, f: SlotFilter, s: Slot)
    requires BooksOk(b) && s in b.slots && Trim(s.id) != ""
    ensures Shown(b, f, s) <==>
            && (Trim(f.productId) != "" ==> FoldKey(s.productId) == FoldKey(f.productId))
            && InWindow(f, s.startAt)
            && (!f.includeDisabled ==> s.enabled && SomeProduct(b, FoldKey(s.productId), true))
            && (!f.includeFull ==> ConfirmedTotal(b.reservations, SlotKey(s)) < s.capacity)
  {
    ViewAddsUp(b, s);
    ProductIndexFinds(b.products, FoldKey(s.productId));
    EnabledIsIndexed(b, FoldKey(s.productId));
  }

  lemma EnabledIsIndexed(b: Books, key: string)
    requires CatalogOk(b)
    ensures SomeProduct(b, key, true) <==> key in ProductIndex(b.products) && ProductIndex(b.products)[key].enabled
  {
    ProductIndexHas(b.products, key);
    if SomeProduct(b, key, true) {
      var p :| p in b.products && ProductKey(p) == key && p.enabled == true;
      DistinctMembers(b.products, ProductKey, p, ProductIndex(b.products)[key]);
    }
  }

  /** The name shown with a slot is that of its product. */
  lemma ShownNameIsTheProducts(b: Books, s: Slot, p: Product)
    requires CatalogOk(b) && p in b.products && ProductKey(p) == FoldKey(s.productId)
    ensures ViewOf(b, s).productName == Trim(p.name) && ViewOf(b, s).slot == s
  {
    ProductIndexHas(b.products, FoldKey(s.productId));
    assert HasKey(b.products, ProductKey, FoldKey(s.productId));
    DistinctMembers(b.products, ProductKey, p, ProductIndex(b.products)[FoldKey(s.productId)]);
  }

  /* ----- Order ----- */

  /** The files and the list are in the order of time: slots and views by their start, reservations by their
      creation. */
  lemma ListsAreChronological(b: Books, f: SlotFilter)
    ensures Chronological(WriteCatalog(b).slots, (s: Slot) => s.startAt)
    ensures Chronological(WriteReservations(b).reservations, (r: Reservation) => r.createdAt)
    ensures Chronological(SlotViews(b, f), (v: SlotView) => v.slot.startAt)
  {
    SortedChronological(b.slots, SlotBefore, (s: Slot) => s.startAt);
    SortedChronological(b.reservations, ReservationBefore, (r: Reservation) => r.createdAt);
    SortedChronological(ShownViews(b, f, b.slots), ViewBefore, (v: SlotView) => v.slot.startAt);
  }
}
