/** The booking service itself: the loops over the stored records, and the operations as methods that
    change the stored state (internal/service/booking_service.go).  Each is proved to leave and to answer
    what the value function of the same name in module Booking says. */
module BookingServices {
  import opened Booking
  import opened Sorting
  import opened Text

  /** The loop that adds up the confirmed seats of a slot. */
  method AvailableCapacity(slotId: string, capacity: int, rs: seq<Reservation>, excludedId: string)
    returns (available: int)
    ensures available == Available(slotId, capacity, rs, excludedId)
  {
    if capacity <= 0 {
      return 0;
    }
    var reserved := 0;
    ghost var weight := HeldExcept(FoldKey(slotId), FoldKey(excludedId));
    for i := 0 to |rs|
      invariant reserved >= 0
      invariant reserved + Sum(rs[i..], weight) == Sum(rs, weight)
    {
      ghost var rest := rs[i..];
      assert rest[0] == rs[i] && rest[1..] == rs[i + 1..];
      var r := rs[i];
      if FoldKey(r.slotId) != FoldKey(slotId) {
        continue;
      }
      if Trim(excludedId) != "" && FoldKey(r.id) == FoldKey(excludedId) {
        continue;
      }
      if r.status != Confirmed {
        continue;
      }
      if r.partySize <= 0 {
        continue;
      }
      reserved := reserved + r.partySize;
    }
    available := capacity - reserved;
    if available < 0 {
      available := 0;
    }
  }

  /** The loop that looks for the first free reservation number. */
  method NextReservationId(rs: seq<Reservation>) returns (next: int)
    ensures next == LargestNumber(rs) + 1
  {
    var maxId := 0;
    for i := 0 to |rs|
      invariant maxId == LargestNumber(rs[..i])
    {
      assert rs[..i + 1][..i] == rs[..i];
      var id := Trim(rs[i].id);
      if id == "" {
        continue;
      }
      var value := id;
      if |id| >= 2 && Lower(id)[..2] == "r-" {
        value := id[2..];
      }
      var parsed := ParseInt(Trim(value));
      if parsed.None? {
        continue;
      }
      if parsed.value > maxId {
        maxId := parsed.value;
      }
    }
    assert rs[..|rs|] == rs;
    next := maxId + 1;
  }

  /** The loop that looks a record up by its identifier. */
  method FindIndex<T>(xs: seq<T>, key: T -> string, id: string) returns (index: int)
    ensures index == KeyIndex(xs, key, FoldKey(id))
  {
    index := -1;
    for i := 0 to |xs|
      invariant index == -1
      invariant forall j | 0 <= j < i :: key(xs[j]) != FoldKey(id)
    {
      if key(xs[i]) == FoldKey(id) {
        index := i;
        break;
      }
    }
    KeyIndexFinds(xs, key, FoldKey(id));
  }

  method SlotsExist(slots: seq<Slot>, productId: string) returns (found: bool)
    ensures found == SlotsUse(slots, FoldKey(productId))
  {
    for i := 0 to |slots|
      invariant forall j | 0 <= j < i :: FoldKey(slots[j].productId) != FoldKey(productId)
    {
      if FoldKey(slots[i].productId) == FoldKey(productId) {
        assert slots[i] in slots;
        return true;
      }
    }
    return false;
  }

  method ProductReservationsExist(rs: seq<Reservation>, productId: string) returns (found: bool)
    ensures found == ReservationsUseProduct(rs, FoldKey(productId))
  {
    for i := 0 to |rs|
      invariant forall j | 0 <= j < i :: !(FoldKey(rs[j].productId) == FoldKey(productId) && Active(rs[j]))
    {
      if FoldKey(rs[i].productId) == FoldKey(productId) && Active(rs[i]) {
        assert rs[i] in rs;
        return true;
      }
    }
    return false;
  }

  method SlotReservationsExist(rs: seq<Reservation>, slotId: string) returns (found: bool)
    ensures found == ReservationsUseSlot(rs, FoldKey(slotId))
  {
    for i := 0 to |rs|
      invariant forall j | 0 <= j < i :: !(FoldKey(rs[j].slotId) == FoldKey(slotId) && Active(rs[j]))
    {
      if FoldKey(rs[i].slotId) != FoldKey(slotId) {
        continue;
      }
      if Active(rs[i]) {
        assert rs[i] in rs;
        return true;
      }
    }
    return false;
  }

  method NormalizePersonnel(p: Personnel) returns (r: Result<Personnel>)
    ensures r == NormalPersonnel(p)
  {
    if Trim(p.contactName) == "" {
      return Err(ContactNameRequired);
    }
    if Trim(p.contactPhone) == "" {
      return Err(ContactPhoneRequired);
    }
    var members: seq<string> := [];
    for i := 0 to |p.members|
      invariant members == NonBlank(p.members[..i])
    {
      assert p.members[..i + 1][..i] == p.members[..i];
      var trimmed := Trim(p.members[i]);
      if trimmed == "" {
        continue;
      }
      members := members + [trimmed];
    }
    assert p.members[..|p.members|] == p.members;
    return Ok(Personnel(Trim(p.contactName), Trim(p.contactPhone), members));
  }

  class BookingService {
    var products: seq<Product>
    var slots: seq<Slot>
    var nextId: int
    var reservations: seq<Reservation>

    /** No state files yet. */
    constructor ()
      ensures Contents() == Books([], [], 1, [])
    {
      products, slots, nextId, reservations := [], [], 1, [];
    }

    function Contents(): Books
      reads this
    {
      Books(products, slots, nextId, reservations)
    }

    method UpsertProduct(input: ProductInput, saved: bool) returns (result: Result<Product>)
      modifies this
      ensures Reply(Contents(), result) == Booking.UpsertProduct(old(Contents()), input, saved)
    {
      var id := Trim(input.id);
      if id == "" {
        return Err(ProductIdRequired);
      }
      var index := FindIndex(products, ProductKey, id);
      var catalog := products;
      var product: Product;
      if index < 0 {
        var name := Trim(input.name);
        if name == "" {
          TrimIdempotent(input.name);
          return Err(ProductNameRequired);
        }
        TrimIdempotent(input.name);
        product := Product(id, name, Trim(input.description), input.enabled.None? || input.enabled.value);
        catalog := catalog + [product];
      } else {
        product := catalog[index];
        var name := Trim(input.name);
        if name != "" {
          product := product.(name := name);
        }
        if Trim(product.name) == "" {
          return Err(ProductNameRequired);
        }
        product := product.(description := Trim(input.description));
        if input.enabled.Some? {
          product := product.(enabled := input.enabled.value);
        }
        catalog := catalog[index := product];
      }
      if !saved {
        return Err(WriteFailed);
      }
      products, slots := Sorted(catalog, ProductBefore), Sorted(slots, SlotBefore);
      return Ok(product);
    }

    method RemoveProduct(id: string, saved: bool) returns (result: Result<bool>)
      modifies this
      ensures Reply(Contents(), result) == Booking.RemoveProduct(old(Contents()), id, saved)
    {
      var productId := Trim(id);
      if productId == "" {
        return Err(ProductIdRequired);
      }
      var index := FindIndex(products, ProductKey, productId);
      if index < 0 {
        return Ok(false);
      }
      var used := SlotsExist(slots, productId);
      if used {
        return Err(ProductHasSlots);
      }
      var reserved := ProductReservationsExist(reservations, productId);
      if reserved {
        return Err(ProductInUse);
      }
      if !saved {
        return Err(WriteFailed);
      }
      products := Sorted(products[..index] + products[index + 1..], ProductBefore);
      slots := Sorted(slots, SlotBefore);
      return Ok(true);
    }

    /** The checks and defaults of an upserted slot. */
    method MergeSlot(input: SlotInput) returns (result: Result<Slot>)
      ensures result == PlanSlot(Contents(), input)
    {
      var id := Trim(input.id);
      if id == "" {
        return Err(SlotIdRequired);
      }
      var index := FindIndex(slots, SlotKey, id);
      var productId := Trim(input.productId);
      if productId == "" && index >= 0 {
        productId := Trim(slots[index].productId);
      }
      if productId == "" {
        return Err(ProductIdRequired);
      }
      var product := FindIndex(products, ProductKey, productId);
      if product < 0 {
        return Err(ProductNotFound);
      }
      var startAt := 0;
      match input.startAt {
        case Malformed => return Err(StartMalformed);
        case At(t) => startAt := t;
        case Blank =>
          if index < 0 {
            return Err(StartRequired);
          }
          startAt := slots[index].startAt;
      }
      var endAt := 0;
      match input.endAt {
        case Malformed => return Err(EndMalformed);
        case At(t) => endAt := t;
        case Blank =>
          if index < 0 {
            return Err(EndRequired);
          }
          endAt := slots[index].endAt;
      }
      if !(startAt < endAt) {
        return Err(StartNotBeforeEnd);
      }
      var capacity := if index < 0 then 0 else slots[index].capacity;
      if input.capacity.Some? {
        capacity := input.capacity.value;
      }
      if capacity <= 0 {
        return Err(CapacityNotPositive);
      }
      var enabled := index < 0 || slots[index].enabled;
      if input.enabled.Some? {
        enabled := input.enabled.value;
      }
      return Ok(Slot(id, productId, startAt, endAt, capacity, enabled));
    }

    method UpsertSlot(input: SlotInput, saved: bool) returns (result: Result<Slot>)
      modifies this
      ensures Reply(Contents(), result) == Booking.UpsertSlot(old(Contents()), input, saved)
    {
      result := MergeSlot(input);
      result := StoreSlot(result, saved);
    }

    method StoreSlot(plan: Result<Slot>, saved: bool) returns (result: Result<Slot>)
      modifies this
      ensures Reply(Contents(), result) == Booking.StoreSlot(old(Contents()), plan, saved)
    {
      if plan.Err? {
        return plan;
      }
      var slot := plan.value;
      var index := FindIndex(slots, SlotKey, slot.id);
      var catalog := slots;
      if index < 0 {
        catalog := catalog + [slot];
      } else {
        catalog := catalog[index := slot];
      }
      if !saved {
        return Err(WriteFailed);
      }
      products, slots := Sorted(products, ProductBefore), Sorted(catalog, SlotBefore);
      return plan;
    }

    method RemoveSlot(id: string, saved: bool) returns (result: Result<bool>)
      modifies this
      ensures Reply(Contents(), result) == Booking.RemoveSlot(old(Contents()), id, saved)
    {
      var slotId := Trim(id);
      if slotId == "" {
        return Err(SlotIdRequired);
      }
      var index := FindIndex(slots, SlotKey, slotId);
      if index < 0 {
        return Ok(false);
      }
      var reserved := SlotReservationsExist(reservations, slotId);
      if reserved {
        return Err(SlotInUse);
      }
      if !saved {
        return Err(WriteFailed);
      }
      products := Sorted(products, ProductBefore);
      slots := Sorted(slots[..index] + slots[index + 1..], SlotBefore);
      return Ok(true);
    }

    /** The checks that need no state. */
    static method CheckRequest(input: ReservationInput) returns (result: Result<Personnel>)
      ensures result == CheckInput(input)
    {
      if Trim(input.productId) == "" {
        return Err(ProductIdRequired);
      }
      if Trim(input.slotId) == "" {
        return Err(SlotIdRequired);
      }
      if Trim(input.userId) == "" {
        return Err(UserIdRequired);
      }
      if input.partySize <= 0 {
        return Err(PartySizeNotPositive);
      }
      result := NormalizePersonnel(input.personnel);
    }

    /** The checks against the stored products, slots and reservations. */
    method FindRoom(input: ReservationInput) returns (result: Result<Slot>)
      ensures result == CheckRoom(Contents(), input)
    {
      var productId, slotId := Trim(input.productId), Trim(input.slotId);
      var p := FindIndex(products, ProductKey, productId);
      if p < 0 {
        return Err(ProductNotFound);
      }
      if !products[p].enabled {
        return Err(ProductDisabled);
      }
      var s := FindIndex(slots, SlotKey, slotId);
      if s < 0 {
        return Err(SlotNotFound);
      }
      var slot := slots[s];
      if FoldKey(slot.productId) != FoldKey(productId) {
        return Err(SlotOfOtherProduct);
      }
      if !slot.enabled {
        return Err(SlotDisabled);
      }
      var available := AvailableCapacity(slot.id, slot.capacity, reservations, "");
      if available < input.partySize {
        return Err(CapacityConflict(available, input.partySize));
      }
      return Ok(slot);
    }

    method CreateReservation(input: ReservationInput, now: int, saved: bool) returns (result: Result<Reservation>)
      modifies this
      ensures Reply(Contents(), result) == Booking.CreateReservation(old(Contents()), input, now, saved)
    {
      var personnel := CheckRequest(input);
      if personnel.Err? {
        return Err(personnel.error);
      }
      var room := FindRoom(input);
      if room.Err? {
        return Err(room.error);
      }
      result := StoreReservation(input, personnel.value, now, saved);
    }

    method StoreReservation(input: ReservationInput, personnel: Personnel, now: int, saved: bool)
      returns (result: Result<Reservation>)
      modifies this
      ensures Reply(Contents(), result) == Booking.StoreReservation(old(Contents()), input, personnel, now, saved)
    {
      var next := nextId;
      if next <= 0 {
        next := NextReservationId(reservations);
      }
      var reservation := Reservation(ReservationId(next), Trim(input.productId), Trim(input.slotId), Trim(input.userId),
                                     input.partySize, personnel, Trim(input.specialRequirements), Pending, "",
                                     now, now);
      if !saved {
        return Err(WriteFailed);
      }
      nextId := next + 1;
      reservations := Sorted(reservations + [reservation], ReservationBefore);
      return Ok(reservation);
    }

    /** What confirming a pending reservation requires. */
    method CheckConfirmation(r: Reservation) returns (result: Result<Slot>)
      ensures result == CheckConfirm(Contents(), r)
    {
      var p := FindIndex(products, ProductKey, r.productId);
      var s := FindIndex(slots, SlotKey, r.slotId);
      if p < 0 {
        return Err(ProductNotFound);
      }
      if s < 0 {
        return Err(SlotNotFound);
      }
      if !slots[s].enabled {
        return Err(SlotDisabled);
      }
      var available := AvailableCapacity(slots[s].id, slots[s].capacity, reservations, r.id);
      if available < r.partySize {
        return Err(CapacityConflict(available, r.partySize));
      }
      return Ok(slots[s]);
    }

    method TransitionReservation(id: string, target: Target, note: string, now: int, saved: bool)
      returns (result: Result<Reservation>)
      modifies this
      ensures Reply(Contents(), result) == Transition(old(Contents()), id, target, note, now, saved)
    {
      var reservationId := Trim(id);
      if reservationId == "" {
        return Err(ReservationIdRequired);
      }
      var index := FindIndex(reservations, ReservationKey, reservationId);
      if index < 0 {
        return Err(ReservationNotFound);
      }
      var reservation := reservations[index];
      if reservation.status == Unreadable {
        return Err(StatusUnreadable);
      }
      if reservation.status != Pending {
        return Err(NotPending);
      }
      if target == Confirmed {
        var check := CheckConfirmation(reservation);
        if check.Err? {
          return Err(check.error);
        }
      }
      result := StoreSettled(index, target, note, now, saved);
    }

    method StoreSettled(index: nat, target: Target, note: string, now: int, saved: bool)
      returns (result: Result<Reservation>)
      requires index < |reservations|
      modifies this
      ensures Reply(Contents(), result) == Booking.StoreSettled(old(Contents()), index, target, note, now, saved)
    {
      var reservation := reservations[index].(status := target, systemNote := Trim(note), updatedAt := now);
      if !saved {
        return Err(WriteFailed);
      }
      var ledger := reservations[index := reservation];
      if nextId <= 0 {
        nextId := NextReservationId(ledger);
      }
      reservations := Sorted(ledger, ReservationBefore);
      return Ok(reservation);
    }
  }
}
