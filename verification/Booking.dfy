/** Products, slots and reservations of the booking service
    (internal/service/booking_service.go).

    `Books` is the contents of the two state files.  The value functions give what every operation
    leaves in the files and what it answers; the class `BookingService` in module BookingServices
    holds the same data in fields and is proved to do exactly that.  A write either stores everything or
    fails and changes nothing. */
module Booking {
  import opened Sorting
  import opened Text

  datatype Status = Pending | Confirmed | Rejected | Cancelled | Unreadable

  /** What a reservation can be moved to. */
  type Target = s: Status | s == Confirmed || s == Rejected || s == Cancelled witness Confirmed

  datatype Product = Product(id: string, name: string, description: string, enabled: bool)

  datatype Slot = Slot(id: string, productId: string, startAt: int, endAt: int, capacity: int, enabled: bool)

  datatype Personnel = Personnel(contactName: string, contactPhone: string, members: seq<string>)

  datatype Reservation = Reservation(
    id: string, productId: string, slotId: string, userId: string, partySize: int, personnel: Personnel,
    specialRequirements: string, status: Status, systemNote: string, createdAt: int, updatedAt: int)

  datatype Books = Books(products: seq<Product>, slots: seq<Slot>, nextId: int, reservations: seq<Reservation>)

  datatype Error =
    | ProductIdRequired | ProductNameRequired | ProductNotFound | ProductDisabled | ProductHasSlots | ProductInUse
    | SlotIdRequired | SlotNotFound | SlotDisabled | SlotOfOtherProduct | SlotInUse
    | StartRequired | StartMalformed | EndRequired | EndMalformed | StartNotBeforeEnd | CapacityNotPositive
    | UserIdRequired | PartySizeNotPositive | ContactNameRequired | ContactPhoneRequired
    | ReservationIdRequired | ReservationNotFound | StatusUnreadable | NotPending
    | CapacityConflict(available: int, required: int)
    | WriteFailed

  datatype Result<+T> = Ok(value: T) | Err(error: Error)

  datatype Reply<+T> = Reply(books: Books, result: Result<T>)

  /** An instant typed by a caller. */
  datatype TimeText = Blank | Malformed | At(instant: int)

  datatype ProductInput = ProductInput(id: string, name: string, description: string, enabled: Option<bool>)

  datatype SlotInput = SlotInput(id: string, productId: string, startAt: TimeText, endAt: TimeText,
                                 capacity: Option<int>, enabled: Option<bool>)

  datatype ReservationInput = ReservationInput(productId: string, slotId: string, userId: string, partySize: int,
                                               personnel: Personnel, specialRequirements: string)

  /* ----- Identifiers ----- */

  function ProductKey(p: Product): string { FoldKey(p.id) }

  function SlotKey(s: Slot): string { FoldKey(s.id) }

  function ReservationKey(r: Reservation): string { FoldKey(r.id) }

  function ReservationId(n: nat): string {
    "r-" + Decimal(n)
  }

  /** The number a reservation id stands for: with or without the `r-` in front. */
  function ReservationNumber(id: string): Option<int> {
    var t := Trim(id);
    if t == "" then None
    else if |t| >= 2 && Lower(t)[..2] == "r-" then ParseInt(Trim(t[2..]))
    else ParseInt(Trim(t))
  }

  /** The largest number in use, never below zero. */
  function LargestNumber(rs: seq<Reservation>): (m: int)
    ensures m >= 0
  {
    if |rs| == 0 then 0 else
    var rest := LargestNumber(rs[..|rs| - 1]);
    var n := ReservationNumber(rs[|rs| - 1].id);
    if n.Some? && n.value > rest then n.value else rest
  }

  /** The stored counter, or one more than the largest number in use where there is no counter. */
  function NextNumber(b: Books): (n: nat)
    ensures n > 0
  {
    if b.nextId <= 0 then LargestNumber(b.reservations) + 1 else b.nextId
  }

  /* ----- The order in which records are written ----- */

  predicate ProductBefore(a: Product, b: Product) {
    TextBefore(ProductKey(a), ProductKey(b))
  }

  predicate SlotBefore(a: Slot, b: Slot) {
    if a.startAt == b.startAt then TextBefore(SlotKey(a), SlotKey(b)) else a.startAt < b.startAt
  }

  predicate ReservationBefore(a: Reservation, b: Reservation) {
    if a.createdAt == b.createdAt then TextBefore(ReservationKey(a), ReservationKey(b)) else a.createdAt < b.createdAt
  }

  function WriteCatalog(b: Books): Books {
    b.(products := Sorted(b.products, ProductBefore), slots := Sorted(b.slots, SlotBefore))
  }

  function WriteReservations(b: Books): Books {
    b.(nextId := NextNumber(b), reservations := Sorted(b.reservations, ReservationBefore))
  }

  /* ----- Capacity ----- */

  predicate Active(r: Reservation) {
    r.status == Pending || r.status == Confirmed
  }

  /** Seats that the reservation takes from the slot: only a confirmed one takes any. */
  function Held(r: Reservation, slotKey: string): nat {
    if FoldKey(r.slotId) == slotKey && r.status == Confirmed && r.partySize > 0 then r.partySize else 0
  }

  function HeldBy(slotKey: string): Reservation -> nat {
    (r: Reservation) => Held(r, slotKey)
  }

  /** The same with one reservation left out of the count. */
  function HeldExcept(slotKey: string, excludedKey: string): Reservation -> nat {
    (r: Reservation) => if excludedKey != "" && ReservationKey(r) == excludedKey then 0 else Held(r, slotKey)
  }

  function ConfirmedTotal(rs: seq<Reservation>, slotKey: string): nat {
    Sum(rs, HeldBy(slotKey))
  }

  function Remaining(capacity: int, reserved: int): int {
    if capacity <= 0 || capacity < reserved then 0 else capacity - reserved
  }

  function Available(slotId: string, capacity: int, rs: seq<Reservation>, excludedId: string): int {
    Remaining(capacity, Sum(rs, HeldExcept(FoldKey(slotId), FoldKey(excludedId))))
  }

  /* ----- Operations ----- */

  function PlanProduct(b: Books, input: ProductInput): Result<Product> {
    var id := Trim(input.id);
    if id == "" then Err(ProductIdRequired) else
    var i := KeyIndex(b.products, ProductKey, FoldKey(id));
    var name := if Trim(input.name) == "" && i >= 0 then b.products[i].name else Trim(input.name);
    if Trim(name) == "" then Err(ProductNameRequired)
    else if i < 0 then Ok(Product(id, name, Trim(input.description), input.enabled.None? || input.enabled.value))
    else
      var p := b.products[i];
      Ok(Product(p.id, name, Trim(input.description), if input.enabled.Some? then input.enabled.value else p.enabled))
  }

  function PutProduct(b: Books, id: string, p: Product): Books {
    var i := KeyIndex(b.products, ProductKey, FoldKey(id));
    b.(products := if i < 0 then b.products + [p] else b.products[i := p])
  }

  function UpsertProduct(b: Books, input: ProductInput, saved: bool): Reply<Product> {
    match PlanProduct(b, input)
    case Err(e) => Reply(b, Err(e))
    case Ok(p) =>
      if saved then Reply(WriteCatalog(PutProduct(b, Trim(input.id), p)), Ok(p)) else Reply(b, Err(WriteFailed))
  }

  predicate SlotsUse(slots: seq<Slot>, productKey: string) {
    exists s :: s in slots && FoldKey(s.productId) == productKey
  }

  predicate ReservationsUseProduct(rs: seq<Reservation>, productKey: string) {
    exists r :: r in rs && FoldKey(r.productId) == productKey && Active(r)
  }

  predicate ReservationsUseSlot(rs: seq<Reservation>, slotKey: string) {
    exists r :: r in rs && FoldKey(r.slotId) == slotKey && Active(r)
  }

  function RemoveProduct(b: Books, id: string, saved: bool): Reply<bool> {
    var productId := Trim(id);
    var key := FoldKey(productId);
    var i := KeyIndex(b.products, ProductKey, key);
    if productId == "" then Reply(b, Err(ProductIdRequired))
    else if i < 0 then Reply(b, Ok(false))
    else if SlotsUse(b.slots, key) then Reply(b, Err(ProductHasSlots))
    else if ReservationsUseProduct(b.reservations, key) then Reply(b, Err(ProductInUse))
    else if !saved then Reply(b, Err(WriteFailed))
    else Reply(WriteCatalog(b.(products := b.products[..i] + b.products[i + 1..])), Ok(true))
  }

  /** The stored slot with the id, if there is one. */
  function CurrentSlot(b: Books, id: string): Option<Slot> {
    var i := KeyIndex(b.slots, SlotKey, FoldKey(id));
    if i < 0 then None else Some(b.slots[i])
  }

  /** The product named by the input, else that of the stored slot. */
  function SlotProduct(current: Option<Slot>, input: SlotInput): string {
    if Trim(input.productId) == "" && current.Some? then Trim(current.value.productId) else Trim(input.productId)
  }

  /** Times, capacity and switch: what the input leaves open comes from the stored slot. */
  function FillSlot(id: string, productId: string, current: Option<Slot>, input: SlotInput): (r: Result<Slot>)
    ensures r.Ok? ==>
              && r.value.id == id && r.value.productId == productId
              && r.value.startAt < r.value.endAt && r.value.capacity > 0
  {
    if input.startAt == Malformed then Err(StartMalformed)
    else if input.startAt == Blank && current.None? then Err(StartRequired)
    else if input.endAt == Malformed then Err(EndMalformed)
    else if input.endAt == Blank && current.None? then Err(EndRequired)
    else
      var startAt := if input.startAt.At? then input.startAt.instant else current.value.startAt;
      var endAt := if input.endAt.At? then input.endAt.instant else current.value.endAt;
      var capacity :=
        if input.capacity.Some? then input.capacity.value
        else if current.None? then 0
        else current.value.capacity;
      var enabled := if input.enabled.Some? then input.enabled.value else current.None? || current.value.enabled;
      if startAt >= endAt then Err(StartNotBeforeEnd)
      else if capacity <= 0 then Err(CapacityNotPositive)
      else Ok(Slot(id, productId, startAt, endAt, capacity, enabled))
  }

  function PlanSlot(b: Books, input: SlotInput): Result<Slot> {
    var id := Trim(input.id);
    var current := CurrentSlot(b, id);
    var productId := SlotProduct(current, input);
    if id == "" then Err(SlotIdRequired)
    else if productId == "" then Err(ProductIdRequired)
    else if KeyIndex(b.products, ProductKey, FoldKey(productId)) < 0 then Err(ProductNotFound)
    else FillSlot(id, productId, current, input)
  }

  function PutSlot(b: Books, s: Slot): Books {
    var i := KeyIndex(b.slots, SlotKey, SlotKey(s));
    b.(slots := if i < 0 then b.slots + [s] else b.slots[i := s])
  }

  function StoreSlot(b: Books, plan: Result<Slot>, saved: bool): Reply<Slot> {
    if plan.Err? then Reply(b, plan)
    else if saved then Reply(WriteCatalog(PutSlot(b, plan.value)), plan)
    else Reply(b, Err(WriteFailed))
  }

  function UpsertSlot(b: Books, input: SlotInput, saved: bool): Reply<Slot> {
    StoreSlot(b, PlanSlot(b, input), saved)
  }

  function RemoveSlot(b: Books, id: string, saved: bool): Reply<bool> {
    var slotId := Trim(id);
    var key := FoldKey(slotId);
    var i := KeyIndex(b.slots, SlotKey, key);
    if slotId == "" then Reply(b, Err(SlotIdRequired))
    else if i < 0 then Reply(b, Ok(false))
    else if ReservationsUseSlot(b.reservations, key) then Reply(b, Err(SlotInUse))
    else if !saved then Reply(b, Err(WriteFailed))
    else Reply(WriteCatalog(b.(slots := b.slots[..i] + b.slots[i + 1..])), Ok(true))
  }

  function NonBlank(texts: seq<string>): seq<string> {
    if |texts| == 0 then []
    else NonBlank(texts[..|texts| - 1]) + (var t := Trim(texts[|texts| - 1]); if t == "" then [] else [t])
  }

  function NormalPersonnel(p: Personnel): Result<Personnel> {
    if Trim(p.contactName) == "" then Err(ContactNameRequired)
    else if Trim(p.contactPhone) == "" then Err(ContactPhoneRequired)
    else Ok(Personnel(Trim(p.contactName), Trim(p.contactPhone), NonBlank(p.members)))
  }

  /** The checks on a request that do not look at the files. */
  function CheckInput(input: ReservationInput): Result<Personnel> {
    if Trim(input.productId) == "" then Err(ProductIdRequired)
    else if Trim(input.slotId) == "" then Err(SlotIdRequired)
    else if Trim(input.userId) == "" then Err(UserIdRequired)
    else if input.partySize <= 0 then Err(PartySizeNotPositive)
    else NormalPersonnel(input.personnel)
  }

  /** The checks against the files. */
  function CheckRoom(b: Books, input: ReservationInput): Result<Slot> {
    var p := KeyIndex(b.products, ProductKey, FoldKey(Trim(input.productId)));
    var s := KeyIndex(b.slots, SlotKey, FoldKey(Trim(input.slotId)));
    if p < 0 then Err(ProductNotFound)
    else if !b.products[p].enabled then Err(ProductDisabled)
    else if s < 0 then Err(SlotNotFound)
    else if FoldKey(b.slots[s].productId) != FoldKey(Trim(input.productId)) then Err(SlotOfOtherProduct)
    else if !b.slots[s].enabled then Err(SlotDisabled)
    else
      var available := Available(b.slots[s].id, b.slots[s].capacity, b.reservations, "");
      if available < input.partySize then Err(CapacityConflict(available, input.partySize)) else Ok(b.slots[s])
  }

  function NewReservation(b: Books, input: ReservationInput, personnel: Personnel, now: int): Reservation {
    Reservation(ReservationId(NextNumber(b)), Trim(input.productId), Trim(input.slotId), Trim(input.userId),
                input.partySize, personnel, Trim(input.specialRequirements), Pending, "", now, now)
  }

  function StoreReservation(b: Books, input: ReservationInput, personnel: Personnel, now: int,
                            saved: bool): Reply<Reservation> {
    var r := NewReservation(b, input, personnel, now);
    if saved
    then Reply(WriteReservations(b.(nextId := NextNumber(b) + 1, reservations := b.reservations + [r])), Ok(r))
    else Reply(b, Err(WriteFailed))
  }

  function CreateReservation(b: Books, input: ReservationInput, now: int, saved: bool): Reply<Reservation> {
    var personnel := CheckInput(input);
    var room := CheckRoom(b, input);
    if personnel.Err? then Reply(b, Err(personnel.error))
    else if room.Err? then Reply(b, Err(room.error))
    else StoreReservation(b, input, personnel.value, now, saved)
  }

  /** What confirming requires beyond a pending reservation.  Whether the product is enabled does not matter. */
  function CheckConfirm(b: Books, r: Reservation): Result<Slot> {
    var p := KeyIndex(b.products, ProductKey, FoldKey(r.productId));
    var s := KeyIndex(b.slots, SlotKey, FoldKey(r.slotId));
    if p < 0 then Err(ProductNotFound)
    else if s < 0 then Err(SlotNotFound)
    else if !b.slots[s].enabled then Err(SlotDisabled)
    else
      var available := Available(b.slots[s].id, b.slots[s].capacity, b.reservations, r.id);
      if available < r.partySize then Err(CapacityConflict(available, r.partySize)) else Ok(b.slots[s])
  }

  function StoreSettled(b: Books, i: nat, target: Target, note: string, now: int, saved: bool): Reply<Reservation>
    requires i < |b.reservations|
  {
    var r := b.reservations[i].(status := target, systemNote := Trim(note), updatedAt := now);
    if saved
    then Reply(WriteReservations(b.(reservations := b.reservations[i := r])), Ok(r))
    else Reply(b, Err(WriteFailed))
  }

  function Transition(b: Books, id: string, target: Target, note: string, now: int, saved: bool): Reply<Reservation> {
    var i := KeyIndex(b.reservations, ReservationKey, FoldKey(Trim(id)));
    if Trim(id) == "" then Reply(b, Err(ReservationIdRequired))
    else if i < 0 then Reply(b, Err(ReservationNotFound))
    else
      var r := b.reservations[i];
      var check := CheckConfirm(b, r);
      if r.status == Unreadable then Reply(b, Err(StatusUnreadable))
      else if r.status != Pending then Reply(b, Err(NotPending))
      else if target == Confirmed && check.Err? then Reply(b, Err(check.error))
      else StoreSettled(b, i, target, note, now, saved)
  }
}
