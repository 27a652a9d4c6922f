/** What booking operations do to one another: repeating, undoing and following up
    (internal/service/booking_service.go). */
module BookingLaws {
  import opened Booking
  import opened BookingTheorems
  import opened Sorting
  import opened Text

  /* ----- The written order ----- */

  lemma SlotsTotal(xs: seq<Slot>)
    requires Distinct(xs, SlotKey)
    ensures TotalOn(xs, SlotBefore)
  {
    forall i, j | 0 <= i < j < |xs|
      ensures SlotBefore(xs[i], xs[j]) || SlotBefore(xs[j], xs[i])
    {
      TextBeforeTotal(SlotKey(xs[i]), SlotKey(xs[j]));
    }
    forall x | x in xs
      ensures !SlotBefore(x, x)
    {
      TextBeforeTotal(SlotKey(x), SlotKey(x));
    }
    forall x, y, z | SlotBefore(x, y) && SlotBefore(y, z)
      ensures SlotBefore(x, z)
    {
      if x.startAt == y.startAt == z.startAt {
        TextBeforeTransitive(SlotKey(x), SlotKey(y), SlotKey(z));
      }
    }
  }

  lemma ProductsTotal(xs: seq<Product>)
    requires Distinct(xs, ProductKey)
    ensures TotalOn(xs, ProductBefore)
  {
    forall i, j | 0 <= i < j < |xs|
      ensures ProductBefore(xs[i], xs[j]) || ProductBefore(xs[j], xs[i])
    {
      TextBeforeTotal(ProductKey(xs[i]), ProductKey(xs[j]));
    }
    forall x | x in xs
      ensures !ProductBefore(x, x)
    {
      TextBeforeTotal(ProductKey(x), ProductKey(x));
    }
    forall x, y, z | ProductBefore(x, y) && ProductBefore(y, z)
      ensures ProductBefore(x, z)
    {
      TextBeforeTransitive(ProductKey(x), ProductKey(y), ProductKey(z));
    }
  }

  /** Two lists of the same records are written alike. */
  lemma SortedAlike<T>(xs: seq<T>, ys: seq<T>, before: (T, T) -> bool)
    requires TotalOn(xs, before) && TotalOn(ys, before) && multiset(xs) == multiset(ys)
    ensures Sorted(xs, before) == Sorted(ys, before)
  {
    SortedIsOrdered(ys, before);
    SortedIsPermutation(ys, before);
    AnySortAgrees(xs, Sorted(ys, before), before);
  }

  lemma SlotsSortedAlike(xs: seq<Slot>, ys: seq<Slot>)
    requires Distinct(xs, SlotKey) && Distinct(ys, SlotKey) && multiset(xs) == multiset(ys)
    ensures Sorted(xs, SlotBefore) == Sorted(ys, SlotBefore)
  {
    SlotsTotal(xs);
    SlotsTotal(ys);
    SortedAlike(xs, ys, SlotBefore);
  }

  /** Writing the catalog a second time changes nothing. */
  lemma WrittenTwice(b: Books)
    requires Distinct(b.products, ProductKey) && Distinct(b.slots, SlotKey)
    ensures WriteCatalog(WriteCatalog(b)) == WriteCatalog(b)
  {
    var c := WriteCatalog(b);
    SortedDistinct(b.products, ProductBefore, ProductKey);
    SortedDistinct(b.slots, SlotBefore, SlotKey);
    SortedIsPermutation(b.products, ProductBefore);
    SortedIsPermutation(b.slots, SlotBefore);
    ProductsTotal(b.products);
    ProductsTotal(c.products);
    SortedAlike(c.products, b.products, ProductBefore);
    SlotsSortedAlike(c.slots, b.slots);
  }

  /* ----- Slots ----- */

  /** Putting a slot replaces the one with its id, if there is one, and leaves every other alone. */
  lemma PutSlotMembers(b: Books, s: Slot, t: Slot)
    requires Distinct(b.slots, SlotKey)
    ensures t in PutSlot(b, s).slots <==> t == s || (t in b.slots && SlotKey(t) != SlotKey(s))
  {
    var i := KeyIndex(b.slots, SlotKey, SlotKey(s));
    var c := PutSlot(b, s);
    KeyIndexFinds(b.slots, SlotKey, SlotKey(s));
    assert c.slots[if i < 0 then |b.slots| else i] == s;
    if t in b.slots && SlotKey(t) != SlotKey(s) {
      var j :| 0 <= j < |b.slots| && b.slots[j] == t;
      assert c.slots[j] == t;
    }
    if t in c.slots && t != s {
      var j :| 0 <= j < |c.slots| && c.slots[j] == t;
      assert b.slots[j] == t && j != i;
    }
  }

  /** After an accepted upsert the stored slots are the new one and all those with other ids. */
  lemma UpsertedSlots(b: Books, input: SlotInput, s: Slot, t: Slot)
    requires Distinct(b.slots, SlotKey) && PlanSlot(b, input) == Ok(s)
    ensures t in UpsertSlot(b, input, true).books.slots <==> t == s || (t in b.slots && SlotKey(t) != SlotKey(s))
  {
    PutSlotMembers(b, s, t);
    SortedMembers(PutSlot(b, s).slots, SlotBefore, SlotKey);
  }

  /** The same request meets its own result. */
  lemma PlannedAgain(b: Books, c: Books, input: SlotInput, s: Slot)
    requires PlanSlot(b, input) == Ok(s) && CurrentSlot(c, s.id) == Some(s)
    requires KeyIndex(c.products, ProductKey, FoldKey(s.productId)) >= 0
    ensures PlanSlot(c, input) == Ok(s)
  {
    var current := CurrentSlot(b, Trim(input.id));
    ProductAgain(current, input, s);
    FilledAgain(current, input, s);
  }

  lemma ProductAgain(current: Option<Slot>, input: SlotInput, s: Slot)
    requires s.productId == SlotProduct(current, input)
    ensures SlotProduct(Some(s), input) == s.productId
  {
    TrimIdempotent(input.productId);
    if current.Some? {
      TrimIdempotent(current.value.productId);
    }
  }

  lemma FilledAgain(current: Option<Slot>, input: SlotInput, s: Slot)
    requires FillSlot(s.id, s.productId, current, input) == Ok(s)
    ensures FillSlot(s.id, s.productId, Some(s), input) == Ok(s)
  {
  }

  /** Repeating an upsert changes nothing more. */
  lemma UpsertSlotTwice(b: Books, input: SlotInput, s: Slot)
    requires BooksOk(b) && PlanSlot(b, input) == Ok(s)
    ensures UpsertSlot(UpsertSlot(b, input, true).books, input, true) == UpsertSlot(b, input, true)
  {
    var put := PutSlot(b, s);
    var c := UpsertSlot(b, input, true).books;
    PlannedSlot(b, input, s);
    PutSlotKeepsOk(b, s);
    WriteCatalogKeepsOk(put);
    SortedMembers(put.products, ProductBefore, ProductKey);
    UpsertedSlots(b, input, s, s);
    KeyIndexHas(c.products, ProductKey, FoldKey(s.productId));
    FoundSlot(c, s);
    PlannedAgain(b, c, input, s);
    StoredAgain(put, s);
  }

  lemma StoredAgain(put: Books, s: Slot)
    requires Distinct(put.products, ProductKey) && Distinct(put.slots, SlotKey)
    requires Distinct(WriteCatalog(put).slots, SlotKey) && s in WriteCatalog(put).slots
    ensures StoreSlot(WriteCatalog(put), Ok(s), true) == Reply(WriteCatalog(put), Ok(s))
  {
    var c := WriteCatalog(put);
    FoundSlot(c, s);
    var i := KeyIndex(c.slots, SlotKey, SlotKey(s));
    assert c.slots[i := s] == c.slots;
    WrittenTwice(put);
  }

  /** Removing a slot that an upsert has just made takes the catalog back to what it was. */
  lemma RemoveUndoesUpsert(b: Books, input: SlotInput, s: Slot)
    requires BooksOk(b) && PlanSlot(b, input) == Ok(s) && !HasKey(b.slots, SlotKey, SlotKey(s))
    ensures RemoveSlot(UpsertSlot(b, input, true).books, input.id, true) == Reply(WriteCatalog(b), Ok(true))
  {
    var put := PutSlot(b, s);
    var c := UpsertSlot(b, input, true).books;
    PlannedSlot(b, input, s);
    PutSlotKeepsOk(b, s);
    WriteCatalogKeepsOk(put);
    KeyIndexHas(b.slots, SlotKey, SlotKey(s));
    UpsertedSlots(b, input, s, s);
    FoundSlot(c, s);
    SlotIsUnused(b, SlotKey(s));
    var i := KeyIndex(c.slots, SlotKey, SlotKey(s));
    TakenOut(b, c, s, i);
    RemovalOf(c, input.id, i);
    WrittenTwice(b);
  }

  lemma RemovalOf(c: Books, id: string, i: nat)
    requires i < |c.slots| && Trim(id) != "" && i == KeyIndex(c.slots, SlotKey, FoldKey(Trim(id)))
    requires !ReservationsUseSlot(c.reservations, FoldKey(Trim(id)))
    ensures RemoveSlot(c, id, true) == Reply(WriteCatalog(c.(slots := c.slots[..i] + c.slots[i + 1..])), Ok(true))
  {
  }

  lemma SlotIsUnused(b: Books, slotKey: string)
    requires BooksOk(b) && !HasKey(b.slots, SlotKey, slotKey)
    ensures !ReservationsUseSlot(b.reservations, slotKey)
  {
    forall r | r in b.reservations && Active(r)
      ensures FoldKey(r.slotId) != slotKey
    {
      assert Backed(b, r);
    }
  }

  lemma TakenOut(b: Books, c: Books, s: Slot, i: nat)
    requires Distinct(b.slots, SlotKey) && Distinct(c.slots, SlotKey)
    requires c.slots == Sorted(b.slots + [s], SlotBefore) && i < |c.slots| && c.slots[i] == s
    ensures Sorted(c.slots[..i] + c.slots[i + 1..], SlotBefore) == Sorted(b.slots, SlotBefore)
  {
    SortedIsPermutation(b.slots + [s], SlotBefore);
    RemovedMultiset(c.slots, i);
    assert multiset(b.slots + [s]) == multiset(b.slots) + multiset{s};
    Removed(c.slots, i, SlotKey);
    SlotsSortedAlike(c.slots[..i] + c.slots[i + 1..], b.slots);
  }

  /* ----- Operations that follow one another ----- */

  /** A reservation that was just made can be confirmed at once, and is then the one that was made. */
  lemma ReserveThenConfirm(b: Books, input: ReservationInput, t1: int, c: Books, r: Reservation, note: string, t2: int)
    requires BooksOk(b) && CreateReservation(b, input, t1, true) == Reply(c, Ok(r))
    ensures Transition(c, r.id, Confirmed, note, t2, true).result
            == Ok(r.(status := Confirmed, systemNote := Trim(note), updatedAt := t2))
  {
    RoomIsLeft(b, input, t1, c, r);
    IdFindsReservation(c, r);
    ConfirmedAtOnce(c, r, KeyIndex(c.reservations, ReservationKey, FoldKey(Trim(r.id))), note, t2);
  }

  lemma ConfirmedAtOnce(c: Books, r: Reservation, i: nat, note: string, now: int)
    requires i < |c.reservations| && i == KeyIndex(c.reservations, ReservationKey, FoldKey(Trim(r.id)))
    requires c.reservations[i] == r && r.status == Pending && Trim(r.id) != "" && CheckConfirm(c, r).Ok?
    ensures Transition(c, r.id, Confirmed, note, now, true).result
            == Ok(r.(status := Confirmed, systemNote := Trim(note), updatedAt := now))
  {
  }

  lemma IdFindsReservation(c: Books, r: Reservation)
    requires BooksOk(c) && r in c.reservations && Trim(r.id) != ""
    ensures var i := KeyIndex(c.reservations, ReservationKey, FoldKey(Trim(r.id)));
            i >= 0 && c.reservations[i] == r
  {
    TrimIdempotent(r.id);
    assert HasKey(c.reservations, ReservationKey, ReservationKey(r));
    KeyIndexFinds(c.reservations, ReservationKey, ReservationKey(r));
    DistinctMembers(c.reservations, ReservationKey,
                    c.reservations[KeyIndex(c.reservations, ReservationKey, ReservationKey(r))], r);
  }

  lemma RoomIsLeft(b: Books, input: ReservationInput, now: int, c: Books, r: Reservation)
    requires BooksOk(b) && CreateReservation(b, input, now, true) == Reply(c, Ok(r))
    ensures BooksOk(c) && r in c.reservations && r.status == Pending && Trim(r.id) != "" && CheckConfirm(c, r).Ok?
  {
    var x := AcceptedReservation(b, input, now, true);
    CreatedIsStored(b, input, now, c, r);
    RoomBefore(b, input, now, r);
    CreateReservationKeepsOk(b, input, now, true);
    SameRoom(b, c, r);
    FoldKeyOfReservationId(NextNumber(b));
  }

  /** The slot that the request was checked against has room for it. */
  lemma RoomBefore(b: Books, input: ReservationInput, now: int, r: Reservation)
    requires CreateReservation(b, input, now, true).result == Ok(r)
    ensures var p := KeyIndex(b.products, ProductKey, FoldKey(r.productId));
            var s := KeyIndex(b.slots, SlotKey, FoldKey(r.slotId));
            && p >= 0 && s >= 0 && b.slots[s].enabled
            && r.partySize <= Remaining(b.slots[s].capacity, ConfirmedTotal(b.reservations, SlotKey(b.slots[s])))
  {
    var s := KeyIndex(b.slots, SlotKey, FoldKey(Trim(input.slotId)));
    assert s >= 0;
    TrimFixed("");
    SumSame(b.reservations, HeldExcept(SlotKey(b.slots[s]), ""), HeldBy(SlotKey(b.slots[s])));
  }

  lemma SameRoom(b: Books, c: Books, r: Reservation)
    requires BooksOk(c) && r in c.reservations && r.status == Pending
    requires c.products == b.products && c.slots == b.slots
    requires forall k :: ConfirmedTotal(c.reservations, k) == ConfirmedTotal(b.reservations, k)
    requires var p := KeyIndex(b.products, ProductKey, FoldKey(r.productId));
             var s := KeyIndex(b.slots, SlotKey, FoldKey(r.slotId));
             && p >= 0 && s >= 0 && b.slots[s].enabled
             && r.partySize <= Remaining(b.slots[s].capacity, ConfirmedTotal(b.reservations, SlotKey(b.slots[s])))
    ensures CheckConfirm(c, r).Ok?
  {
    var s := KeyIndex(c.slots, SlotKey, FoldKey(r.slotId));
    var i :| 0 <= i < |c.reservations| && c.reservations[i] == r;
    ExcludingPending(c, i, SlotKey(c.slots[s]));
  }

  lemma AvailableToAll(slotId: string, capacity: int, rs: seq<Reservation>)
    ensures Available(slotId, capacity, rs, "") == Remaining(capacity, ConfirmedTotal(rs, FoldKey(slotId)))
  {
    TrimFixed("");
    SumSame(rs, HeldExcept(FoldKey(slotId), ""), HeldBy(FoldKey(slotId)));
  }

  lemma SameCheck(b: Books, c: Books, input: ReservationInput)
    requires c.products == b.products && c.slots == b.slots
    requires forall k :: ConfirmedTotal(c.reservations, k) == ConfirmedTotal(b.reservations, k)
    ensures CheckRoom(c, input) == CheckRoom(b, input)
  {
    var s := KeyIndex(b.slots, SlotKey, FoldKey(Trim(input.slotId)));
    if s >= 0 {
      AvailableToAll(b.slots[s].id, b.slots[s].capacity, b.reservations);
      AvailableToAll(b.slots[s].id, b.slots[s].capacity, c.reservations);
    }
  }

  /** A pending reservation takes no seats: the same request, sent again, makes another reservation. */
  lemma ReserveTwice(b: Books, input: ReservationInput, t1: int, c: Books, r: Reservation, t2: int)
    returns (r': Reservation)
    requires BooksOk(b) && CreateReservation(b, input, t1, true) == Reply(c, Ok(r))
    ensures CreateReservation(c, input, t2, true).result == Ok(r') && ReservationKey(r') != ReservationKey(r)
  {
    var x := AcceptedReservation(b, input, t1, true);
    CreateReservationKeepsOk(b, input, t1, true);
    SameCheck(b, c, input);
    r' := CreateReservation(c, input, t2, true).result.value;
    assert ServeAll(c, []) == c;
    IdsAreNeverReused(b, input, t1, [], input, t2, c, r, r');
  }
}
