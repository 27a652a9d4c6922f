/** What holds over whole runs of the booking service (internal/service/booking_service.go). */
module BookingTheorems {
  import opened Booking
  import opened Sorting
  import opened Text

  datatype Request =
    | ProductUpsert(product: ProductInput, saved: bool)
    | ProductRemoval(id: string, saved: bool)
    | SlotUpsert(slot: SlotInput, saved: bool)
    | SlotRemoval(id: string, saved: bool)
    | Reserve(reservation: ReservationInput, now: int, saved: bool)
    | Settle(id: string, target: Target, note: string, now: int, saved: bool)

  function Serve(b: Books, q: Request): Books {
    match q
    case ProductUpsert(input, saved) => UpsertProduct(b, input, saved).books
    case ProductRemoval(id, saved) => RemoveProduct(b, id, saved).books
    case SlotUpsert(input, saved) => UpsertSlot(b, input, saved).books
    case SlotRemoval(id, saved) => RemoveSlot(b, id, saved).books
    case Reserve(input, now, saved) => CreateReservation(b, input, now, saved).books
    case Settle(id, target, note, now, saved) => Transition(b, id, target, note, now, saved).books
  }

  function ServeAll(b: Books, qs: seq<Request>): Books
    decreases |qs|
  {
    if |qs| == 0 then b else ServeAll(Serve(b, qs[0]), qs[1..])
  }

  /* ----- The invariant ----- */

  ghost predicate CatalogOk(b: Books) {
    && Distinct(b.products, ProductKey)
    && Distinct(b.slots, SlotKey)
    && forall s | s in b.slots ::
         s.capacity > 0 && s.startAt < s.endAt && HasKey(b.products, ProductKey, FoldKey(s.productId))
  }

  /** A reservation that may still use seats names a slot and a product that are there. */
  ghost predicate Backed(b: Books, r: Reservation) {
    Active(r) ==>
      && r.partySize > 0
      && HasKey(b.slots, SlotKey, FoldKey(r.slotId))
      && HasKey(b.products, ProductKey, FoldKey(r.productId))
  }

  ghost predicate Numbered(b: Books, r: Reservation) {
    ReservationNumber(r.id).Some? ==> ReservationNumber(r.id).value < NextNumber(b)
  }

  ghost predicate BooksOk(b: Books) {
    && CatalogOk(b)
    && Distinct(b.reservations, ReservationKey)
    && (forall r | r in b.reservations :: Backed(b, r))
    && (forall r | r in b.reservations :: Numbered(b, r))
  }

  ghost predicate NotOverbooked(b: Books) {
    forall s | s in b.slots :: ConfirmedTotal(b.reservations, SlotKey(s)) <= s.capacity
  }

  lemma NoBooksOk()
    ensures BooksOk(Books([], [], 1, [])) && NotOverbooked(Books([], [], 1, []))
  {
  }

  /* ----- Writing the files changes the order of the records and nothing else ----- */

  lemma SortedMembers<T>(xs: seq<T>, before: (T, T) -> bool, key: T -> string)
    ensures |Sorted(xs, before)| == |xs| && forall x :: x in Sorted(xs, before) <==> x in xs
    ensures Distinct(xs, key) ==> Distinct(Sorted(xs, before), key)
    ensures forall k :: HasKey(Sorted(xs, before), key, k) <==> HasKey(xs, key, k)
  {
    var ys := Sorted(xs, before);
    SortedIsPermutation(xs, before);
    PermutationMembers(ys, xs);
    if Distinct(xs, key) {
      SortedDistinct(xs, before, key);
    }
    forall k
      ensures HasKey(ys, key, k) <==> HasKey(xs, key, k)
    {
      if HasKey(xs, key, k) {
        var x :| x in xs && key(x) == k;
        assert x in multiset(ys);
      }
      if HasKey(ys, key, k) {
        var y :| y in ys && key(y) == k;
        assert y in multiset(xs);
      }
    }
  }

  /** The stored order of the reservations is settled by creation time and id: whatever algorithm sorts
      them, the written list is the same. */
  lemma StoredOrderIsDetermined(b: Books, ys: seq<Reservation>)
    requires Distinct(b.reservations, ReservationKey)
    requires multiset(ys) == multiset(b.reservations) && Ordered(ys, ReservationBefore)
    ensures ys == WriteReservations(b).reservations
  {
    ReservationsTotal(b.reservations);
    AnySortAgrees(b.reservations, ys, ReservationBefore);
  }

  lemma ReservationsTotal(xs: seq<Reservation>)
    requires Distinct(xs, ReservationKey)
    ensures TotalOn(xs, ReservationBefore)
  {
    forall i, j | 0 <= i < j < |xs|
      ensures ReservationBefore(xs[i], xs[j]) || ReservationBefore(xs[j], xs[i])
    {
      TextBeforeTotal(ReservationKey(xs[i]), ReservationKey(xs[j]));
    }
    forall x | x in xs
      ensures !ReservationBefore(x, x)
    {
      TextBeforeTotal(ReservationKey(x), ReservationKey(x));
    }
    forall x, y, z | ReservationBefore(x, y) && ReservationBefore(y, z)
      ensures ReservationBefore(x, z)
    {
      if x.createdAt == y.createdAt == z.createdAt {
        TextBeforeTransitive(ReservationKey(x), ReservationKey(y), ReservationKey(z));
      }
    }
  }

  lemma WriteCatalogKeepsOk(b: Books)
    requires BooksOk(b)
    ensures BooksOk(WriteCatalog(b))
    ensures NotOverbooked(WriteCatalog(b)) <==> NotOverbooked(b)
  {
    SortedMembers(b.products, ProductBefore, ProductKey);
    SortedMembers(b.slots, SlotBefore, SlotKey);
    var c := WriteCatalog(b);
    forall r | r in c.reservations
      ensures Backed(c, r) && Numbered(c, r)
    {
      assert Backed(b, r) && Numbered(b, r);
    }
  }

  lemma WriteReservationsKeepsOk(b: Books)
    requires BooksOk(b)
    ensures BooksOk(WriteReservations(b))
    ensures forall k :: ConfirmedTotal(WriteReservations(b).reservations, k) == ConfirmedTotal(b.reservations, k)
    ensures NotOverbooked(WriteReservations(b)) <==> NotOverbooked(b)
  {
    SortedMembers(b.reservations, ReservationBefore, ReservationKey);
    SortedIsPermutation(b.reservations, ReservationBefore);
    var c := WriteReservations(b);
    forall k
      ensures ConfirmedTotal(c.reservations, k) == ConfirmedTotal(b.reservations, k)
    {
      SumOfPermutation(c.reservations, b.reservations, HeldBy(k));
    }
    forall r | r in c.reservations
      ensures Backed(c, r) && Numbered(c, r)
    {
      assert Backed(b, r) && Numbered(b, r);
    }
  }

  /* ----- Edits of a list of records ----- */

  lemma Appended<T>(xs: seq<T>, x: T, key: T -> string)
    requires Distinct(xs, key) && !HasKey(xs, key, key(x))
    ensures Distinct(xs + [x], key)
    ensures forall k :: HasKey(xs + [x], key, k) <==> HasKey(xs, key, k) || k == key(x)
  {
    var ys := xs + [x];
    forall i, j | 0 <= i < j < |ys|
      ensures key(ys[i]) != key(ys[j])
    {
      if j == |xs| {
        assert xs[i] in xs;
      }
    }
    assert ys[|xs|] in ys;
    forall k
      ensures HasKey(ys, key, k) <==> HasKey(xs, key, k) || k == key(x)
    {
      if HasKey(xs, key, k) {
        var y :| y in xs && key(y) == k;
        assert y in ys;
      }
    }
  }

  lemma Replaced<T>(xs: seq<T>, i: nat, x: T, key: T -> string)
    requires i < |xs| && Distinct(xs, key) && key(x) == key(xs[i])
    ensures Distinct(xs[i := x], key)
    ensures forall k :: HasKey(xs[i := x], key, k) <==> HasKey(xs, key, k)
  {
    var ys := xs[i := x];
    forall k
      ensures HasKey(ys, key, k) <==> HasKey(xs, key, k)
    {
      if HasKey(xs, key, k) {
        var j :| 0 <= j < |xs| && key(xs[j]) == k;
        assert ys[j] in ys && key(ys[j]) == k;
      }
      if HasKey(ys, key, k) {
        var j :| 0 <= j < |ys| && key(ys[j]) == k;
        assert xs[j] in xs && key(xs[j]) == k;
      }
    }
  }

  lemma Removed<T>(xs: seq<T>, i: nat, key: T -> string)
    requires i < |xs| && Distinct(xs, key)
    ensures var ys := xs[..i] + xs[i + 1..];
            && Distinct(ys, key)
            && (forall x :: x in ys <==> x in xs && key(x) != key(xs[i]))
            && (forall k :: HasKey(ys, key, k) <==> HasKey(xs, key, k) && k != key(xs[i]))
  {
    var ys := xs[..i] + xs[i + 1..];
    assert forall j | 0 <= j < |ys| :: ys[j] == if j < i then xs[j] else xs[j + 1];
    forall x
      ensures x in ys <==> x in xs && key(x) != key(xs[i])
    {
      if x in xs && key(x) != key(xs[i]) {
        var j :| 0 <= j < |xs| && xs[j] == x;
        assert ys[if j < i then j else j - 1] == x;
      }
    }
    forall k
      ensures HasKey(ys, key, k) <==> HasKey(xs, key, k) && k != key(xs[i])
    {
      if HasKey(xs, key, k) && k != key(xs[i]) {
        var x :| x in xs && key(x) == k;
        assert x in ys;
      }
    }
  }

  /* ----- Reservation numbers ----- */

  lemma {:induction false} LargestNumberBounds(rs: seq<Reservation>, r: Reservation)
    requires r in rs
    ensures ReservationNumber(r.id).Some? ==> ReservationNumber(r.id).value <= LargestNumber(rs)
    decreases |rs|
  {
    var init := rs[..|rs| - 1];
    if r in init {
      LargestNumberBounds(init, r);
    } else {
      assert rs == init + [rs[|rs| - 1]];
    }
  }

  lemma LowerOfReservationId(t: string, n: nat)
    requires Lower(t) == ReservationId(n)
    ensures |t| >= 2 && Lower(t)[..2] == "r-" && t[2..] == Decimal(n)
  {
    assert ReservationId(n)[..2] == "r-";
    var d := Decimal(n);
    assert |t| == 2 + |d|;
    forall i | 0 <= i < |d|
      ensures t[i + 2] == d[i]
    {
      assert LowerChar(t[i + 2]) == ReservationId(n)[i + 2] == d[i];
    }
  }

  lemma FoldKeyOfReservationId(n: nat)
    ensures FoldKey(ReservationId(n)) == ReservationId(n)
  {
    var whole := ReservationId(n);
    TrimFixed(whole);
    assert whole[|whole| - 1] == Decimal(n)[|Decimal(n)| - 1];
    assert Lower(whole) == whole;
  }

  /** An id equal to `r-N` up to case and surrounding space stands for the number N. */
  lemma NumberOfId(id: string, n: nat)
    requires FoldKey(id) == FoldKey(ReservationId(n))
    ensures ReservationNumber(id) == Some(n)
  {
    FoldKeyOfReservationId(n);
    LowerOfReservationId(Trim(id), n);
    TrimmedDecimal(n);
  }

  lemma TrimmedDecimal(n: nat)
    ensures ParseInt(Trim(Decimal(n))) == Some(n)
  {
    TrimFixed(Decimal(n));
    ParseIntOfDecimal(n);
  }

  /** A reservation number is never taken twice: the next one belongs to no stored reservation. */
  lemma NextIdIsFree(b: Books)
    requires BooksOk(b)
    ensures !HasKey(b.reservations, ReservationKey, FoldKey(ReservationId(NextNumber(b))))
  {
    forall r | r in b.reservations
      ensures ReservationKey(r) != FoldKey(ReservationId(NextNumber(b)))
    {
      assert Numbered(b, r);
      if ReservationKey(r) == FoldKey(ReservationId(NextNumber(b))) {
        NumberOfId(r.id, NextNumber(b));
      }
    }
  }

  /* ----- Every operation keeps the invariant ----- */

  lemma UpsertProductKeepsOk(b: Books, input: ProductInput, saved: bool)
    requires BooksOk(b)
    ensures BooksOk(UpsertProduct(b, input, saved).books)
    ensures NotOverbooked(UpsertProduct(b, input, saved).books) <==> NotOverbooked(b)
  {
    var plan := PlanProduct(b, input);
    if plan.Ok? && saved {
      var id := Trim(input.id);
      var p := plan.value;
      var i := KeyIndex(b.products, ProductKey, FoldKey(id));
      KeyIndexFinds(b.products, ProductKey, FoldKey(id));
      if i < 0 {
        Appended(b.products, p, ProductKey);
      } else {
        Replaced(b.products, i, p, ProductKey);
      }
      var c := PutProduct(b, id, p);
      forall r | r in c.reservations
        ensures Backed(c, r) && Numbered(c, r)
      {
        assert Backed(b, r) && Numbered(b, r);
      }
      assert BooksOk(c);
      WriteCatalogKeepsOk(c);
    }
  }

  lemma RemoveProductKeepsOk(b: Books, id: string, saved: bool)
    requires BooksOk(b)
    ensures BooksOk(RemoveProduct(b, id, saved).books)
    ensures NotOverbooked(RemoveProduct(b, id, saved).books) <==> NotOverbooked(b)
  {
    var key := FoldKey(Trim(id));
    var i := KeyIndex(b.products, ProductKey, key);
    KeyIndexFinds(b.products, ProductKey, key);
    if Trim(id) != "" && i >= 0 && !SlotsUse(b.slots, key) && !ReservationsUseProduct(b.reservations, key) && saved {
      Removed(b.products, i, ProductKey);
      var c := b.(products := b.products[..i] + b.products[i + 1..]);
      forall r | r in c.reservations
        ensures Backed(c, r) && Numbered(c, r)
      {
        assert Backed(b, r) && Numbered(b, r);
      }
      assert BooksOk(c);
      WriteCatalogKeepsOk(c);
    }
  }

  lemma RemoveSlotKeepsOk(b: Books, id: string, saved: bool)
    requires BooksOk(b)
    ensures BooksOk(RemoveSlot(b, id, saved).books)
    ensures NotOverbooked(b) ==> NotOverbooked(RemoveSlot(b, id, saved).books)
  {
    var key := FoldKey(Trim(id));
    var i := KeyIndex(b.slots, SlotKey, key);
    KeyIndexFinds(b.slots, SlotKey, key);
    if Trim(id) != "" && i >= 0 && !ReservationsUseSlot(b.reservations, key) && saved {
      Removed(b.slots, i, SlotKey);
      var c := b.(slots := b.slots[..i] + b.slots[i + 1..]);
      forall r | r in c.reservations
        ensures Backed(c, r) && Numbered(c, r)
      {
        assert Backed(b, r) && Numbered(b, r);
      }
      assert BooksOk(c);
      WriteCatalogKeepsOk(c);
    }
  }

  /** A slot that nobody's active reservation names has no confirmed seats. */
  lemma UnknownSlotIsEmpty(b: Books, slotKey: string)
    requires BooksOk(b) && !HasKey(b.slots, SlotKey, slotKey)
    ensures ConfirmedTotal(b.reservations, slotKey) == 0
  {
    forall i | 0 <= i < |b.reservations|
      ensures HeldBy(slotKey)(b.reservations[i]) == 0
    {
      assert Backed(b, b.reservations[i]);
    }
    SumZero(b.reservations, HeldBy(slotKey));
  }

  /** The new slot has fewer seats than its confirmed reservations already hold. */
  predicate TooSmall(b: Books, s: Slot) {
    s.capacity < ConfirmedTotal(b.reservations, SlotKey(s))
  }

  lemma PutSlotKeepsOk(b: Books, s: Slot)
    requires BooksOk(b)
    requires s.capacity > 0 && s.startAt < s.endAt && HasKey(b.products, ProductKey, FoldKey(s.productId))
    ensures BooksOk(PutSlot(b, s))
    ensures NotOverbooked(b) ==> (NotOverbooked(PutSlot(b, s)) <==> !TooSmall(b, s))
    ensures TooSmall(b, s) ==> HasKey(b.slots, SlotKey, SlotKey(s))
  {
    var i := KeyIndex(b.slots, SlotKey, SlotKey(s));
    var c := PutSlot(b, s);
    KeyIndexFinds(b.slots, SlotKey, SlotKey(s));
    if i < 0 {
      Appended(b.slots, s, SlotKey);
      UnknownSlotIsEmpty(b, SlotKey(s));
    } else {
      Replaced(b.slots, i, s, SlotKey);
    }
    forall t | t in c.slots
      ensures t == s || t in b.slots
    {
      var j :| 0 <= j < |c.slots| && c.slots[j] == t;
    }
    assert s in c.slots by {
      assert c.slots[if i < 0 then |b.slots| else i] == s;
    }
    forall r | r in c.reservations
      ensures Backed(c, r) && Numbered(c, r)
    {
      assert Backed(b, r) && Numbered(b, r);
    }
  }

  lemma PlannedSlot(b: Books, input: SlotInput, s: Slot)
    requires PlanSlot(b, input) == Ok(s)
    ensures s.capacity > 0 && s.startAt < s.endAt && HasKey(b.products, ProductKey, FoldKey(s.productId))
    ensures s.id == Trim(input.id)
  {
    KeyIndexHas(b.products, ProductKey, FoldKey(s.productId));
  }

  /** Lowering a slot below its confirmed seats is the one accepted slot change that overbooks. */
  lemma UpsertSlotKeepsOk(b: Books, input: SlotInput, saved: bool)
    requires BooksOk(b)
    ensures BooksOk(UpsertSlot(b, input, saved).books)
    ensures NotOverbooked(b) ==>
              (NotOverbooked(UpsertSlot(b, input, saved).books) <==>
               !(saved && PlanSlot(b, input).Ok? && TooSmall(b, PlanSlot(b, input).value)))
  {
    var plan := PlanSlot(b, input);
    if plan.Ok? && saved {
      PlannedSlot(b, input, plan.value);
      PutSlotKeepsOk(b, plan.value);
      WriteCatalogKeepsOk(PutSlot(b, plan.value));
    }
  }

  /** The reservations with a new one at the end. */
  function Grown(b: Books, r: Reservation): Books {
    b.(nextId := NextNumber(b) + 1, reservations := b.reservations + [r])
  }

  lemma GrownKeepsOk(b: Books, r: Reservation)
    requires BooksOk(b) && Backed(b, r) && r.id == ReservationId(NextNumber(b))
    ensures BooksOk(Grown(b, r))
  {
    var c := Grown(b, r);
    NextIdIsFree(b);
    Appended(b.reservations, r, ReservationKey);
    NumberOfId(r.id, NextNumber(b));
    forall x | x in c.reservations
      ensures Backed(c, x) && Numbered(c, x)
    {
      if x in b.reservations {
        assert Backed(b, x) && Numbered(b, x);
      }
    }
  }

  lemma GrownTotals(b: Books, r: Reservation, slotKey: string)
    requires r.status == Pending
    ensures ConfirmedTotal(Grown(b, r).reservations, slotKey) == ConfirmedTotal(b.reservations, slotKey)
  {
    SumConcat(b.reservations, [r], HeldBy(slotKey));
  }

  /** An accepted request adds one pending reservation, for a product and a slot that are there. */
  lemma AcceptedReservation(b: Books, input: ReservationInput, now: int, saved: bool) returns (r: Reservation)
    requires CreateReservation(b, input, now, saved).result.Ok?
    ensures CreateReservation(b, input, now, saved) == Reply(WriteReservations(Grown(b, r)), Ok(r))
    ensures r.id == ReservationId(NextNumber(b)) && r.status == Pending && Backed(b, r)
  {
    KeyIndexFinds(b.products, ProductKey, FoldKey(Trim(input.productId)));
    KeyIndexFinds(b.slots, SlotKey, FoldKey(Trim(input.slotId)));
    r := NewReservation(b, input, CheckInput(input).value, now);
  }

  lemma CreateReservationKeepsOk(b: Books, input: ReservationInput, now: int, saved: bool)
    requires BooksOk(b)
    ensures BooksOk(CreateReservation(b, input, now, saved).books)
    ensures forall k ::
              ConfirmedTotal(CreateReservation(b, input, now, saved).books.reservations, k) ==
              ConfirmedTotal(b.reservations, k)
    ensures NotOverbooked(CreateReservation(b, input, now, saved).books) <==> NotOverbooked(b)
  {
    if CreateReservation(b, input, now, saved).result.Ok? {
      var r := AcceptedReservation(b, input, now, saved);
      GrownKeepsOk(b, r);
      forall k
        ensures ConfirmedTotal(Grown(b, r).reservations, k) == ConfirmedTotal(b.reservations, k)
      {
        GrownTotals(b, r, k);
      }
      WriteReservationsKeepsOk(Grown(b, r));
    }
  }

  lemma SettledTotals(b: Books, i: nat, r: Reservation, slotKey: string)
    requires i < |b.reservations| && b.reservations[i].status == Pending
    ensures ConfirmedTotal(b.reservations[i := r], slotKey) ==
            ConfirmedTotal(b.reservations, slotKey) + Held(r, slotKey)
  {
    SumUpdate(b.reservations, i, r, HeldBy(slotKey));
  }

  /** Not counting the pending reservation itself changes nothing: it holds no seats. */
  lemma ExcludingPending(b: Books, i: nat, slotKey: string)
    requires BooksOk(b) && i < |b.reservations| && b.reservations[i].status == Pending
    ensures Sum(b.reservations, HeldExcept(slotKey, ReservationKey(b.reservations[i]))) ==
            ConfirmedTotal(b.reservations, slotKey)
  {
    var r := b.reservations[i];
    forall j | 0 <= j < |b.reservations|
      ensures HeldExcept(slotKey, ReservationKey(r))(b.reservations[j]) == HeldBy(slotKey)(b.reservations[j])
    {
      if ReservationKey(b.reservations[j]) == ReservationKey(r) {
        assert b.reservations[j] in b.reservations && r in b.reservations;
        DistinctMembers(b.reservations, ReservationKey, b.reservations[j], r);
      }
    }
    SumSame(b.reservations, HeldExcept(slotKey, ReservationKey(r)), HeldBy(slotKey));
  }

  lemma ConfirmationFits(b: Books, i: nat, s: Slot)
    requires BooksOk(b) && i < |b.reservations| && b.reservations[i].status == Pending
    requires CheckConfirm(b, b.reservations[i]).Ok?
    requires s in b.slots && SlotKey(s) == FoldKey(b.reservations[i].slotId)
    ensures ConfirmedTotal(b.reservations, SlotKey(s)) + b.reservations[i].partySize <= s.capacity
  {
    var r := b.reservations[i];
    var found := CheckConfirm(b, r).value;
    KeyIndexFinds(b.slots, SlotKey, FoldKey(r.slotId));
    assert found in b.slots;
    DistinctMembers(b.slots, SlotKey, s, found);
    ExcludingPending(b, i, SlotKey(s));
    assert r in b.reservations;
    assert Backed(b, r);
  }

  /** The reservations with one pending one moved to the target. */
  function Moved(b: Books, i: nat, target: Target, note: string, now: int): Books
    requires i < |b.reservations|
  {
    var r := b.reservations[i].(status := target, systemNote := Trim(note), updatedAt := now);
    b.(reservations := b.reservations[i := r])
  }

  lemma MovedKeepsOk(b: Books, i: nat, target: Target, note: string, now: int)
    requires BooksOk(b) && i < |b.reservations| && b.reservations[i].status == Pending
    ensures BooksOk(Moved(b, i, target, note, now))
  {
    var c := Moved(b, i, target, note, now);
    var r := b.reservations[i];
    var r' := c.reservations[i];
    Replaced(b.reservations, i, r', ReservationKey);
    LargestNumberSame(b.reservations, c.reservations);
    assert r in b.reservations;
    assert Backed(b, r) && Numbered(b, r);
    forall x | x in c.reservations
      ensures Backed(c, x) && Numbered(c, x)
    {
      if x != r' {
        assert x in b.reservations;
        assert Backed(b, x) && Numbered(b, x);
      }
    }
  }

  lemma MovedOverbooks(b: Books, i: nat, target: Target, note: string, now: int)
    requires BooksOk(b) && NotOverbooked(b) && i < |b.reservations| && b.reservations[i].status == Pending
    requires target == Confirmed ==> CheckConfirm(b, b.reservations[i]).Ok?
    ensures NotOverbooked(Moved(b, i, target, note, now))
  {
    var c := Moved(b, i, target, note, now);
    forall s | s in c.slots
      ensures ConfirmedTotal(c.reservations, SlotKey(s)) <= s.capacity
    {
      SettledTotals(b, i, c.reservations[i], SlotKey(s));
      if Held(c.reservations[i], SlotKey(s)) > 0 {
        ConfirmationFits(b, i, s);
      }
    }
  }

  /** An accepted transition found a pending reservation and, when confirming, room for it. */
  lemma AcceptedTransition(b: Books, id: string, target: Target, note: string, now: int, saved: bool) returns (i: nat)
    requires Transition(b, id, target, note, now, saved).result.Ok?
    ensures i < |b.reservations| && b.reservations[i].status == Pending
    ensures ReservationKey(b.reservations[i]) == FoldKey(Trim(id))
    ensures target == Confirmed ==> CheckConfirm(b, b.reservations[i]).Ok?
    ensures Transition(b, id, target, note, now, saved) ==
            Reply(WriteReservations(Moved(b, i, target, note, now)), Ok(Moved(b, i, target, note, now).reservations[i]))
  {
    KeyIndexFinds(b.reservations, ReservationKey, FoldKey(Trim(id)));
    i := KeyIndex(b.reservations, ReservationKey, FoldKey(Trim(id)));
  }

  lemma RefusedTransition(b: Books, id: string, target: Target, note: string, now: int, saved: bool)
    requires Transition(b, id, target, note, now, saved).result.Err?
    ensures Transition(b, id, target, note, now, saved).books == b
  {
  }

  lemma TransitionKeepsOk(b: Books, id: string, target: Target, note: string, now: int, saved: bool)
    requires BooksOk(b)
    ensures BooksOk(Transition(b, id, target, note, now, saved).books)
    ensures NotOverbooked(b) ==> NotOverbooked(Transition(b, id, target, note, now, saved).books)
  {
    var t := Transition(b, id, target, note, now, saved);
    if t.result.Ok? {
      var i := AcceptedTransition(b, id, target, note, now, saved);
      SettledKeepsOk(b, i, target, note, now);
      assert t.books == WriteReservations(Moved(b, i, target, note, now));
    } else {
      RefusedTransition(b, id, target, note, now, saved);
    }
  }

  lemma SettledKeepsOk(b: Books, i: nat, target: Target, note: string, now: int)
    requires BooksOk(b) && i < |b.reservations| && b.reservations[i].status == Pending
    requires target == Confirmed ==> CheckConfirm(b, b.reservations[i]).Ok?
    ensures BooksOk(WriteReservations(Moved(b, i, target, note, now)))
    ensures NotOverbooked(b) ==> NotOverbooked(WriteReservations(Moved(b, i, target, note, now)))
  {
    MovedKeepsOk(b, i, target, note, now);
    WriteReservationsKeepsOk(Moved(b, i, target, note, now));
    if NotOverbooked(b) {
      MovedOverbooks(b, i, target, note, now);
    }
  }

  lemma {:induction false} LargestNumberSame(xs: seq<Reservation>, ys: seq<Reservation>)
    requires |xs| == |ys| && forall i | 0 <= i < |xs| :: xs[i].id == ys[i].id
    ensures LargestNumber(xs) == LargestNumber(ys)
    decreases |xs|
  {
    if |xs| > 0 {
      LargestNumberSame(xs[..|xs| - 1], ys[..|ys| - 1]);
    }
  }

  /* ----- Whole runs ----- */

  /** The request lowers a slot's capacity below the seats its confirmed reservations hold. */
  predicate Undercuts(b: Books, q: Request) {
    q.SlotUpsert? && q.saved && PlanSlot(b, q.slot).Ok? && TooSmall(b, PlanSlot(b, q.slot).value)
  }

  predicate NeverUndercuts(b: Books, qs: seq<Request>)
    decreases |qs|
  {
    |qs| == 0 || (!Undercuts(b, qs[0]) && NeverUndercuts(Serve(b, qs[0]), qs[1..]))
  }

  lemma CatalogRequestKeepsOk(b: Books, q: Request)
    requires BooksOk(b) && !q.Reserve? && !q.Settle?
    ensures BooksOk(Serve(b, q))
  {
    if q.ProductUpsert? {
      UpsertProductKeepsOk(b, q.product, q.saved);
    } else if q.ProductRemoval? {
      RemoveProductKeepsOk(b, q.id, q.saved);
    } else if q.SlotUpsert? {
      UpsertSlotKeepsOk(b, q.slot, q.saved);
    } else {
      RemoveSlotKeepsOk(b, q.id, q.saved);
    }
  }

  lemma ReservationRequestKeepsOk(b: Books, q: Request)
    requires BooksOk(b) && (q.Reserve? || q.Settle?)
    ensures BooksOk(Serve(b, q))
  {
    if q.Reserve? {
      CreateReservationKeepsOk(b, q.reservation, q.now, q.saved);
    } else {
      TransitionKeepsOk(b, q.id, q.target, q.note, q.now, q.saved);
    }
  }

  lemma ServeKeepsOk(b: Books, q: Request)
    requires BooksOk(b)
    ensures BooksOk(Serve(b, q))
  {
    if q.Reserve? || q.Settle? {
      ReservationRequestKeepsOk(b, q);
    } else {
      CatalogRequestKeepsOk(b, q);
    }
  }

  lemma SlotRequestOverbooks(b: Books, q: Request)
    requires BooksOk(b) && NotOverbooked(b) && q.SlotUpsert?
    ensures NotOverbooked(Serve(b, q)) <==> !Undercuts(b, q)
  {
    UpsertSlotKeepsOk(b, q.slot, q.saved);
  }

  lemma CatalogRequestOverbooks(b: Books, q: Request)
    requires BooksOk(b) && NotOverbooked(b) && (q.ProductUpsert? || q.ProductRemoval? || q.SlotRemoval?)
    ensures NotOverbooked(Serve(b, q))
  {
    if q.ProductUpsert? {
      UpsertProductKeepsOk(b, q.product, q.saved);
    } else if q.ProductRemoval? {
      RemoveProductKeepsOk(b, q.id, q.saved);
    } else {
      RemoveSlotKeepsOk(b, q.id, q.saved);
    }
  }

  lemma ReservationRequestOverbooks(b: Books, q: Request)
    requires BooksOk(b) && NotOverbooked(b) && (q.Reserve? || q.Settle?)
    ensures NotOverbooked(Serve(b, q))
  {
    if q.Reserve? {
      CreateReservationKeepsOk(b, q.reservation, q.now, q.saved);
    } else {
      TransitionKeepsOk(b, q.id, q.target, q.note, q.now, q.saved);
    }
  }

  /** One request overbooks a slot exactly when it lowers a capacity below the confirmed seats. */
  lemma ServeOverbooks(b: Books, q: Request)
    requires BooksOk(b) && NotOverbooked(b)
    ensures NotOverbooked(Serve(b, q)) <==> !Undercuts(b, q)
  {
    if q.SlotUpsert? {
      SlotRequestOverbooks(b, q);
    } else if q.Reserve? || q.Settle? {
      ReservationRequestOverbooks(b, q);
    } else {
      CatalogRequestOverbooks(b, q);
    }
  }

  lemma {:induction false} RunKeepsOk(b: Books, qs: seq<Request>)
    requires BooksOk(b)
    ensures BooksOk(ServeAll(b, qs))
    decreases |qs|
  {
    if |qs| > 0 {
      ServeKeepsOk(b, qs[0]);
      RunKeepsOk(Serve(b, qs[0]), qs[1..]);
    }
  }

  /** No slot is ever overbooked in a run that never undercuts one, through every mix of requests,
      failed writes, and slots removed and made again. */
  lemma {:induction false} RunNeverOverbooks(b: Books, qs: seq<Request>)
    requires BooksOk(b) && NotOverbooked(b) && NeverUndercuts(b, qs)
    ensures NotOverbooked(ServeAll(b, qs))
    decreases |qs|
  {
    if |qs| > 0 {
      ServeKeepsOk(b, qs[0]);
      ServeOverbooks(b, qs[0]);
      RunNeverOverbooks(Serve(b, qs[0]), qs[1..]);
    }
  }

  lemma FoundSlot(c: Books, s: Slot)
    requires Distinct(c.slots, SlotKey) && s in c.slots
    ensures var i := KeyIndex(c.slots, SlotKey, SlotKey(s)); i >= 0 && c.slots[i] == s
  {
    assert HasKey(c.slots, SlotKey, SlotKey(s));
    KeyIndexFinds(c.slots, SlotKey, SlotKey(s));
    DistinctMembers(c.slots, SlotKey, s, c.slots[KeyIndex(c.slots, SlotKey, SlotKey(s))]);
  }

  /** Any slot with more than one confirmed seat can be overbooked, by giving it fewer seats. */
  lemma LoweringOverbooks(b: Books, s: Slot, capacity: int)
    requires BooksOk(b) && NotOverbooked(b) && s in b.slots && Trim(s.id) != "" && Trim(s.productId) != ""
    requires 0 < capacity < ConfirmedTotal(b.reservations, SlotKey(s))
    ensures !NotOverbooked(Serve(b, SlotUpsert(SlotInput(s.id, "", Blank, Blank, Some(capacity), None), true)))
  {
    var input := SlotInput(s.id, "", Blank, Blank, Some(capacity), None);
    LoweredSlot(b, s, capacity, input);
    ServeOverbooks(b, SlotUpsert(input, true));
  }

  lemma LoweredSlot(b: Books, s: Slot, capacity: int, input: SlotInput)
    requires BooksOk(b) && s in b.slots && Trim(s.id) != "" && Trim(s.productId) != "" && capacity > 0
    requires input == SlotInput(s.id, "", Blank, Blank, Some(capacity), None)
    ensures PlanSlot(b, input) == Ok(Slot(Trim(s.id), Trim(s.productId), s.startAt, s.endAt, capacity, s.enabled))
    ensures FoldKey(Trim(s.id)) == SlotKey(s)
  {
    TrimIdempotent(s.id);
    FoundSlot(b, s);
    TrimIdempotent(s.productId);
    TrimFixed("");
    assert CurrentSlot(b, Trim(s.id)) == Some(s);
    assert SlotProduct(Some(s), input) == Trim(s.productId);
    LoweredFill(Trim(s.id), Trim(s.productId), s, capacity, input);
    KeyIndexHas(b.products, ProductKey, FoldKey(s.productId));
  }

  lemma LoweredFill(id: string, productId: string, s: Slot, capacity: int, input: SlotInput)
    requires input.startAt == Blank && input.endAt == Blank && input.capacity == Some(capacity) && input.enabled == None
    requires s.startAt < s.endAt && capacity > 0
    ensures FillSlot(id, productId, Some(s), input) == Ok(Slot(id, productId, s.startAt, s.endAt, capacity, s.enabled))
  {
  }

  /** The hypothesis is needed: two confirmed seats, and the slot's capacity lowered to one. */
  lemma LoweredCapacityOverbooks()
    ensures exists b: Books, q: Request :: BooksOk(b) && NotOverbooked(b) && !NotOverbooked(Serve(b, q))
  {
    var s := Slot("s", "p", 0, 1, 2, true);
    var b := TwoSeatsTaken(s);
    ShortIds();
    LoweringOverbooks(b, s, 1);
  }

  lemma OneOfEach(p: Product, s: Slot, r: Reservation, next: int) returns (b: Books)
    requires s.capacity > 0 && s.startAt < s.endAt && FoldKey(s.productId) == FoldKey(r.productId) == ProductKey(p)
    requires FoldKey(r.slotId) == SlotKey(s) && r.status == Confirmed && 0 < r.partySize <= s.capacity
    requires 0 < next && ReservationNumber(r.id).Some? && ReservationNumber(r.id).value < next
    ensures b == Books([p], [s], next, [r]) && BooksOk(b) && NotOverbooked(b)
    ensures ConfirmedTotal(b.reservations, SlotKey(s)) == r.partySize
  {
    b := Books([p], [s], next, [r]);
    assert b.products[0] in b.products && b.slots[0] in b.slots;
    assert Backed(b, r) && Numbered(b, r);
    OneHolds(r, SlotKey(s));
  }

  lemma OneHolds(r: Reservation, slotKey: string)
    ensures ConfirmedTotal([r], slotKey) == Held(r, slotKey)
  {
    SumAt([r], 0, HeldBy(slotKey));
    assert [r][..0] == [] && [r][1..] == [];
  }

  lemma TwoSeatsTaken(s: Slot) returns (b: Books)
    requires s == Slot("s", "p", 0, 1, 2, true)
    ensures BooksOk(b) && NotOverbooked(b) && s in b.slots && ConfirmedTotal(b.reservations, SlotKey(s)) == 2
  {
    ShortIds();
    var r := Reservation("r-1", "p", "s", "u", 2, Personnel("n", "t", []), "", Confirmed, "", 0, 0);
    b := OneOfEach(Product("p", "n", "", true), s, r, 2);
    assert b.slots[0] in b.slots;
  }

  lemma ShortIds()
    ensures Trim("s") == "s" && FoldKey("s") == "s" && Trim("p") == "p" && FoldKey("p") == "p"
    ensures Trim("") == "" && Trim("r-1") == "r-1" && ReservationNumber("r-1") == Some(1)
  {
    TrimFixed("s");
    TrimFixed("p");
    TrimFixed("");
    TrimFixed("r-1");
    assert Lower("s") == "s" && Lower("p") == "p";
    assert Decimal(1) == "1";
    assert ReservationId(1) == "r-1";
    NumberOfId("r-1", 1);
  }

  /* ----- History ----- */

  /** What a reservation may become: a pending one can be settled once, anything else stays as it is. */
  predicate Becomes(r: Reservation, r': Reservation) {
    || r' == r
    || (&& r.status == Pending && (r'.status == Confirmed || r'.status == Rejected || r'.status == Cancelled)
        && r' == r.(status := r'.status, systemNote := r'.systemNote, updatedAt := r'.updatedAt))
  }

  ghost predicate LivesOn(r: Reservation, rs: seq<Reservation>) {
    exists r' :: r' in rs && Becomes(r, r')
  }

  lemma MovedHistory(b: Books, i: nat, target: Target, note: string, now: int, r: Reservation)
    requires i < |b.reservations| && b.reservations[i].status == Pending && r in b.reservations
    ensures LivesOn(r, WriteReservations(Moved(b, i, target, note, now)).reservations)
  {
    var c := Moved(b, i, target, note, now);
    SortedMembers(c.reservations, ReservationBefore, ReservationKey);
    var j :| 0 <= j < |b.reservations| && b.reservations[j] == r;
    assert c.reservations[j] in c.reservations && Becomes(r, c.reservations[j]);
  }

  lemma CatalogRequestsKeepReservations(b: Books, q: Request)
    requires !q.Reserve? && !q.Settle?
    ensures Serve(b, q).reservations == b.reservations
  {
  }

  lemma GrownMembers(b: Books, added: Reservation, r: Reservation)
    ensures r in WriteReservations(Grown(b, added)).reservations <==> r in b.reservations || r == added
  {
    var all := Grown(b, added).reservations;
    SortedIsPermutation(all, ReservationBefore);
    assert r in multiset(Sorted(all, ReservationBefore)) <==> r in multiset(all);
    assert all[|b.reservations|] == added;
    assert all[..|b.reservations|] == b.reservations;
  }

  lemma RefusedReservation(b: Books, input: ReservationInput, now: int, saved: bool)
    requires CreateReservation(b, input, now, saved).result.Err?
    ensures CreateReservation(b, input, now, saved).books == b
  {
  }

  /** What an accepted or refused request for a reservation does to the list. */
  lemma ReserveEffect(b: Books, input: ReservationInput, now: int, saved: bool, reply: Reply<Reservation>,
                      r: Reservation)
    requires reply == CreateReservation(b, input, now, saved)
    ensures r in reply.books.reservations <==> r in b.reservations || reply.result == Ok(r)
  {
    if reply.result.Ok? {
      var added := AcceptedReservation(b, input, now, saved);
      GrownMembers(b, added, r);
    } else {
      RefusedReservation(b, input, now, saved);
    }
  }

  lemma SettleHistory(b: Books, q: Request, r: Reservation)
    requires r in b.reservations && q.Settle?
    ensures LivesOn(r, Serve(b, q).reservations)
  {
    assert Becomes(r, r);
    if Transition(b, q.id, q.target, q.note, q.now, q.saved).result.Ok? {
      var i := AcceptedTransition(b, q.id, q.target, q.note, q.now, q.saved);
      MovedHistory(b, i, q.target, q.note, q.now, r);
    }
  }

  lemma ServeHistory(b: Books, q: Request, r: Reservation)
    requires r in b.reservations
    ensures LivesOn(r, Serve(b, q).reservations)
  {
    assert Becomes(r, r);
    if q.Reserve? {
      ReserveEffect(b, q.reservation, q.now, q.saved, CreateReservation(b, q.reservation, q.now, q.saved), r);
    } else if q.Settle? {
      SettleHistory(b, q, r);
    } else {
      CatalogRequestsKeepReservations(b, q);
    }
  }

  /** A request makes up no reservation but the one it was asked to create. */
  lemma ServeOrigin(b: Books, q: Request, r': Reservation)
    requires r' in Serve(b, q).reservations
    ensures (exists r :: r in b.reservations && Becomes(r, r'))
         || (q.Reserve? && CreateReservation(b, q.reservation, q.now, q.saved).result == Ok(r'))
  {
    if r' in b.reservations {
      assert Becomes(r', r');
    } else if q.Reserve? {
      ReserveEffect(b, q.reservation, q.now, q.saved, CreateReservation(b, q.reservation, q.now, q.saved), r');
    } else if q.Settle? {
      SettleOrigin(b, q, r');
    } else {
      CatalogRequestsKeepReservations(b, q);
    }
  }

  lemma SettleOrigin(b: Books, q: Request, r': Reservation)
    requires q.Settle? && r' in Serve(b, q).reservations && r' !in b.reservations
    ensures exists r :: r in b.reservations && Becomes(r, r')
  {
    var i := AcceptedTransition(b, q.id, q.target, q.note, q.now, q.saved);
    MovedOrigin(b, i, q.target, q.note, q.now, r');
  }

  lemma MovedOrigin(b: Books, i: nat, target: Target, note: string, now: int, r': Reservation)
    requires i < |b.reservations| && b.reservations[i].status == Pending
    requires r' in WriteReservations(Moved(b, i, target, note, now)).reservations
    ensures exists r :: r in b.reservations && Becomes(r, r')
  {
    var c := Moved(b, i, target, note, now);
    SortedIsPermutation(c.reservations, ReservationBefore);
    assert r' in multiset(c.reservations);
    var j :| 0 <= j < |c.reservations| && c.reservations[j] == r';
    assert b.reservations[j] in b.reservations && Becomes(b.reservations[j], r');
  }

  /** The list of reservations is append-only: every one lives on through any run, with the same id,
      owner, party and slot, and once it is confirmed, rejected or cancelled it never changes again. */
  lemma {:induction false} RunHistory(b: Books, qs: seq<Request>, r: Reservation)
    requires r in b.reservations
    ensures LivesOn(r, ServeAll(b, qs).reservations)
    ensures r.status != Pending ==> r in ServeAll(b, qs).reservations
    decreases |qs|
  {
    if |qs| == 0 {
      assert Becomes(r, r);
    } else {
      ServeHistory(b, qs[0], r);
      var r' :| r' in Serve(b, qs[0]).reservations && Becomes(r, r');
      RunHistory(Serve(b, qs[0]), qs[1..], r');
      var r'' :| r'' in ServeAll(Serve(b, qs[0]), qs[1..]).reservations && Becomes(r', r'');
      assert Becomes(r, r'');
    }
  }

  /** Seats that a request takes from the slot. */
  function Taken(b: Books, q: Request, slotKey: string): nat {
    if q.Settle? && Transition(b, q.id, q.target, q.note, q.now, q.saved).result.Ok?
    then Held(Transition(b, q.id, q.target, q.note, q.now, q.saved).result.value, slotKey)
    else 0
  }

  lemma SettleTotals(b: Books, id: string, target: Target, note: string, now: int, saved: bool, slotKey: string)
    requires BooksOk(b) && Transition(b, id, target, note, now, saved).result.Ok?
    ensures ConfirmedTotal(Transition(b, id, target, note, now, saved).books.reservations, slotKey) ==
            ConfirmedTotal(b.reservations, slotKey) +
            Held(Transition(b, id, target, note, now, saved).result.value, slotKey)
  {
    var i := AcceptedTransition(b, id, target, note, now, saved);
    var c := Moved(b, i, target, note, now);
    MovedKeepsOk(b, i, target, note, now);
    WriteReservationsKeepsOk(c);
    SettledTotals(b, i, c.reservations[i], slotKey);
  }

  lemma SettleRequestTotals(b: Books, q: Request, slotKey: string)
    requires BooksOk(b) && q.Settle?
    ensures ConfirmedTotal(Serve(b, q).reservations, slotKey) ==
            ConfirmedTotal(b.reservations, slotKey) + Taken(b, q, slotKey)
  {
    var t := Transition(b, q.id, q.target, q.note, q.now, q.saved);
    assert Serve(b, q) == t.books;
    if t.result.Ok? {
      SettleTotals(b, q.id, q.target, q.note, q.now, q.saved, slotKey);
    } else {
      RefusedTransition(b, q.id, q.target, q.note, q.now, q.saved);
    }
  }

  lemma ServeTotals(b: Books, q: Request, slotKey: string)
    requires BooksOk(b)
    ensures ConfirmedTotal(Serve(b, q).reservations, slotKey) ==
            ConfirmedTotal(b.reservations, slotKey) + Taken(b, q, slotKey)
  {
    if q.Reserve? {
      CreateReservationKeepsOk(b, q.reservation, q.now, q.saved);
    } else if q.Settle? {
      SettleRequestTotals(b, q, slotKey);
    } else {
      CatalogRequestsKeepReservations(b, q);
    }
  }

  function AllTaken(b: Books, qs: seq<Request>, slotKey: string): nat
    decreases |qs|
  {
    if |qs| == 0 then 0 else Taken(b, qs[0], slotKey) + AllTaken(Serve(b, qs[0]), qs[1..], slotKey)
  }

  /** The confirmed seats of a slot are what accepted confirmations took, whatever happens to the slot
      itself: nothing ever gives a seat back. */
  lemma {:induction false} RunTotals(b: Books, qs: seq<Request>, slotKey: string)
    requires BooksOk(b)
    ensures ConfirmedTotal(ServeAll(b, qs).reservations, slotKey) ==
            ConfirmedTotal(b.reservations, slotKey) + AllTaken(b, qs, slotKey)
    decreases |qs|
  {
    if |qs| > 0 {
      ServeTotals(b, qs[0], slotKey);
      ServeKeepsOk(b, qs[0]);
      RunTotals(Serve(b, qs[0]), qs[1..], slotKey);
    }
  }

  lemma StoredIdStaysTaken(b: Books, qs: seq<Request>, r: Reservation)
    requires BooksOk(b) && r in b.reservations
    ensures FoldKey(ReservationId(NextNumber(ServeAll(b, qs)))) != ReservationKey(r)
  {
    RunKeepsOk(b, qs);
    RunHistory(b, qs, r);
    var later := ServeAll(b, qs);
    var r' :| r' in later.reservations && Becomes(r, r');
    NextIdIsFree(later);
  }

  /** An id handed out by one reservation is never handed out again, up to case and surrounding space. */
  lemma IdsAreNeverReused(b: Books, first: ReservationInput, t1: int, qs: seq<Request>, second: ReservationInput,
                          t2: int, c: Books, r: Reservation, r': Reservation)
    requires BooksOk(b)
    requires CreateReservation(b, first, t1, true) == Reply(c, Ok(r))
    requires CreateReservation(ServeAll(c, qs), second, t2, true).result == Ok(r')
    ensures ReservationKey(r) != ReservationKey(r')
  {
    CreatedIsStored(b, first, t1, c, r);
    StoredIdStaysTaken(c, qs, r);
    var x := AcceptedReservation(ServeAll(c, qs), second, t2, true);
  }

  lemma CreatedIsStored(b: Books, input: ReservationInput, now: int, c: Books, r: Reservation)
    requires BooksOk(b) && CreateReservation(b, input, now, true) == Reply(c, Ok(r))
    ensures BooksOk(c) && r in c.reservations
  {
    var x := AcceptedReservation(b, input, now, true);
    GrownIsStored(b, x);
  }

  lemma GrownIsStored(b: Books, r: Reservation)
    requires BooksOk(b) && Backed(b, r) && r.id == ReservationId(NextNumber(b))
    ensures BooksOk(WriteReservations(Grown(b, r))) && r in WriteReservations(Grown(b, r)).reservations
  {
    GrownKeepsOk(b, r);
    WriteReservationsKeepsOk(Grown(b, r));
    SortedMembers(Grown(b, r).reservations, ReservationBefore, ReservationKey);
    assert Grown(b, r).reservations[|b.reservations|] == r;
  }
}
