/** The slot list shown to callers, and what it promises them
    (internal/service/booking_service.go, `buildBookingSlotViews`). */
module BookingViews {
  import opened Booking
  import opened BookingServices
  import opened BookingTheorems
  import opened Sorting
  import opened Text

  datatype SlotView = SlotView(slot: Slot, productName: string, reserved: int, available: int)

  datatype SlotFilter = SlotFilter(productId: string, from: Option<int>, to: Option<int>, includeFull: bool,
                                   includeDisabled: bool)

  /** Go's zero `time.Time`, which a stored start that does not parse stands for. */
  const ZERO_TIME := 0

  /** Product names and switches by product; a later product replaces an earlier one. */
  function ProductIndex(ps: seq<Product>): map<string, Product> {
    if |ps| == 0 then map[] else ProductIndex(ps[..|ps| - 1])[ProductKey(ps[|ps| - 1]) := ps[|ps| - 1]]
  }

  predicate Shown(b: Books, f: SlotFilter, s: Slot) {
    var index := ProductIndex(b.products);
    var key := FoldKey(s.productId);
    && Trim(s.id) != ""
    && (Trim(f.productId) == "" || FoldKey(f.productId) == key)
    && (f.includeDisabled || (s.enabled && key in index && index[key].enabled))
    && !(f.from.Some? && s.startAt != ZERO_TIME && s.startAt < f.from.value)
    && !(f.to.Some? && s.startAt != ZERO_TIME && s.startAt > f.to.value)
    && (f.includeFull || ViewOf(b, s).available > 0)
  }

  function ViewOf(b: Books, s: Slot): SlotView {
    var index := ProductIndex(b.products);
    var key := FoldKey(s.productId);
    var free := Available(s.id, s.capacity, b.reservations, "");
    var reserved := if s.capacity < free then 0 else s.capacity - free;
    SlotView(s, if key in index then Trim(index[key].name) else "", reserved,
             if s.capacity < reserved then 0 else s.capacity - reserved)
  }

  function ShownViews(b: Books, f: SlotFilter, slots: seq<Slot>): seq<SlotView> {
    if |slots| == 0 then [] else
    var s := slots[|slots| - 1];
    ShownViews(b, f, slots[..|slots| - 1]) + (if Shown(b, f, s) then [ViewOf(b, s)] else [])
  }

  predicate ViewBefore(a: SlotView, b: SlotView) {
    SlotBefore(a.slot, b.slot)
  }

  function SlotViews(b: Books, f: SlotFilter): seq<SlotView> {
    Sorted(ShownViews(b, f, b.slots), ViewBefore)
  }

  method IndexProducts(ps: seq<Product>) returns (index: map<string, Product>)
    ensures index == ProductIndex(ps)
  {
    index := map[];
    for i := 0 to |ps|
      invariant index == ProductIndex(ps[..i])
    {
      assert ps[..i + 1][..i] == ps[..i];
      index := index[ProductKey(ps[i]) := ps[i]];
    }
    assert ps[..|ps|] == ps;
  }

  /** One turn of the loop: the filters, then the seats. */
  method ViewSlot(b: Books, f: SlotFilter, index: map<string, Product>, s: Slot) returns (v: Option<SlotView>)
    requires index == ProductIndex(b.products)
    ensures v == if Shown(b, f, s) then Some(ViewOf(b, s)) else None
  {
    var key := FoldKey(s.productId);
    if Trim(s.id) == "" {
      return None;
    }
    if Trim(f.productId) != "" && FoldKey(f.productId) != key {
      return None;
    }
    if !f.includeDisabled {
      if !s.enabled {
        return None;
      }
      if key !in index || !index[key].enabled {
        return None;
      }
    }
    if f.from.Some? && s.startAt != ZERO_TIME && s.startAt < f.from.value {
      return None;
    }
    if f.to.Some? && s.startAt != ZERO_TIME && s.startAt > f.to.value {
      return None;
    }
    var view := SeatsOf(b, index, s);
    if !f.includeFull && view.available <= 0 {
      return None;
    }
    return Some(view);
  }

  method SeatsOf(b: Books, index: map<string, Product>, s: Slot) returns (view: SlotView)
    requires index == ProductIndex(b.products)
    ensures view == ViewOf(b, s)
  {
    var key := FoldKey(s.productId);
    var free := AvailableCapacity(s.id, s.capacity, b.reservations, "");
    var reserved := s.capacity - free;
    if reserved < 0 {
      reserved := 0;
    }
    var available := s.capacity - reserved;
    if available < 0 {
      available := 0;
    }
    view := SlotView(s, if key in index then Trim(index[key].name) else "", reserved, available);
  }

  method BuildSlotViews(b: Books, f: SlotFilter) returns (views: seq<SlotView>)
    ensures views == SlotViews(b, f)
  {
    var index := IndexProducts(b.products);
    views := [];
    for i := 0 to |b.slots|
      invariant views == ShownViews(b, f, b.slots[..i])
    {
      assert b.slots[..i + 1][..i] == b.slots[..i];
      var v := ViewSlot(b, f, index, b.slots[i]);
      if v.Some? {
        views := views + [v.value];
      }
    }
    assert b.slots[..|b.slots|] == b.slots;
    views := Sorted(views, ViewBefore);
  }

  /* ----- What a view says ----- */

  lemma NothingExcluded(rs: seq<Reservation>, slotKey: string)
    ensures Sum(rs, HeldExcept(slotKey, "")) == ConfirmedTotal(rs, slotKey)
  {
    SumSame(rs, HeldExcept(slotKey, ""), HeldBy(slotKey));
  }

  lemma AvailableIsWhatConfirmedLeave(s: Slot, rs: seq<Reservation>)
    ensures Available(s.id, s.capacity, rs, "") == Remaining(s.capacity, ConfirmedTotal(rs, SlotKey(s)))
  {
    TrimFixed("");
    assert FoldKey("") == "";
    NothingExcluded(rs, SlotKey(s));
  }

  /** Reserved and available seats always add up to the capacity, and the reserved ones are the confirmed
      ones, cut at the capacity when the slot is overbooked. */
  lemma ViewAddsUp(b: Books, s: Slot)
    requires s.capacity > 0
    ensures ViewOf(b, s).reserved + ViewOf(b, s).available == s.capacity
    ensures var confirmed := ConfirmedTotal(b.reservations, SlotKey(s));
            ViewOf(b, s).reserved == if confirmed < s.capacity then confirmed else s.capacity
  {
    AvailableIsWhatConfirmedLeave(s, b.reservations);
  }

  lemma {:induction false} ShownViewsAre(b: Books, f: SlotFilter, slots: seq<Slot>, v: SlotView)
    ensures v in ShownViews(b, f, slots) <==> v.slot in slots && Shown(b, f, v.slot) && v == ViewOf(b, v.slot)
    decreases |slots|
  {
    if |slots| > 0 {
      var init := slots[..|slots| - 1];
      ShownViewsAre(b, f, init, v);
      assert slots == init + [slots[|slots| - 1]];
    }
  }

  /** The list holds exactly the views of the slots that pass the filter. */
  lemma SlotViewsAre(b: Books, f: SlotFilter, v: SlotView)
    ensures v in SlotViews(b, f) <==> v.slot in b.slots && Shown(b, f, v.slot) && v == ViewOf(b, v.slot)
  {
    var shown := ShownViews(b, f, b.slots);
    ShownViewsAre(b, f, b.slots, v);
    SortedIsPermutation(shown, ViewBefore);
    assert v in multiset(SlotViews(b, f)) <==> v in multiset(shown);
  }

  lemma {:induction false} ProductIndexHas(ps: seq<Product>, key: string)
    ensures key in ProductIndex(ps) <==> HasKey(ps, ProductKey, key)
    ensures key in ProductIndex(ps) ==> ProductIndex(ps)[key] in ps && ProductKey(ProductIndex(ps)[key]) == key
    decreases |ps|
  {
    if |ps| > 0 {
      var init, last := ps[..|ps| - 1], ps[|ps| - 1];
      ProductIndexHas(init, key);
      assert ps == init + [last];
      assert last in ps && forall p | p in init :: p in ps;
      if HasKey(ps, ProductKey, key) && ProductKey(last) != key {
        var p :| p in ps && ProductKey(p) == key;
        assert p in init;
      }
    }
  }

  lemma ProductIndexFinds(ps: seq<Product>, key: string)
    requires Distinct(ps, ProductKey)
    ensures var i := KeyIndex(ps, ProductKey, key);
            (key in ProductIndex(ps) <==> i >= 0) && (i >= 0 ==> ProductIndex(ps)[key] == ps[i])
  {
    ProductIndexHas(ps, key);
    KeyIndexHas(ps, ProductKey, key);
    KeyIndexFinds(ps, ProductKey, key);
    var i := KeyIndex(ps, ProductKey, key);
    if i >= 0 {
      DistinctMembers(ps, ProductKey, ProductIndex(ps)[key], ps[i]);
    }
  }

  lemma RoomInSlot(b: Books, input: ReservationInput, p: nat, s: nat)
    requires p == KeyIndex(b.products, ProductKey, FoldKey(Trim(input.productId))) && b.products[p].enabled
    requires s == KeyIndex(b.slots, SlotKey, FoldKey(Trim(input.slotId))) && b.slots[s].enabled
    requires FoldKey(b.slots[s].productId) == FoldKey(Trim(input.productId))
    ensures var available := Available(b.slots[s].id, b.slots[s].capacity, b.reservations, "");
            CheckRoom(b, input) ==
            if available < input.partySize then Err(CapacityConflict(available, input.partySize)) else Ok(b.slots[s])
  {
  }

  lemma ListedSlotIsFound(b: Books, f: SlotFilter, v: SlotView) returns (p: nat, s: nat)
    requires BooksOk(b) && v in SlotViews(b, f) && !f.includeDisabled
    ensures p < |b.products| && p == KeyIndex(b.products, ProductKey, FoldKey(v.slot.productId)) &&
            b.products[p].enabled
    ensures s < |b.slots| && s == KeyIndex(b.slots, SlotKey, SlotKey(v.slot)) && b.slots[s] == v.slot && v.slot.enabled
    ensures v.available == Available(v.slot.id, v.slot.capacity, b.reservations, "")
  {
    SlotViewsAre(b, f, v);
    ProductIndexFinds(b.products, FoldKey(v.slot.productId));
    p := KeyIndex(b.products, ProductKey, FoldKey(v.slot.productId));
    KeyIndexFinds(b.slots, SlotKey, SlotKey(v.slot));
    assert HasKey(b.slots, SlotKey, SlotKey(v.slot));
    s := KeyIndex(b.slots, SlotKey, SlotKey(v.slot));
    DistinctMembers(b.slots, SlotKey, b.slots[s], v.slot);
    AvailableIsWhatConfirmedLeave(v.slot, b.reservations);
  }

  /** A caller with contact data who asks for a listed slot of an enabled product gets a reservation
      exactly when the listed number of free seats covers the party; otherwise the answer is the conflict. */
  lemma ListedSlotsCanBeReserved(b: Books, f: SlotFilter, v: SlotView, input: ReservationInput, now: int)
    requires BooksOk(b) && v in SlotViews(b, f) && !f.includeDisabled
    requires CheckInput(input).Ok?
    requires FoldKey(input.slotId) == SlotKey(v.slot) && FoldKey(input.productId) == FoldKey(v.slot.productId)
    ensures var result := CreateReservation(b, input, now, true).result;
            if input.partySize <= v.available then result.Ok?
            else result == Err(CapacityConflict(v.available, input.partySize))
  {
    var p, s := ListedSlotIsFound(b, f, v);
    TrimIdempotent(input.productId);
    TrimIdempotent(input.slotId);
    RoomInSlot(b, input, p, s);
  }
}
