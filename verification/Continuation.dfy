/** Continuing a booking draft: candidates from the catalog, the merge, and what any number of
    continuations does to one draft (internal/service/booking_service_runtime.go). */
module Continuation {
  import opened Booking
  import opened Draft
  import opened Text

  /** The catalog a message is read against.  `timeOf` is None for a text that is no instant. */
  datatype Context = Context(products: seq<Product>, slots: seq<Slot>, timeOf: string -> Option<int>)

  predicate Contains(text: string, part: string) {
    |part| <= |text| && (text[..|part|] == part || (text != "" && Contains(text[1..], part)))
  }

  /* ----- Candidates ----- */

  predicate ProductMatches(e: Intent, p: Product) {
    var id := Trim(p.id);
    var name := Lower(Trim(e.productName));
    && id != ""
    && (|| (Trim(e.productId) != "" && ProductKey(p) == FoldKey(e.productId))
        || (name != "" && (|| Contains(Lower(Trim(p.name)), name)
                           || Contains(name, Lower(Trim(p.name)))
                           || Contains(Lower(id), name))))
  }

  function ProductCandidates(e: Intent, ps: seq<Product>): seq<Product> {
    if |ps| == 0 then [] else
    var found := ProductCandidates(e, ps[..|ps| - 1]);
    var p := ps[|ps| - 1];
    if ProductMatches(e, p) && (forall q | q in found :: ProductKey(q) != ProductKey(p)) then found + [p] else found
  }

  predicate SlotMatches(e: Intent, timeOf: string -> Option<int>, s: Slot) {
    && Trim(s.id) != ""
    && (|| (Trim(e.slotId) != "" && SlotKey(s) == FoldKey(e.slotId))
        || timeOf(Trim(e.slotStartAt)) == Some(s.startAt))
    && (Trim(e.productId) == "" || FoldKey(s.productId) == FoldKey(e.productId))
  }

  function SlotCandidates(e: Intent, timeOf: string -> Option<int>, ss: seq<Slot>): seq<Slot> {
    if |ss| == 0 then [] else
    var found := SlotCandidates(e, timeOf, ss[..|ss| - 1]);
    var s := ss[|ss| - 1];
    if SlotMatches(e, timeOf, s) && (forall q | q in found :: SlotKey(q) != SlotKey(s)) then found + [s] else found
  }

  /** The product is filled in when none is named and exactly one fits; then the slot, among the product's. */
  function EnrichProduct(e: Intent, ctx: Context): Intent {
    var ps := ProductCandidates(e, ctx.products);
    if Trim(e.productId) == "" && |ps| == 1 then e.(productId := Trim(ps[0].id)) else e
  }

  function EnrichSlot(e: Intent, ctx: Context): Intent {
    var ss := SlotCandidates(e, ctx.timeOf, ctx.slots);
    if Trim(e.slotId) == "" && |ss| == 1 then e.(slotId := Trim(ss[0].id)) else e
  }

  function Enrich(e: Intent, ctx: Context): Intent {
    EnrichSlot(EnrichProduct(e, ctx), ctx)
  }

  method FindProductCandidates(e: Intent, ps: seq<Product>) returns (found: seq<Product>)
    ensures found == ProductCandidates(e, ps)
  {
    found := [];
    var seen: set<string> := {};
    for i := 0 to |ps|
      invariant found == ProductCandidates(e, ps[..i])
      invariant forall key :: key in seen <==> exists q :: q in found && ProductKey(q) == key
    {
      assert ps[..i + 1][..i] == ps[..i];
      if !ProductMatches(e, ps[i]) {
        continue;
      }
      var key := ProductKey(ps[i]);
      if key in seen {
        continue;
      }
      seen := seen + {key};
      assert ps[i] in found + [ps[i]];
      found := found + [ps[i]];
    }
    assert ps[..|ps|] == ps;
  }

  method FindSlotCandidates(e: Intent, timeOf: string -> Option<int>, ss: seq<Slot>) returns (found: seq<Slot>)
    ensures found == SlotCandidates(e, timeOf, ss)
  {
    found := [];
    var seen: set<string> := {};
    for i := 0 to |ss|
      invariant found == SlotCandidates(e, timeOf, ss[..i])
      invariant forall key :: key in seen <==> exists q :: q in found && SlotKey(q) == key
    {
      assert ss[..i + 1][..i] == ss[..i];
      if !SlotMatches(e, timeOf, ss[i]) {
        continue;
      }
      var key := SlotKey(ss[i]);
      if key in seen {
        continue;
      }
      seen := seen + {key};
      assert ss[i] in found + [ss[i]];
      found := found + [ss[i]];
    }
    assert ss[..|ss|] == ss;
  }

  method EnrichCandidates(e: Intent, ctx: Context) returns (enriched: Intent, ps: seq<Product>, ss: seq<Slot>)
    ensures enriched == Enrich(e, ctx)
    ensures ps == ProductCandidates(e, ctx.products)
    ensures ss == SlotCandidates(EnrichProduct(e, ctx), ctx.timeOf, ctx.slots)
  {
    enriched := e;
    ps := FindProductCandidates(e, ctx.products);
    if Trim(e.productId) == "" && |ps| == 1 {
      enriched := enriched.(productId := Trim(ps[0].id));
    }
    ss := FindSlotCandidates(enriched, ctx.timeOf, ctx.slots);
    if Trim(enriched.slotId) == "" && |ss| == 1 {
      enriched := enriched.(slotId := Trim(ss[0].id));
    }
  }

  lemma {:induction false} ProductCandidatesAre(e: Intent, ps: seq<Product>, p: Product)
    requires p in ProductCandidates(e, ps)
    ensures p in ps && ProductMatches(e, p)
    decreases |ps|
  {
    if p in ProductCandidates(e, ps[..|ps| - 1]) {
      ProductCandidatesAre(e, ps[..|ps| - 1], p);
    }
  }

  lemma {:induction false} SlotCandidatesAre(e: Intent, timeOf: string -> Option<int>, ss: seq<Slot>, s: Slot)
    requires s in SlotCandidates(e, timeOf, ss)
    ensures s in ss && SlotMatches(e, timeOf, s)
    decreases |ss|
  {
    if s in SlotCandidates(e, timeOf, ss[..|ss| - 1]) {
      SlotCandidatesAre(e, timeOf, ss[..|ss| - 1], s);
    }
  }

  /** Every match is offered: some candidate has its identifier. */
  lemma {:induction false} ProductCandidatesAreAll(e: Intent, ps: seq<Product>, p: Product)
    requires p in ps && ProductMatches(e, p)
    ensures exists q :: q in ProductCandidates(e, ps) && ProductKey(q) == ProductKey(p)
    decreases |ps|
  {
    var init := ps[..|ps| - 1];
    var last := ps[|ps| - 1];
    if p in init {
      ProductCandidatesAreAll(e, init, p);
      var q :| q in ProductCandidates(e, init) && ProductKey(q) == ProductKey(p);
      assert q in ProductCandidates(e, ps);
    } else {
      assert ps == init + [last];
      assert p == last;
      if forall q | q in ProductCandidates(e, init) :: ProductKey(q) != ProductKey(p) {
        assert p in ProductCandidates(e, ps);
      }
    }
  }

  /** A product filled in from the catalog is in it, and is the only one that fits the message. */
  lemma FilledProductIsTheOnlyMatch(e: Intent, ctx: Context) returns (p: Product)
    requires !Filled(e, ProductField) && Filled(EnrichProduct(e, ctx), ProductField)
    ensures p in ctx.products && ProductMatches(e, p) && EnrichProduct(e, ctx).productId == Trim(p.id)
    ensures forall q | q in ctx.products && ProductMatches(e, q) :: ProductKey(q) == ProductKey(p)
  {
    var found := ProductCandidates(e, ctx.products);
    p := found[0];
    ProductCandidatesAre(e, ctx.products, p);
    OnlyCandidate(e, ctx.products, p);
  }

  lemma OnlyCandidate(e: Intent, ps: seq<Product>, p: Product)
    requires ProductCandidates(e, ps) == [p]
    ensures forall q | q in ps && ProductMatches(e, q) :: ProductKey(q) == ProductKey(p)
  {
    forall q | q in ps && ProductMatches(e, q)
      ensures ProductKey(q) == ProductKey(p)
    {
      ProductCandidatesAreAll(e, ps, q);
    }
  }

  /** A slot filled in from the catalog is in it, and belongs to the product if one is known. */
  lemma FilledSlotBelongs(e: Intent, ctx: Context) returns (s: Slot)
    requires !Filled(e, SlotField) && Filled(EnrichSlot(e, ctx), SlotField)
    ensures s in ctx.slots && EnrichSlot(e, ctx).slotId == Trim(s.id)
    ensures ctx.timeOf(Trim(e.slotStartAt)) == Some(s.startAt)
    ensures Filled(e, ProductField) ==> FoldKey(s.productId) == FoldKey(e.productId)
  {
    s := SlotCandidates(e, ctx.timeOf, ctx.slots)[0];
    SlotCandidatesAre(e, ctx.timeOf, ctx.slots, s);
  }

  lemma EnrichKeepsFilled(e: Intent, ctx: Context, f: Field)
    ensures Filled(e, f) ==> SameField(e, Enrich(e, ctx), f) && Filled(Enrich(e, ctx), f)
    ensures Enrich(e, ctx).confidence == e.confidence
  {
  }

  /* ----- One continuation ----- */

  datatype Message = Message(reading: Intent, ctx: Context)

  /** What the message says once it is tidied and completed from the catalog. */
  function Reading(m: Message): Intent {
    Enrich(Normalize(m.reading), m.ctx)
  }

  function Continue(e: Intent, m: Message): Intent {
    Normalize(Enrich(Merge(e, Reading(m)), m.ctx))
  }

  lemma ContinueFields(e: Intent, m: Message, f: Field)
    ensures Filled(e, f) ==> Filled(Continue(e, m), f)
    ensures Filled(Reading(m), f) ==> Filled(Continue(e, m), f)
    ensures Filled(e, f) && !SameField(e, Continue(e, m), f) ==> MayOverride(e, Reading(m))
  {
    var merged := Merge(e, Reading(m));
    MergeFields(e, Reading(m), f);
    EnrichKeepsFilled(merged, m.ctx, f);
    NormalizeKeepsFields(Enrich(merged, m.ctx), f);
    SameFieldFilled(Enrich(merged, m.ctx), Continue(e, m), f);
  }

  lemma ContinueRaisesConfidence(e: Intent, m: Message)
    ensures Clamp(e.confidence) <= Continue(e, m).confidence <= 1.0
    ensures MayOverride(e, Reading(m)) ==>
              && Continue(e, m).confidence >= OVERRIDE_CONFIDENCE_MIN
              && Continue(e, m).confidence >= Clamp(e.confidence) + OVERRIDE_CONFIDENCE_DELTA
  {
    MergeRaisesConfidence(e, Reading(m));
    EnrichKeepsFilled(Merge(e, Reading(m)), m.ctx, SizeField);
  }

  /* ----- Any number of continuations ----- */

  function ContinueAll(e: Intent, ms: seq<Message>): Intent
    decreases |ms|
  {
    if |ms| == 0 then e else ContinueAll(Continue(e, ms[0]), ms[1..])
  }

  lemma {:induction false} ConfidenceNeverDrops(e: Intent, ms: seq<Message>)
    ensures Clamp(e.confidence) <= Clamp(ContinueAll(e, ms).confidence)
    decreases |ms|
  {
    if |ms| > 0 {
      ContinueRaisesConfidence(e, ms[0]);
      ConfidenceNeverDrops(Continue(e, ms[0]), ms[1..]);
    }
  }

  lemma {:induction false} FilledStaysFilled(e: Intent, ms: seq<Message>, f: Field)
    requires Filled(e, f)
    ensures Filled(ContinueAll(e, ms), f)
    decreases |ms|
  {
    if |ms| > 0 {
      ContinueFields(e, ms[0], f);
      FilledStaysFilled(Continue(e, ms[0]), ms[1..], f);
    }
  }

  /** The list of missing fields never grows. */
  lemma MissingNeverGrows(e: Intent, ms: seq<Message>, f: Field)
    requires f in MissingFields(ContinueAll(e, ms))
    ensures f in MissingFields(e)
  {
    MissingFieldsAre(e, f);
    MissingFieldsAre(ContinueAll(e, ms), f);
    if Filled(e, f) {
      FilledStaysFilled(e, ms, f);
    }
  }

  /** How many of the continuations were allowed to override. */
  function Overrides(e: Intent, ms: seq<Message>): nat
    decreases |ms|
  {
    if |ms| == 0 then 0
    else (if MayOverride(e, Reading(ms[0])) then 1 else 0) + Overrides(Continue(e, ms[0]), ms[1..])
  }

  /** How many of the continuations changed the field although it was filled in. */
  function Changes(e: Intent, ms: seq<Message>, f: Field): nat
    decreases |ms|
  {
    if |ms| == 0 then 0
    else (if Filled(e, f) && !SameField(e, Continue(e, ms[0]), f) then 1 else 0) +
         Changes(Continue(e, ms[0]), ms[1..], f)
  }

  /** The overrides that a confidence still leaves room for: the minimum and two deltas together exceed 1. */
  function Budget(confidence: real): (n: nat)
    ensures n <= 2
  {
    if confidence < OVERRIDE_CONFIDENCE_MIN then 2
    else if confidence < OVERRIDE_CONFIDENCE_MIN + OVERRIDE_CONFIDENCE_DELTA then 1
    else 0
  }

  lemma OverrideSpendsBudget(e: Intent, m: Message)
    ensures (if MayOverride(e, Reading(m)) then 1 else 0) +
            Budget(Clamp(Continue(e, m).confidence)) <= Budget(Clamp(e.confidence))
  {
    ContinueRaisesConfidence(e, m);
  }

  lemma {:induction false} OverridesAreBounded(e: Intent, ms: seq<Message>)
    ensures Overrides(e, ms) <= Budget(Clamp(e.confidence))
    decreases |ms|
  {
    if |ms| > 0 {
      OverrideSpendsBudget(e, ms[0]);
      OverridesAreBounded(Continue(e, ms[0]), ms[1..]);
    }
  }

  lemma {:induction false} ChangesAreOverrides(e: Intent, ms: seq<Message>, f: Field)
    ensures Changes(e, ms, f) <= Overrides(e, ms)
    decreases |ms|
  {
    if |ms| > 0 {
      ContinueFields(e, ms[0], f);
      ChangesAreOverrides(Continue(e, ms[0]), ms[1..], f);
    }
  }

  /** However long the conversation, a field that is filled in changes at most twice. */
  lemma DraftsConverge(e: Intent, ms: seq<Message>, f: Field)
    ensures Changes(e, ms, f) <= 2
  {
    ChangesAreOverrides(e, ms, f);
    OverridesAreBounded(e, ms);
  }

  /** The bound is met: readings of the least confidence that may override and of confidence 1 replace a party size
      twice. */
  lemma TwoChangesHappen(e: Intent, m1: Message, m2: Message)
    requires e.confidence == 0.0 && m1.reading.confidence == OVERRIDE_CONFIDENCE_MIN && m2.reading.confidence == 1.0
    requires e.partySize == 1 && m1.reading.partySize == 2 && m2.reading.partySize == 3
    ensures Continue(e, m1).partySize == 2 && Continue(Continue(e, m1), m2).partySize == 3
  {
    SizeAfter(e, m1);
    SizeAfter(Continue(e, m1), m2);
  }

  lemma SizeAfter(e: Intent, m: Message)
    requires m.reading.partySize > 0 && MayOverride(e, m.reading)
    ensures Continue(e, m).partySize == m.reading.partySize
    ensures Continue(e, m).confidence == Clamp(m.reading.confidence)
  {
    EnrichKeepsFilled(Normalize(m.reading), m.ctx, SizeField);
    MergeUnfolds(e, Reading(m));
    MergeRaisesConfidence(e, Reading(m));
    EnrichKeepsFilled(Merge(e, Reading(m)), m.ctx, SizeField);
  }

  /* ----- Rounding ----- */

  const STEPS := 9007199254740992

  /** The floating-point numbers from 1/2 to 1 are multiples of this step. */
  function Grid(k: int): real {
    k as real / STEPS as real
  }

  ghost predicate OnGrid(x: real) {
    exists k :: 0 <= k <= STEPS && x == Grid(k)
  }

  /** What is asked of the rounding of a difference: it keeps the order, and it keeps 0, the delta and every multiple
      of the step, which are floating-point numbers themselves. */
  ghost predicate Rounds(round: real -> real) {
    && (forall x, y | x <= y :: round(x) <= round(y))
    && round(0.0) == 0.0
    && round(OVERRIDE_CONFIDENCE_DELTA) == OVERRIDE_CONFIDENCE_DELTA
    && (forall k | 0 <= k <= STEPS :: round(Grid(k)) == Grid(k))
  }

  lemma DifferenceIsExact(round: real -> real, next: real, base: real)
    requires Rounds(round) && OnGrid(next) && OnGrid(base) && base <= next
    ensures round(next - base) == next - base
  {
    var n :| 0 <= n <= STEPS && next == Grid(n);
    var b :| 0 <= b <= STEPS && base == Grid(b);
    assert next - base == Grid(n - b);
  }

  /** Rounding the difference of two confidences never decides whether a reading may override. */
  lemma RoundingDecidesNothing(round: real -> real, e: Intent, incoming: Intent)
    requires Rounds(round) && (Clamp(incoming.confidence) < 0.5 || OnGrid(Clamp(incoming.confidence)))
    requires Clamp(e.confidence) < 0.5 || OnGrid(Clamp(e.confidence))
    ensures MayOverride(e, incoming) <==>
              && Clamp(incoming.confidence) >= OVERRIDE_CONFIDENCE_MIN
              && round(Clamp(incoming.confidence) - Clamp(e.confidence)) >= OVERRIDE_CONFIDENCE_DELTA
  {
    var next, base := Clamp(incoming.confidence), Clamp(e.confidence);
    if next >= OVERRIDE_CONFIDENCE_MIN {
      if base < 0.5 {
        assert round(OVERRIDE_CONFIDENCE_DELTA) <= round(next - base);
      } else if base <= next {
        DifferenceIsExact(round, next, base);
      } else {
        assert round(next - base) <= round(0.0);
      }
    }
  }
}
