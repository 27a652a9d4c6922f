/** Booking drafts that a conversation fills in step by step
    (internal/service/booking_service_runtime.go).  Confidence is a real number. */
module Draft {
  import opened Booking
  import opened Text

  datatype Intent = Intent(productId: string, productName: string, slotId: string, slotStartAt: string, partySize: int,
                           contactName: string, contactPhone: string, members: seq<string>, specialRequirements: string,
                           confidence: real)

  // The 64-bit floating-point numbers nearest to 0.80 and 0.10: both are a little larger.
  const OVERRIDE_CONFIDENCE_MIN: real := 7205759403792794.0 / 9007199254740992.0
  const OVERRIDE_CONFIDENCE_DELTA: real := 7205759403792794.0 / 72057594037927936.0

  function Clamp(c: real): real {
    if c < 0.0 then 0.0 else if c > 1.0 then 1.0 else c
  }

  function Normalize(e: Intent): Intent {
    Intent(Trim(e.productId), Trim(e.productName), Trim(e.slotId), Trim(e.slotStartAt), e.partySize,
           Trim(e.contactName), Trim(e.contactPhone), NonBlank(e.members), Trim(e.specialRequirements),
           Clamp(e.confidence))
  }

  /* ----- The merge of a continuation ----- */

  /** The new reading is sure enough, and enough surer than the draft, to replace what the draft says. */
  predicate MayOverride(base: Intent, incoming: Intent) {
    && Clamp(incoming.confidence) >= OVERRIDE_CONFIDENCE_MIN
    && Clamp(incoming.confidence) - Clamp(base.confidence) >= OVERRIDE_CONFIDENCE_DELTA
  }

  predicate SameTexts(left: seq<string>, right: seq<string>) {
    |left| == |right| && forall i | 0 <= i < |left| :: Trim(left[i]) == Trim(right[i])
  }

  function MergeText(current: string, candidate: string, override: bool): string {
    if Trim(candidate) == "" then current
    else if Trim(current) == "" || (override && Trim(current) != Trim(candidate)) then Trim(candidate)
    else current
  }

  function MergeSize(current: int, candidate: int, override: bool): int {
    if candidate <= 0 then current else if current <= 0 || override then candidate else current
  }

  function MergeMembers(current: seq<string>, candidate: seq<string>, override: bool): seq<string> {
    if |candidate| == 0 then current
    else if |current| == 0 || (override && !SameTexts(current, candidate)) then candidate
    else current
  }

  function MergeConfidence(current: real, candidate: real, override: bool): real {
    if current <= 0.0 && candidate > 0.0 then candidate
    else if override && candidate > current then candidate
    else current
  }

  /** The merge of two intents that are already normal, field by field. */
  function MergeNormal(m: Intent, next: Intent): Intent {
    var o := MayOverride(m, next);
    Intent(
      MergeText(m.productId, next.productId, o),
      if Trim(m.productName) == "" && Trim(next.productName) != "" then next.productName else m.productName,
      MergeText(m.slotId, next.slotId, o),
      if Trim(m.slotStartAt) == "" && Trim(next.slotStartAt) != "" then next.slotStartAt else m.slotStartAt,
      MergeSize(m.partySize, next.partySize, o),
      MergeText(m.contactName, next.contactName, o),
      MergeText(m.contactPhone, next.contactPhone, o),
      MergeMembers(m.members, next.members, o),
      MergeText(m.specialRequirements, next.specialRequirements, o),
      MergeConfidence(m.confidence, next.confidence, o))
  }

  function Merge(base: Intent, incoming: Intent): Intent {
    Normalize(MergeNormal(Normalize(base), Normalize(incoming)))
  }

  predicate TextOverridden(current: string, candidate: string, override: bool) {
    override && Trim(candidate) != "" && Trim(current) != "" && Trim(current) != Trim(candidate)
  }

  predicate SizeOverridden(current: int, candidate: int, override: bool) {
    override && candidate > 0 && current > 0 && current != candidate
  }

  predicate MembersOverridden(current: seq<string>, candidate: seq<string>, override: bool) {
    override && |candidate| > 0 && |current| > 0 && !SameTexts(current, candidate)
  }

  /** What the merge reports: it replaced something that was already filled in. */
  predicate OverrideApplied(base: Intent, incoming: Intent) {
    var m := Normalize(base);
    var next := Normalize(incoming);
    var o := MayOverride(m, next);
    || TextOverridden(m.productId, next.productId, o)
    || TextOverridden(m.slotId, next.slotId, o)
    || SizeOverridden(m.partySize, next.partySize, o)
    || TextOverridden(m.contactName, next.contactName, o)
    || TextOverridden(m.contactPhone, next.contactPhone, o)
    || MembersOverridden(m.members, next.members, o)
    || TextOverridden(m.specialRequirements, next.specialRequirements, o)
  }

  /* ----- The merge as the program runs it: field by field, with one flag ----- */

  method MergeString(current: string, candidate: string, allowOverride: bool, applied: bool)
    returns (value: string, nowApplied: bool)
    ensures value == MergeText(current, candidate, allowOverride)
    ensures nowApplied == (applied || TextOverridden(current, candidate, allowOverride))
  {
    value, nowApplied := current, applied;
    var trimmed := Trim(candidate);
    if trimmed == "" {
      return;
    }
    if Trim(current) == "" {
      value := trimmed;
      return;
    }
    if allowOverride && Trim(current) != trimmed {
      value, nowApplied := trimmed, true;
    }
  }

  method MergeInt(current: int, candidate: int, allowOverride: bool, applied: bool)
    returns (value: int, nowApplied: bool)
    ensures value == MergeSize(current, candidate, allowOverride)
    ensures nowApplied == (applied || SizeOverridden(current, candidate, allowOverride))
  {
    value, nowApplied := current, applied;
    if candidate <= 0 {
      return;
    }
    if current <= 0 {
      value := candidate;
      return;
    }
    if allowOverride && current != candidate {
      value, nowApplied := candidate, true;
    }
  }

  method EqualTexts(left: seq<string>, right: seq<string>) returns (same: bool)
    ensures same == SameTexts(left, right)
  {
    if |left| != |right| {
      return false;
    }
    for i := 0 to |left|
      invariant forall j | 0 <= j < i :: Trim(left[j]) == Trim(right[j])
    {
      if Trim(left[i]) != Trim(right[i]) {
        return false;
      }
    }
    return true;
  }

  method MergeNames(current: seq<string>, candidate: seq<string>, allowOverride: bool, applied: bool)
    returns (value: seq<string>, nowApplied: bool)
    ensures value == MergeMembers(current, candidate, allowOverride)
    ensures nowApplied == (applied || MembersOverridden(current, candidate, allowOverride))
  {
    value, nowApplied := current, applied;
    if |candidate| == 0 {
      return;
    }
    if |current| == 0 {
      value := candidate;
      return;
    }
    var same := EqualTexts(current, candidate);
    if allowOverride && !same {
      value, nowApplied := candidate, true;
    }
  }

  method MergeForContinuation(base: Intent, incoming: Intent) returns (merged: Intent, overrideApplied: bool)
    ensures merged == Merge(base, incoming)
    ensures overrideApplied == OverrideApplied(base, incoming)
  {
    var m, next := Normalize(base), Normalize(incoming);
    var allowOverride := next.confidence >= OVERRIDE_CONFIDENCE_MIN
                         && next.confidence - m.confidence >= OVERRIDE_CONFIDENCE_DELTA;
    assert allowOverride == MayOverride(m, next);
    var productId, slotId, partySize, contactName, contactPhone, members, special;
    overrideApplied := false;
    productId, overrideApplied := MergeString(m.productId, next.productId, allowOverride, overrideApplied);
    slotId, overrideApplied := MergeString(m.slotId, next.slotId, allowOverride, overrideApplied);
    partySize, overrideApplied := MergeInt(m.partySize, next.partySize, allowOverride, overrideApplied);
    contactName, overrideApplied := MergeString(m.contactName, next.contactName, allowOverride, overrideApplied);
    contactPhone, overrideApplied := MergeString(m.contactPhone, next.contactPhone, allowOverride, overrideApplied);
    members, overrideApplied := MergeNames(m.members, next.members, allowOverride, overrideApplied);
    special, overrideApplied :=
      MergeString(m.specialRequirements, next.specialRequirements, allowOverride, overrideApplied);
    var confidence := m.confidence;
    if confidence <= 0.0 && next.confidence > 0.0 {
      confidence := next.confidence;
    } else if allowOverride && next.confidence > confidence {
      confidence := next.confidence;
    }
    var productName, slotStartAt := m.productName, m.slotStartAt;
    if Trim(productName) == "" && Trim(next.productName) != "" {
      productName := next.productName;
    }
    if Trim(slotStartAt) == "" && Trim(next.slotStartAt) != "" {
      slotStartAt := next.slotStartAt;
    }
    merged := Normalize(Intent(productId, productName, slotId, slotStartAt, partySize, contactName, contactPhone,
                               members, special, confidence));
  }

  /* ----- Normal intents ----- */

  lemma {:induction false} NonBlankClean(texts: seq<string>)
    ensures forall i | 0 <= i < |NonBlank(texts)| ::
              NonBlank(texts)[i] != "" && Trim(NonBlank(texts)[i]) == NonBlank(texts)[i]
    decreases |texts|
  {
    if |texts| > 0 {
      NonBlankClean(texts[..|texts| - 1]);
      TrimIdempotent(texts[|texts| - 1]);
    }
  }

  lemma {:induction false} NonBlankFixed(texts: seq<string>)
    requires forall i | 0 <= i < |texts| :: texts[i] != "" && Trim(texts[i]) == texts[i]
    ensures NonBlank(texts) == texts
    decreases |texts|
  {
    if |texts| > 0 {
      NonBlankFixed(texts[..|texts| - 1]);
      assert texts == texts[..|texts| - 1] + [texts[|texts| - 1]];
    }
  }

  ghost predicate Normal(e: Intent) {
    && Trim(e.productId) == e.productId && Trim(e.productName) == e.productName
    && Trim(e.slotId) == e.slotId && Trim(e.slotStartAt) == e.slotStartAt
    && Trim(e.contactName) == e.contactName && Trim(e.contactPhone) == e.contactPhone
    && (forall i | 0 <= i < |e.members| :: e.members[i] != "" && Trim(e.members[i]) == e.members[i])
    && Trim(e.specialRequirements) == e.specialRequirements
    && 0.0 <= e.confidence <= 1.0
  }

  lemma NormalizeIsNormal(e: Intent)
    ensures Normal(Normalize(e))
  {
    TrimIdempotent(e.productId);
    TrimIdempotent(e.productName);
    TrimIdempotent(e.slotId);
    TrimIdempotent(e.slotStartAt);
    TrimIdempotent(e.contactName);
    TrimIdempotent(e.contactPhone);
    TrimIdempotent(e.specialRequirements);
    NonBlankClean(e.members);
  }

  lemma NormalIsFixed(e: Intent)
    requires Normal(e)
    ensures Normalize(e) == e
  {
    NonBlankFixed(e.members);
  }

  /* ----- Tracked fields ----- */

  datatype Field = ProductField | SlotField | SizeField | NameField | PhoneField | MembersField | RequirementsField

  predicate Filled(e: Intent, f: Field) {
    match f
    case ProductField => Trim(e.productId) != ""
    case SlotField => Trim(e.slotId) != ""
    case SizeField => e.partySize > 0
    case NameField => Trim(e.contactName) != ""
    case PhoneField => Trim(e.contactPhone) != ""
    case MembersField => NonBlank(e.members) != []
    case RequirementsField => Trim(e.specialRequirements) != ""
  }

  /** The two intents say the same about the field, up to surrounding space. */
  predicate SameField(a: Intent, b: Intent, f: Field) {
    match f
    case ProductField => Trim(a.productId) == Trim(b.productId)
    case SlotField => Trim(a.slotId) == Trim(b.slotId)
    case SizeField => a.partySize == b.partySize
    case NameField => Trim(a.contactName) == Trim(b.contactName)
    case PhoneField => Trim(a.contactPhone) == Trim(b.contactPhone)
    case MembersField => NonBlank(a.members) == NonBlank(b.members)
    case RequirementsField => Trim(a.specialRequirements) == Trim(b.specialRequirements)
  }

  predicate Required(f: Field) {
    !f.MembersField? && !f.RequirementsField?
  }

  function MissingFields(e: Intent): seq<Field> {
    (if Filled(e, ProductField) then [] else [ProductField])
    + (if Filled(e, SlotField) then [] else [SlotField])
    + (if Filled(e, SizeField) then [] else [SizeField])
    + (if Filled(e, NameField) then [] else [NameField])
    + (if Filled(e, PhoneField) then [] else [PhoneField])
  }

  lemma MissingFieldsAre(e: Intent, f: Field)
    ensures f in MissingFields(e) <==> Required(f) && !Filled(e, f)
  {
  }

  lemma NormalizeKeepsFields(e: Intent, f: Field)
    ensures SameField(e, Normalize(e), f)
  {
    TrimIdempotent(e.productId);
    TrimIdempotent(e.slotId);
    TrimIdempotent(e.contactName);
    TrimIdempotent(e.contactPhone);
    TrimIdempotent(e.specialRequirements);
    NonBlankClean(e.members);
    NonBlankFixed(NonBlank(e.members));
  }

  lemma SameFieldFilled(a: Intent, b: Intent, f: Field)
    requires SameField(a, b, f)
    ensures Filled(a, f) <==> Filled(b, f)
  {
  }

  /* ----- What the merge does to each field ----- */

  lemma SameTextsOfClean(a: seq<string>, b: seq<string>)
    requires forall i | 0 <= i < |a| :: Trim(a[i]) == a[i]
    requires forall i | 0 <= i < |b| :: Trim(b[i]) == b[i]
    ensures SameTexts(a, b) <==> a == b
  {
  }

  lemma MergeNormalIsNormal(m: Intent, next: Intent)
    requires Normal(m) && Normal(next)
    ensures Normal(MergeNormal(m, next))
  {
  }

  lemma MergeUnfolds(base: Intent, incoming: Intent)
    ensures Merge(base, incoming) == MergeNormal(Normalize(base), Normalize(incoming))
    ensures Normal(Normalize(base)) && Normal(Normalize(incoming)) && Normal(Merge(base, incoming))
  {
    NormalizeIsNormal(base);
    NormalizeIsNormal(incoming);
    MergeNormalIsNormal(Normalize(base), Normalize(incoming));
    NormalIsFixed(MergeNormal(Normalize(base), Normalize(incoming)));
  }

  lemma MergeNormalFields(m: Intent, next: Intent, f: Field)
    requires Normal(m) && Normal(next)
    ensures Filled(MergeNormal(m, next), f) <==> Filled(m, f) || Filled(next, f)
    ensures Filled(m, f) && !SameField(m, MergeNormal(m, next), f) ==> MayOverride(m, next)
  {
    if f == MembersField {
      NonBlankFixed(m.members);
      NonBlankFixed(next.members);
    }
  }

  /** A merge is complete in exactly the fields in which one of the two readings is, and it changes a field
      that was filled in only when the new reading may override. */
  lemma MergeFields(base: Intent, incoming: Intent, f: Field)
    ensures Filled(Merge(base, incoming), f) <==> Filled(base, f) || Filled(incoming, f)
    ensures Filled(base, f) && !SameField(base, Merge(base, incoming), f) ==> MayOverride(base, incoming)
  {
    MergeUnfolds(base, incoming);
    NormalizeKeepsFields(base, f);
    NormalizeKeepsFields(incoming, f);
    SameFieldFilled(base, Normalize(base), f);
    SameFieldFilled(incoming, Normalize(incoming), f);
    MergeNormalFields(Normalize(base), Normalize(incoming), f);
  }

  lemma MergeNormalTakes(m: Intent, next: Intent, f: Field)
    requires Normal(m) && Normal(next)
    ensures if Filled(next, f) && (!Filled(m, f) || MayOverride(m, next))
            then SameField(MergeNormal(m, next), next, f) else SameField(MergeNormal(m, next), m, f)
  {
    if f == MembersField {
      NonBlankFixed(m.members);
      NonBlankFixed(next.members);
      SameTextsOfClean(m.members, next.members);
    }
  }

  /** Each tracked field of a merge is the new reading's where that has one and the old has none or must give
      way, and the old one's everywhere else. */
  lemma MergeTakes(base: Intent, incoming: Intent, f: Field)
    ensures if Filled(incoming, f) && (!Filled(base, f) || MayOverride(base, incoming))
            then SameField(Merge(base, incoming), incoming, f) else SameField(Merge(base, incoming), base, f)
  {
    MergeUnfolds(base, incoming);
    NormalizeKeepsFields(base, f);
    NormalizeKeepsFields(incoming, f);
    SameFieldFilled(base, Normalize(base), f);
    SameFieldFilled(incoming, Normalize(incoming), f);
    MergeNormalTakes(Normalize(base), Normalize(incoming), f);
  }

  /** What is still missing after a merge is what both readings miss. */
  lemma MergeMissing(base: Intent, incoming: Intent, f: Field)
    ensures f in MissingFields(Merge(base, incoming)) <==> f in MissingFields(base) && f in MissingFields(incoming)
  {
    MergeFields(base, incoming, f);
    MissingFieldsAre(Merge(base, incoming), f);
    MissingFieldsAre(base, f);
    MissingFieldsAre(incoming, f);
  }

  /** The merge never lowers the confidence, and an override raises it by the delta at least, to the minimum or
      more. */
  lemma MergeRaisesConfidence(base: Intent, incoming: Intent)
    ensures Clamp(base.confidence) <= Merge(base, incoming).confidence <= 1.0
    ensures MayOverride(base, incoming) ==>
              && Merge(base, incoming).confidence == Clamp(incoming.confidence)
              && Merge(base, incoming).confidence >= OVERRIDE_CONFIDENCE_MIN
              && Merge(base, incoming).confidence >= Clamp(base.confidence) + OVERRIDE_CONFIDENCE_DELTA
  {
    MergeUnfolds(base, incoming);
  }

  /** The merge reports an override exactly when it changed a tracked field that was filled in. */
  lemma OverrideIsReported(base: Intent, incoming: Intent)
    ensures OverrideApplied(base, incoming) <==>
            exists f :: Filled(base, f) && !SameField(base, Merge(base, incoming), f)
  {
    MergeUnfolds(base, incoming);
    var m, next := Normalize(base), Normalize(incoming);
    NonBlankFixed(m.members);
    NonBlankFixed(next.members);
    SameTextsOfClean(m.members, next.members);
    forall f
      ensures SameField(base, m, f)
    {
      NormalizeKeepsFields(base, f);
    }
    if OverrideApplied(base, incoming) {
      OverriddenField(m, next);
      var f :| Filled(m, f) && !SameField(m, MergeNormal(m, next), f);
      assert SameField(base, m, f);
      assert Filled(base, f) && !SameField(base, Merge(base, incoming), f);
    }
    if f :| Filled(base, f) && !SameField(base, Merge(base, incoming), f) {
      assert SameField(base, m, f);
      MergeFields(base, incoming, f);
    }
  }

  lemma OverriddenField(m: Intent, next: Intent)
    requires Normal(m) && Normal(next)
    requires var o := MayOverride(m, next);
             || TextOverridden(m.productId, next.productId, o)
             || TextOverridden(m.slotId, next.slotId, o)
             || SizeOverridden(m.partySize, next.partySize, o)
             || TextOverridden(m.contactName, next.contactName, o)
             || TextOverridden(m.contactPhone, next.contactPhone, o)
             || MembersOverridden(m.members, next.members, o)
             || TextOverridden(m.specialRequirements, next.specialRequirements, o)
    ensures exists f :: Filled(m, f) && !SameField(m, MergeNormal(m, next), f)
  {
    var o := MayOverride(m, next);
    var c := MergeNormal(m, next);
    NonBlankFixed(m.members);
    NonBlankFixed(next.members);
    SameTextsOfClean(m.members, next.members);
    var f :=
      if TextOverridden(m.productId, next.productId, o) then ProductField
      else if TextOverridden(m.slotId, next.slotId, o) then SlotField
      else if SizeOverridden(m.partySize, next.partySize, o) then SizeField
      else if TextOverridden(m.contactName, next.contactName, o) then NameField
      else if TextOverridden(m.contactPhone, next.contactPhone, o) then PhoneField
      else if MembersOverridden(m.members, next.members, o) then MembersField
      else RequirementsField;
    assert Filled(m, f) && !SameField(m, c, f);
  }
}
