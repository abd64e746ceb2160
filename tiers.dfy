/**
 * The ticket tiers ("boletas") an organiser configures for an event, and the rules the
 * create and edit forms apply when a tier is added or removed: every field filled in,
 * one tier per ticket type, and the tiers' capacities together within the event's
 * capacity whenever that capacity is a positive number.
 */
module TicketTiers {
  import opened Wrappers
  import opened Seqs
  import opened Text

  /** A configured tier, as it is sent to the server. */
  datatype Tier = Tier(ticketTypeId: nat, price: nat, maximunCapacity: nat)

  /**
   * The tier being typed in. `None` is an empty input; a present value is the number the
   * input holds, as `parseInt` (type, capacity) or `parseFloat` (price) reads it.
   */
  datatype Draft = Draft(ticketTypeId: Option<nat>, price: Option<nat>, maximunCapacity: Option<nat>)

  const EmptyDraft: Draft := Draft(None, None, None)

  function Capacity(t: Tier): int { t.maximunCapacity }

  /** The capacity already given to tiers: the `reduce` over `maximun_capacity`. */
  function ConfiguredCapacity(tiers: seq<Tier>): int
  {
    Sum(tiers, Capacity)
  }

  /** Tier capacities are natural numbers, so their sum is too. */
  lemma ConfiguredCapacityNonNegative(tiers: seq<Tier>)
    ensures ConfiguredCapacity(tiers) >= 0
  {
    SumNonNegative(tiers, Capacity);
  }

  /** Some configured tier already has this ticket type. */
  predicate HasType(tiers: seq<Tier>, id: nat)
  {
    exists i :: 0 <= i < |tiers| && tiers[i].ticketTypeId == id
  }

  /** No two tiers share a ticket type. */
  predicate DistinctTypes(tiers: seq<Tier>)
  {
    forall i, j :: 0 <= i < j < |tiers| ==> tiers[i].ticketTypeId != tiers[j].ticketTypeId
  }

  /** The event capacity field read by `parseInt`, with `|| 0` for a missing number. */
  function EventTotalCapacity(maxCapacity: string): int
  {
    ParseInt(maxCapacity).GetOr(0)
  }

  /** The capacity still free for new tiers, as shown under the tier editor. */
  function RemainingCapacity(maxCapacity: string, tiers: seq<Tier>): int
  {
    EventTotalCapacity(maxCapacity) - ConfiguredCapacity(tiers)
  }

  /** The capacity rule: only a positive event capacity bounds the tiers. */
  predicate WithinTotal(tiers: seq<Tier>, maxCapacity: string)
  {
    var total := ParseInt(maxCapacity);
    total.Some? && total.value > 0 ==> ConfiguredCapacity(tiers) <= total.value
  }

  /** Every field of the draft is filled in. */
  predicate Complete(d: Draft)
  {
    d.ticketTypeId.Some? && d.price.Some? && d.maximunCapacity.Some?
  }

  /** The tier a complete draft becomes. */
  function DraftTier(d: Draft): Tier
    requires Complete(d)
  {
    Tier(d.ticketTypeId.value, d.price.value, d.maximunCapacity.value)
  }

  /** What pressing "add tier" leads to. */
  datatype AddOutcome =
    | Added(tier: Tier)
    | MissingField
    | DuplicateType
    | OverCapacity(total: int, configured: int, requested: int)

  /** The decision taken when a draft is added to the tiers, for an event capacity field. */
  function CheckAdd(tiers: seq<Tier>, d: Draft, maxCapacity: string): (r: AddOutcome)
    ensures r.MissingField? <==> !Complete(d)
    ensures r.DuplicateType? <==> Complete(d) && HasType(tiers, d.ticketTypeId.value)
    ensures r.Added? ==> Complete(d) && r.tier == DraftTier(d) && !HasType(tiers, r.tier.ticketTypeId)
    ensures r.OverCapacity? ==>
              r.total > 0 && ParseInt(maxCapacity) == Some(r.total) &&
              r.configured == ConfiguredCapacity(tiers) &&
              r.configured + r.requested > r.total
    ensures r.OverCapacity? ==>
              Complete(d) && !HasType(tiers, d.ticketTypeId.value) && r.requested == d.maximunCapacity.value
    ensures Complete(d) && !HasType(tiers, d.ticketTypeId.value) ==>
              (r.Added? <==>
                 !(ParseInt(maxCapacity).Some? && ParseInt(maxCapacity).value > 0 &&
                   ConfiguredCapacity(tiers) + d.maximunCapacity.value > ParseInt(maxCapacity).value))
  {
    if !Complete(d) then MissingField
    else if HasType(tiers, d.ticketTypeId.value) then DuplicateType
    else
      var total := ParseInt(maxCapacity);
      if total.Some? && total.value > 0 && ConfiguredCapacity(tiers) + d.maximunCapacity.value > total.value then
        OverCapacity(total.value, ConfiguredCapacity(tiers), d.maximunCapacity.value)
      else
        Added(DraftTier(d))
  }

  /**
   * The guards of `handleAddTicket`, in their order: an incomplete draft, a ticket type
   * already configured, then an overflow of a positive event capacity. This is the
   * handler's early-return code; `CheckAdd` is the decision it is proved to take.
   */
  method DecideAdd(tiers: seq<Tier>, d: Draft, maxCapacity: string) returns (outcome: AddOutcome)
    ensures outcome == CheckAdd(tiers, d, maxCapacity)
  {
    if d.ticketTypeId.None? || d.price.None? || d.maximunCapacity.None? {
      return MissingField;
    }
    if HasType(tiers, d.ticketTypeId.value) {
      return DuplicateType;
    }
    var total := ParseInt(maxCapacity);
    if total.Some? && total.value > 0 {
      var current := ConfiguredCapacity(tiers);
      var requested := d.maximunCapacity.value;
      if current + requested > total.value {
        return OverCapacity(total.value, current, requested);
      }
    }
    return Added(Tier(d.ticketTypeId.value, d.price.value, d.maximunCapacity.value));
  }

  /** The error shown for a refused tier. */
  function AddError(r: AddOutcome): (msg: string)
    requires !r.Added?
    ensures |msg| > 0
  {
    match r
    case MissingField => "Por favor complete todos los campos de la boleta."
    case DuplicateType => "Ese tipo de boleta ya ha sido añadido."
    case OverCapacity(total, configured, requested) =>
      "Error: El aforo total del evento es " + IntString(total) + ". " +
      "Ya hay " + IntString(configured) + " boletas configuradas. " +
      "Añadir " + IntString(requested) + " más superaría el límite."
  }

  /** The tiers after an add: the new tier at the end, or the tiers unchanged. */
  function AfterAdd(tiers: seq<Tier>, d: Draft, maxCapacity: string): (r: seq<Tier>)
    ensures |r| == |tiers| || |r| == |tiers| + 1
    ensures r[..|tiers|] == tiers
  {
    var outcome := CheckAdd(tiers, d, maxCapacity);
    if outcome.Added? then tiers + [outcome.tier] else tiers
  }

  /** Adding a tier keeps ticket types distinct. */
  lemma AddKeepsTypesDistinct(tiers: seq<Tier>, d: Draft, maxCapacity: string)
    requires DistinctTypes(tiers)
    ensures DistinctTypes(AfterAdd(tiers, d, maxCapacity))
  {
    var outcome := CheckAdd(tiers, d, maxCapacity);
    if outcome.Added? {
      var r := tiers + [outcome.tier];
      forall i, j | 0 <= i < j < |r| ensures r[i].ticketTypeId != r[j].ticketTypeId {
        if j == |tiers| {
          assert r[i] == tiers[i];
        }
      }
    }
  }

  /** Adding a tier keeps the tiers within a positive event capacity. */
  lemma {:induction false} AddKeepsWithinTotal(tiers: seq<Tier>, d: Draft, maxCapacity: string)
    requires WithinTotal(tiers, maxCapacity)
    ensures WithinTotal(AfterAdd(tiers, d, maxCapacity), maxCapacity)
  {
    var outcome := CheckAdd(tiers, d, maxCapacity);
    if outcome.Added? {
      SumAppend(tiers, [outcome.tier], Capacity);
      assert Sum([outcome.tier], Capacity) == outcome.tier.maximunCapacity by {
        assert [outcome.tier][..0] == [];
      }
    }
  }

  /** Both invariants at once, each kept when it held before the add. */
  lemma AddPreserves(tiers: seq<Tier>, d: Draft, maxCapacity: string)
    ensures DistinctTypes(tiers) ==> DistinctTypes(AfterAdd(tiers, d, maxCapacity))
    ensures WithinTotal(tiers, maxCapacity) ==> WithinTotal(AfterAdd(tiers, d, maxCapacity), maxCapacity)
  {
    if DistinctTypes(tiers) {
      AddKeepsTypesDistinct(tiers, d, maxCapacity);
    }
    if WithinTotal(tiers, maxCapacity) {
      AddKeepsWithinTotal(tiers, d, maxCapacity);
    }
  }

  /** What `handleAddTicket` leaves behind: the tiers, the draft being edited and the error shown. */
  datatype AddState = AddState(tiers: seq<Tier>, draft: Draft, error: Option<string>)

  /**
   * `handleAddTicket` as one step: an accepted draft is appended, the draft emptied and the
   * error cleared; a refused one leaves tiers and draft alone and shows why. Distinct ticket
   * types and the capacity rule, when they held, still hold.
   */
  function AddStep(tiers: seq<Tier>, d: Draft, maxCapacity: string): (s: AddState)
    ensures s.tiers == AfterAdd(tiers, d, maxCapacity)
    ensures var outcome := CheckAdd(tiers, d, maxCapacity);
      if outcome.Added? then s.draft == EmptyDraft && s.error == None
      else s.draft == d && s.error == Some(AddError(outcome))
  {
    var outcome := CheckAdd(tiers, d, maxCapacity);
    if outcome.Added? then AddState(tiers + [outcome.tier], EmptyDraft, None)
    else AddState(tiers, d, Some(AddError(outcome)))
  }

  /** A refused add leaves the tiers unchanged; an accepted one grows the configured capacity by the draft's capacity. */
  lemma {:induction false} AddCapacity(tiers: seq<Tier>, d: Draft, maxCapacity: string)
    ensures CheckAdd(tiers, d, maxCapacity).Added? ==>
              ConfiguredCapacity(AfterAdd(tiers, d, maxCapacity)) == ConfiguredCapacity(tiers) + d.maximunCapacity.value
    ensures !CheckAdd(tiers, d, maxCapacity).Added? ==> AfterAdd(tiers, d, maxCapacity) == tiers
  {
    var outcome := CheckAdd(tiers, d, maxCapacity);
    if outcome.Added? {
      SumAppend(tiers, [outcome.tier], Capacity);
      assert [outcome.tier][..0] == [];
    }
  }

  /** Removing a tier keeps the ticket types distinct. */
  lemma RemoveKeepsTypesDistinct(tiers: seq<Tier>, index: int)
    requires DistinctTypes(tiers)
    ensures DistinctTypes(FilterOutIndex(tiers, index))
  {
    var r := FilterOutIndex(tiers, index);
    if 0 <= index < |tiers| {
      forall i, j | 0 <= i < j < |r| ensures r[i].ticketTypeId != r[j].ticketTypeId {
        var i', j' := if i < index then i else i + 1, if j < index then j else j + 1;
        assert r[i] == tiers[i'] && r[j] == tiers[j'];
      }
    }
  }

  /** Removing a tier frees exactly its capacity. */
  lemma {:induction false} RemoveFreesCapacity(tiers: seq<Tier>, index: int)
    requires 0 <= index < |tiers|
    ensures ConfiguredCapacity(FilterOutIndex(tiers, index)) == ConfiguredCapacity(tiers) - tiers[index].maximunCapacity
  {
    var before, after := tiers[..index], tiers[index + 1..];
    assert tiers == before + [tiers[index]] + after;
    SumAppend(before + [tiers[index]], after, Capacity);
    SumAppend(before, [tiers[index]], Capacity);
    SumAppend(before, after, Capacity);
    assert [tiers[index]][..0] == [];
  }

  /** Removing a tier keeps the tiers within the event capacity. */
  lemma RemoveKeepsWithinTotal(tiers: seq<Tier>, index: int, maxCapacity: string)
    requires WithinTotal(tiers, maxCapacity)
    ensures WithinTotal(FilterOutIndex(tiers, index), maxCapacity)
  {
    if 0 <= index < |tiers| {
      RemoveFreesCapacity(tiers, index);
    }
  }

  /** Within a positive event capacity, the remaining capacity shown is never negative. */
  lemma RemainingNonNegative(tiers: seq<Tier>, maxCapacity: string)
    requires WithinTotal(tiers, maxCapacity)
    requires EventTotalCapacity(maxCapacity) > 0
    ensures RemainingCapacity(maxCapacity, tiers) >= 0
  {
  }
}
