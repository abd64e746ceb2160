/**
 * The public page of one event: the picture shown, and the purchase panel, which selects
 * a tier, keeps a quantity, prices the order and labels the checkout button.
 */
module EventDetail {
  import opened Wrappers
  import opened Seqs
  import opened Text

  // ---------------------------------------------------------------- picture

  /** The categories that have a default picture. */
  const DefaultCategories: seq<string> := ["musica", "deporte", "arte", "tecnologia", "educacion", "otros"]

  /** The picture shown for an event: its own upload, or the default picture of its category. */
  datatype Picture = OwnImage(url: string) | CategoryDefault

  /**
   * `getEventImage`: the event's image when it is not blank, else the default picture when
   * the lower-cased category has one, else no picture.
   */
  function EventImage(image: Option<string>, category: Option<string>): (r: Option<Picture>)
    ensures r.Some? && r.value.OwnImage? <==> image.Some? && !IsBlank(image.value)
    ensures r.Some? && r.value.OwnImage? ==> r.value.url == image.value
    ensures r == Some(CategoryDefault) <==>
              !(image.Some? && !IsBlank(image.value)) && category.Some? && Lower(category.value) in DefaultCategories
  {
    if image.Some? && !IsBlank(image.value) then Some(OwnImage(image.value))
    else if category.Some? && Lower(category.value) in DefaultCategories then Some(CategoryDefault)
    else None
  }

  /** A known category always yields a picture, and an uploaded picture wins over it. */
  lemma KnownCategoryHasPicture(image: Option<string>, category: string)
    requires Lower(category) in DefaultCategories
    ensures EventImage(image, Some(category)).Some?
    ensures image.Some? && !IsBlank(image.value) ==> EventImage(image, Some(category)) == Some(OwnImage(image.value))
  {
  }

  /** The category test ignores case: "Musica" and "MUSICA" get the default picture of "musica". */
  lemma CategoryIgnoresCase(image: Option<string>, a: string, b: string)
    requires Lower(a) == Lower(b)
    ensures EventImage(image, Some(a)) == EventImage(image, Some(b))
  {
  }

  // ---------------------------------------------------------------- tiers

  /** A tier as the availability endpoint reports it. */
  datatype AvailabilityTier = AvailabilityTier(
    id: nat,
    ticketType: string,
    price: nat,
    maximunCapacity: nat,
    capacitySold: nat)

  /** Tickets still for sale; negative when more were sold than the capacity. */
  function Available(t: AvailabilityTier): int
  {
    t.maximunCapacity - t.capacitySold
  }

  predicate IsAvailable(t: AvailabilityTier)
  {
    Available(t) > 0
  }

  /** `find`: the first tier with tickets left. */
  function FirstAvailable(tiers: seq<AvailabilityTier>): (r: Option<AvailabilityTier>)
    ensures r.None? <==> forall i :: 0 <= i < |tiers| ==> !IsAvailable(tiers[i])
    ensures r.Some? ==>
              exists i :: 0 <= i < |tiers| && tiers[i] == r.value && IsAvailable(tiers[i]) &&
                          forall j :: 0 <= j < i ==> !IsAvailable(tiers[j])
  {
    if tiers == [] then None
    else if IsAvailable(tiers[0]) then
      assert tiers[0] == tiers[0];
      Some(tiers[0])
    else
      var r := FirstAvailable(tiers[1..]);
      if r.Some? then
        var i :| 0 <= i < |tiers[1..]| && tiers[1..][i] == r.value && IsAvailable(tiers[1..][i]) &&
                 forall j :: 0 <= j < i ==> !IsAvailable(tiers[1..][j]);
        assert tiers[i + 1] == r.value;
        assert forall j :: 0 <= j < i + 1 ==> !IsAvailable(tiers[j]) by {
          forall j | 0 <= j < i + 1 ensures !IsAvailable(tiers[j]) {
            if j > 0 {
              assert tiers[j] == tiers[1..][j - 1];
            }
          }
        }
        r
      else
        assert forall i :: 0 <= i < |tiers| ==> !IsAvailable(tiers[i]) by {
          forall i | 0 <= i < |tiers| ensures !IsAvailable(tiers[i]) {
            if i > 0 {
              assert tiers[i] == tiers[1..][i - 1];
            }
          }
        }
        r
  }

  /** `find` agrees with taking the head of the `filter` by the same predicate. */
  lemma {:induction false} FirstAvailableIsHeadOfFilter(tiers: seq<AvailabilityTier>)
    ensures var kept := Filter(tiers, IsAvailable);
            FirstAvailable(tiers) == if kept == [] then None else Some(kept[0])
  {
    if tiers != [] {
      FirstAvailableIsHeadOfFilter(tiers[1..]);
    }
  }

  /** A tier is flagged "almost sold out" when more than 80% of it is sold: `5·sold > 4·max`. */
  predicate AlmostSoldOut(t: AvailabilityTier)
  {
    5 * t.capacitySold > 4 * t.maximunCapacity
  }

  /**
   * The integer test agrees with the percentage test `sold / max * 100 > 80`; with a zero
   * capacity the percentage is infinite (flagged) when something was sold and undefined
   * (not flagged) when nothing was.
   */
  lemma AlmostSoldOutPercentage(t: AvailabilityTier)
    ensures t.maximunCapacity > 0 ==>
              (AlmostSoldOut(t) <==> (t.capacitySold as real / t.maximunCapacity as real) * 100.0 > 80.0)
    ensures t.maximunCapacity == 0 ==> (AlmostSoldOut(t) <==> t.capacitySold > 0)
  {
    if t.maximunCapacity > 0 {
      var s, m := t.capacitySold as real, t.maximunCapacity as real;
      var q := s / m;
      assert q * m == s;
      ScaleByPositive(q * 100.0, 80.0, m);
      assert q * 100.0 * m == 100.0 * s;
    }
  }

  /** Multiplying both sides by a positive number keeps a strict comparison. */
  lemma ScaleByPositive(a: real, b: real, m: real)
    requires m > 0.0
    ensures a > b <==> a * m > b * m
  {
    if a > b {
      assert (a - b) * m > 0.0;
    } else {
      assert (b - a) * m >= 0.0;
    }
  }

  // ---------------------------------------------------------------- checkout button

  const GetTickets: string := "Conseguir Boletas"
  const SalesSoon: string := "Venta Próximamente"
  const EventCancelled: string := "Evento Cancelado"
  const EventFinished: string := "Evento Finalizado"
  const AllSoldOut: string := "Boletas Agotadas"
  const TierSoldOut: string := "Boleta Agotada"

  datatype Button = Button(text: string, disabled: bool)

  /** The checkout button for an event status and a selection, by the first rule that applies. */
  function ButtonFor(status: string, selected: Option<AvailabilityTier>): Button
  {
    if status == "programado" then Button(SalesSoon, true)
    else if status == "cancelado" then Button(EventCancelled, true)
    else if status == "finalizado" then Button(EventFinished, true)
    else if selected.None? then Button(AllSoldOut, true)
    else if Available(selected.value) == 0 then Button(TierSoldOut, true)
    else Button(GetTickets, false)
  }

  /** The render-time chain that starts from the enabled label and overrides it case by case. */
  method CheckoutButton(status: string, selected: Option<AvailabilityTier>) returns (b: Button)
    ensures b == ButtonFor(status, selected)
  {
    var text := GetTickets;
    var disabled := false;
    if status == "programado" {
      text := SalesSoon;
      disabled := true;
    } else if status == "cancelado" {
      text := EventCancelled;
      disabled := true;
    } else if status == "finalizado" {
      text := EventFinished;
      disabled := true;
    } else if selected.None? {
      text := AllSoldOut;
      disabled := true;
    } else if Available(selected.value) == 0 {
      text := TierSoldOut;
      disabled := true;
    }
    b := Button(text, disabled);
  }

  /** The button is enabled exactly for an open status and a selected tier that is not exactly sold out. */
  lemma ButtonEnabledIff(status: string, selected: Option<AvailabilityTier>)
    ensures !ButtonFor(status, selected).disabled <==>
              status != "programado" && status != "cancelado" && status != "finalizado" &&
              selected.Some? && Available(selected.value) != 0
  {
  }

  /** The label alone tells whether the button is disabled. */
  lemma ButtonLabelDecidesDisabled(status: string, selected: Option<AvailabilityTier>)
    ensures ButtonFor(status, selected).disabled <==> ButtonFor(status, selected).text != GetTickets
  {
  }

  /** A status rule wins over any selection. */
  lemma StatusWinsOverSelection(status: string, a: Option<AvailabilityTier>, b: Option<AvailabilityTier>)
    requires status == "programado" || status == "cancelado" || status == "finalizado"
    ensures ButtonFor(status, a) == ButtonFor(status, b)
  {
  }

  /** The ticket panel is shown for active and scheduled events only. */
  predicate ShowsTicketPanel(status: string)
  {
    status == "activo" || status == "programado"
  }

  /** Where the panel is shown, the button is enabled only for an active event. */
  lemma PanelButtonNeedsActive(status: string, selected: Option<AvailabilityTier>)
    requires ShowsTicketPanel(status)
    ensures !ButtonFor(status, selected).disabled ==> status == "activo"
    ensures status == "programado" ==> ButtonFor(status, selected) == Button(SalesSoon, true)
  {
  }

  // ---------------------------------------------------------------- purchase panel

  /**
   * The order price: quantity times the selected tier's price, nothing without a selection.
   * Under the panel's invariant (a quantity from one to the tickets left) the order costs
   * at least one ticket and at most every ticket left.
   */
  function Subtotal(selected: Option<AvailabilityTier>, quantity: int): (r: int)
    ensures selected.None? ==> r == 0
    ensures selected.Some? && 1 <= quantity <= Available(selected.value) ==>
              selected.value.price <= r <= Available(selected.value) * selected.value.price
  {
    if selected.Some? then
      var p := selected.value.price;
      assert 1 <= quantity ==> quantity * p >= 1 * p;
      assert quantity <= Available(selected.value) ==> quantity * p <= Available(selected.value) * p;
      quantity * p
    else 0
  }

  /** The service fee is zero, so the total is the subtotal, with the subtotal's bounds. */
  function Total(selected: Option<AvailabilityTier>, quantity: int): (r: int)
    ensures r == Subtotal(selected, quantity)
    ensures selected.None? ==> r == 0
    ensures selected.Some? && 1 <= quantity <= Available(selected.value) ==>
              selected.value.price <= r <= Available(selected.value) * selected.value.price
  {
    Subtotal(selected, quantity) + 0
  }

  /** The selection and quantity state of the purchase panel. */
  class PurchasePanel {
    var status: string
    var tiers: seq<AvailabilityTier>
    var selected: Option<AvailabilityTier>
    var quantity: int

    /** The quantity is at least one, and within what the selected tier has left. */
    ghost predicate Valid()
      reads this
    {
      1 <= quantity &&
      (selected.Some? ==> IsAvailable(selected.value) && quantity <= Available(selected.value))
    }

    /** The state before the event has loaded. */
    constructor ()
      ensures Valid()
      ensures status == "" && tiers == [] && selected == None && quantity == 1
    {
      status := "";
      tiers := [];
      selected := None;
      quantity := 1;
    }

    /**
     * The event and its tiers arrive: with at least one tier, the first available one is
     * selected (or none) and the quantity reset to one; with none, the selection stays.
     */
    method Load(eventStatus: string, loaded: seq<AvailabilityTier>)
      requires Valid()
      modifies this
      ensures Valid()
      ensures status == eventStatus && tiers == loaded
      ensures |loaded| > 0 ==> selected == FirstAvailable(loaded) && quantity == 1
      ensures |loaded| == 0 ==> selected == old(selected) && quantity == old(quantity)
    {
      status := eventStatus;
      tiers := loaded;
      if |loaded| > 0 {
        selected := FirstAvailable(loaded);
        quantity := 1;
      }
    }

    /** A click on a tier selects it, with quantity one, only if it has tickets left and the event is active. */
    method ClickTier(t: AvailabilityTier)
      requires Valid()
      modifies this
      ensures Valid()
      ensures IsAvailable(t) && status == "activo" ==> selected == Some(t) && quantity == 1
      ensures !(IsAvailable(t) && status == "activo") ==> selected == old(selected) && quantity == old(quantity)
      ensures status == old(status) && tiers == old(tiers)
    {
      if IsAvailable(t) && status == "activo" {
        selected := Some(t);
        quantity := 1;
      }
    }

    /** The minus button: one less, but never below one. */
    method Decrement()
      requires Valid()
      modifies this
      ensures Valid()
      ensures quantity == if old(quantity) - 1 < 1 then 1 else old(quantity) - 1
      ensures selected == old(selected) && status == old(status) && tiers == old(tiers)
    {
      quantity := if quantity - 1 < 1 then 1 else quantity - 1;
    }

    /** The plus button, shown with a selection: one more, but never above what is left. */
    method Increment()
      requires Valid()
      requires selected.Some?
      modifies this
      ensures Valid()
      ensures selected == old(selected) && status == old(status) && tiers == old(tiers)
      ensures var cap := Available(selected.value);
              quantity == if old(quantity) + 1 < cap then old(quantity) + 1 else cap
    {
      var cap := Available(selected.value);
      quantity := if quantity + 1 < cap then quantity + 1 else cap;
    }
  }

  /** Under the panel's invariant a selected tier never shows "Boleta Agotada". */
  lemma ValidSelectionNotSoldOut(status: string, selected: Option<AvailabilityTier>)
    requires selected.Some? ==> IsAvailable(selected.value)
    ensures ButtonFor(status, selected).text != TierSoldOut
  {
  }
}
