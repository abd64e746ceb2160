/**
 * The public event catalogue: the price shown for an event is the lowest price of its
 * ticket types after the thousands separators are removed, and the filter panel narrows
 * the list by name, city, category, dates and price.
 */
module AllEvents {
  import opened Wrappers
  import opened Seqs
  import opened Text

  // ---------------------------------------------------------------- prices

  /** A ticket type's price as the server sends it: missing, text, or a number. */
  datatype PriceValue = PriceMissing | PriceText(text: string) | PriceNumber(n: nat)

  /** The characters `getCleanPrice` removes: '.', ',' and white space. */
  predicate IsSeparator(c: char)
  {
    c == '.' || c == ',' || IsJsSpace(c)
  }

  predicate KeepPriceChar(c: char)
  {
    !IsSeparator(c)
  }

  /**
   * `replace(/[\.,\s]/g, '')`: the text without its dots, commas and white space, the
   * other characters kept in their order.
   */
  function StripSeparators(s: string): (r: string)
    ensures forall i :: 0 <= i < |r| ==> !IsSeparator(r[i])
    ensures IsSubsequence(r, s)
    ensures forall c :: c in r <==> c in s && !IsSeparator(c)
  {
    var r := Filter(s, KeepPriceChar);
    FilterIsSubsequence(s, KeepPriceChar);
    forall c ensures c in r <==> c in s && KeepPriceChar(c) {
      FilterMember(s, KeepPriceChar, c);
    }
    assert forall i :: 0 <= i < |r| ==> r[i] in r;
    r
  }

  /** The price as text: the string itself, or the number's base-10 digits. */
  function PriceString(p: PriceValue): string
  {
    match p
    case PriceMissing => ""
    case PriceText(s) => s
    case PriceNumber(n) => DecimalString(n)
  }

  /** A price JavaScript treats as false: missing, the empty string, or the number 0. */
  predicate Falsy(p: PriceValue)
  {
    p.PriceMissing? || p == PriceText("") || p == PriceNumber(0)
  }

  /**
   * `getCleanPrice`: NaN (`None`) for a false value; otherwise the separators are removed
   * and the rest read as a number. With no '.' left, `parseFloat` reads what `parseInt`
   * reads, so the price is whole.
   */
  function CleanPrice(p: PriceValue): (r: Option<int>)
    ensures Falsy(p) ==> r.None?
    ensures !Falsy(p) ==> ParseFloat(StripSeparators(PriceString(p))) ==
                          (match r case None => None case Some(v) => Some(v as real))
  {
    if Falsy(p) then None
    else
      var cleaned := StripSeparators(PriceString(p));
      assert '.' !in cleaned;
      ParseFloatWithoutPoint(cleaned);
      ParseInt(cleaned)
  }

  /** A positive number is its own price; zero is treated as no price. */
  lemma CleanPriceOfNumber(n: nat)
    ensures CleanPrice(PriceNumber(n)) == if n == 0 then None else Some(n)
  {
    if n != 0 {
      var s := DecimalString(n);
      FilterKeepsAll(s, KeepPriceChar);
      ParseIntOfDecimal(n);
    }
  }

  /** Removing separators is idempotent, so cleaning a cleaned price changes nothing. */
  lemma StripSeparatorsIdempotent(s: string)
    ensures StripSeparators(StripSeparators(s)) == StripSeparators(s)
  {
    FilterIdempotent(s, KeepPriceChar);
  }

  /** The least present value of a list of optional values. */
  function MinPresent(ps: seq<Option<int>>): (r: Option<int>)
    ensures r.None? <==> forall i :: 0 <= i < |ps| ==> ps[i].None?
    ensures r.Some? ==> exists i :: 0 <= i < |ps| && ps[i] == r
    ensures r.Some? ==> forall i :: 0 <= i < |ps| && ps[i].Some? ==> r.value <= ps[i].value
  {
    if ps == [] then None
    else
      var rest := MinPresent(ps[1..]);
      assert forall i :: 1 <= i < |ps| ==> ps[i] == ps[1..][i - 1];
      assert rest.Some? ==> exists i :: 0 <= i < |ps| && ps[i] == rest by {
        if rest.Some? {
          var i :| 0 <= i < |ps[1..]| && ps[1..][i] == rest;
          assert ps[i + 1] == rest;
        }
      }
      if ps[0].None? then rest
      else if rest.None? || ps[0].value <= rest.value then
        assert ps[0] == Some(ps[0].value);
        Some(ps[0].value)
      else rest
  }

  /**
   * `getLowestPrice`: no price without ticket types; otherwise the least of the prices
   * that are not NaN, or none when every price is NaN.
   */
  function LowestPrice(types: Option<seq<PriceValue>>): (r: Option<int>)
    ensures types.None? || |types.value| == 0 ==> r.None?
    ensures r.Some? ==> exists i :: 0 <= i < |types.value| && CleanPrice(types.value[i]) == r
    ensures r.Some? ==> forall i :: 0 <= i < |types.value| && CleanPrice(types.value[i]).Some? ==>
                          r.value <= CleanPrice(types.value[i]).value
    ensures types.Some? && r.None? ==> forall i :: 0 <= i < |types.value| ==> CleanPrice(types.value[i]).None?
  {
    if types.None? || |types.value| == 0 then None
    else MinPresent(Map(types.value, CleanPrice))
  }

  // ---------------------------------------------------------------- filters

  /** What the catalogue reads of an event. `startDatetime` is an opaque comparable instant. */
  datatype CatalogueEvent = CatalogueEvent(
    eventName: string,
    location: string,
    category: string,
    startDatetime: int,
    ticketPrices: Option<seq<PriceValue>>)

  /** The filter panel; an empty date input is `None`. */
  datatype Filters = Filters(
    search: string,
    dateFrom: Option<int>,
    dateTo: Option<int>,
    city: string,
    genre: string,
    minPrice: string,
    maxPrice: string)

  const InitialFilters: Filters := Filters("", None, None, "Todas", "Todos", "", "")

  predicate SearchOk(f: Filters, e: CatalogueEvent)
  {
    f.search == "" || ContainsIgnoringCase(e.eventName, f.search)
  }

  predicate CityOk(f: Filters, e: CatalogueEvent)
  {
    f.city == "" || f.city == "Todas" || e.location == f.city
  }

  predicate GenreOk(f: Filters, e: CatalogueEvent)
  {
    f.genre == "" || f.genre == "Todos" || e.category == f.genre
  }

  predicate FromOk(f: Filters, e: CatalogueEvent)
  {
    f.dateFrom.None? || e.startDatetime >= f.dateFrom.value
  }

  predicate ToOk(f: Filters, e: CatalogueEvent)
  {
    f.dateTo.None? || e.startDatetime <= f.dateTo.value
  }

  /** An event needs a lowest price, within each bound that parses; bounds are inclusive. */
  predicate PriceOk(f: Filters, e: CatalogueEvent)
  {
    var low := LowestPrice(e.ticketPrices);
    var min := ParseFloat(f.minPrice);
    var max := ParseFloat(f.maxPrice);
    low.Some? &&
    (min.None? || low.value as real >= min.value) &&
    (max.None? || low.value as real <= max.value)
  }

  /** The catalogue's conjunctive filter. */
  predicate Matches(f: Filters, e: CatalogueEvent)
  {
    SearchOk(f, e) && CityOk(f, e) && GenreOk(f, e) && FromOk(f, e) && ToOk(f, e) && PriceOk(f, e)
  }

  function MatchTest(f: Filters): CatalogueEvent -> bool
  {
    e => Matches(f, e)
  }

  /** The test at stage `k` of the filter chain, in the order the page applies them. */
  predicate Stage(f: Filters, k: nat, e: CatalogueEvent)
  {
    if k == 0 then SearchOk(f, e)
    else if k == 1 then CityOk(f, e)
    else if k == 2 then GenreOk(f, e)
    else if k == 3 then FromOk(f, e)
    else if k == 4 then ToOk(f, e)
    else PriceOk(f, e)
  }

  function StageTest(f: Filters, k: nat): CatalogueEvent -> bool
  {
    e => Stage(f, k, e)
  }

  /** The first `n` stages together. */
  function UpTo(f: Filters, n: nat): CatalogueEvent -> bool
  {
    e => forall k: nat :: k < n ==> Stage(f, k, e)
  }

  /** One more stage of the chain narrows the list to the first `k + 1` stages. */
  lemma Narrow(all: seq<CatalogueEvent>, events: seq<CatalogueEvent>, f: Filters, k: nat)
    requires events == Filter(all, UpTo(f, k))
    ensures Filter(events, StageTest(f, k)) == Filter(all, UpTo(f, k + 1))
  {
    forall e ensures UpTo(f, k + 1)(e) == (UpTo(f, k)(e) && StageTest(f, k)(e)) {
      if UpTo(f, k)(e) && StageTest(f, k)(e) {
        forall j: nat | j < k + 1 ensures Stage(f, j, e) {
          if j < k {
            assert UpTo(f, k)(e);
          }
        }
      }
    }
    FilterCompose(all, UpTo(f, k), StageTest(f, k), UpTo(f, k + 1));
  }

  /** A stage that is switched off passes everything, so skipping it is filtering by it. */
  lemma Skip(events: seq<CatalogueEvent>, f: Filters, k: nat)
    requires forall e :: Stage(f, k, e)
    ensures events == Filter(events, StageTest(f, k))
  {
    FilterKeepsAll(events, StageTest(f, k));
  }

  /** No stage yet: the whole list. */
  lemma NoStage(all: seq<CatalogueEvent>, f: Filters)
    ensures all == Filter(all, UpTo(f, 0))
  {
    FilterKeepsAll(all, UpTo(f, 0));
  }

  /** All six stages are the catalogue's filter. */
  lemma AllStages(all: seq<CatalogueEvent>, f: Filters)
    ensures Filter(all, UpTo(f, 6)) == Filter(all, MatchTest(f))
  {
    forall i | 0 <= i < |all| ensures UpTo(f, 6)(all[i]) == Matches(f, all[i]) {
      var e := all[i];
      assert Stage(f, 0, e) && Stage(f, 1, e) && Stage(f, 2, e) && Stage(f, 3, e) && Stage(f, 4, e) && Stage(f, 5, e)
             <==> Matches(f, e);
      if Matches(f, e) {
        forall k: nat | k < 6 ensures Stage(f, k, e) {
        }
      }
    }
    FilterCongruent(all, UpTo(f, 6), MatchTest(f));
  }

  /**
   * One `if (...) events = events.filter(...)` of `handleApplyFilters`: stage `k` filters
   * the list when `active`, and an inactive stage passes everything anyway.
   */
  method Step(all: seq<CatalogueEvent>, events: seq<CatalogueEvent>, f: Filters, k: nat, active: bool)
    returns (r: seq<CatalogueEvent>)
    requires events == Filter(all, UpTo(f, k))
    requires !active ==> forall e :: Stage(f, k, e)
    ensures r == Filter(all, UpTo(f, k + 1))
  {
    Narrow(all, events, f, k);
    if active {
      r := Filter(events, StageTest(f, k));
    } else {
      Skip(events, f, k);
      r := events;
    }
  }

  /** The catalogue page: every event, the events shown, and the filter panel. */
  class Catalogue {
    var allEvents: seq<CatalogueEvent>
    var filteredEvents: seq<CatalogueEvent>
    var filters: Filters

    /** The loaded list is shown in full, with the initial filters. */
    constructor (events: seq<CatalogueEvent>)
      ensures allEvents == events && filteredEvents == events && filters == InitialFilters
    {
      allEvents := events;
      filteredEvents := events;
      filters := InitialFilters;
    }

    /** A filter input changes. */
    method SetFilters(f: Filters)
      modifies this
      ensures filters == f && allEvents == old(allEvents) && filteredEvents == old(filteredEvents)
    {
      filters := f;
    }

    /**
     * `handleApplyFilters`: narrows a copy of the list stage by stage, skipping inactive
     * stages, and shows the result: the events that pass every active filter, in order.
     */
    method ApplyFilters()
      modifies this
      ensures filteredEvents == Filter(allEvents, MatchTest(filters))
      ensures allEvents == old(allEvents) && filters == old(filters)
    {
      var f := filters;
      var events := allEvents;
      NoStage(allEvents, f);
      events := Step(allEvents, events, f, 0, f.search != "");
      events := Step(allEvents, events, f, 1, f.city != "" && f.city != "Todas");
      events := Step(allEvents, events, f, 2, f.genre != "" && f.genre != "Todos");
      events := Step(allEvents, events, f, 3, f.dateFrom.Some?);
      events := Step(allEvents, events, f, 4, f.dateTo.Some?);
      events := Step(allEvents, events, f, 5, true);
      AllStages(allEvents, f);
      filteredEvents := events;
    }

    /** `handleClearFilters`: the initial filters, and every event shown. */
    method ClearFilters()
      modifies this
      ensures filters == InitialFilters && filteredEvents == allEvents && allEvents == old(allEvents)
    {
      filters := InitialFilters;
      filteredEvents := allEvents;
    }
  }

  /** The events shown after applying filters are an order-preserving selection of all events, each passing every active filter. */
  lemma AppliedIsSubsequence(all: seq<CatalogueEvent>, f: Filters)
    ensures IsSubsequence(Filter(all, MatchTest(f)), all)
    ensures forall e :: e in Filter(all, MatchTest(f)) <==> e in all && Matches(f, e)
  {
    FilterIsSubsequence(all, MatchTest(f));
    forall e ensures e in Filter(all, MatchTest(f)) <==> e in all && Matches(f, e) {
      FilterMember(all, MatchTest(f), e);
    }
  }

  /**
   * Applying the initial filters is not clearing them: an event without any valid price
   * is hidden by the one and shown by the other.
   */
  lemma InitialFiltersHideUnpriced(e: CatalogueEvent)
    ensures Matches(InitialFilters, e) <==> LowestPrice(e.ticketPrices).Some?
  {
    ParseEmpty(InitialFilters.minPrice);
    assert SearchOk(InitialFilters, e) && CityOk(InitialFilters, e) && GenreOk(InitialFilters, e);
    assert FromOk(InitialFilters, e) && ToOk(InitialFilters, e);
  }

  /** Separators between digit runs vanish, leaving the digits side by side. */
  lemma StripAroundPoint(whole: string, after: string, s: string)
    requires forall i :: 0 <= i < |whole| ==> IsDigit(whole[i])
    requires forall i :: 0 <= i < |after| ==> IsDigit(after[i])
    requires s == whole + ['.'] + after
    ensures StripSeparators(s) == whole + after
  {
    FilterAroundPoint(whole, after, s);
  }

  lemma FilterAroundPoint(whole: string, after: string, s: string)
    requires forall i :: 0 <= i < |whole| ==> IsDigit(whole[i])
    requires forall i :: 0 <= i < |after| ==> IsDigit(after[i])
    requires s == whole + ['.'] + after
    ensures Filter(s, KeepPriceChar) == whole + after
  {
    var tail := ['.'] + after;
    assert s == whole + tail;
    FilterAppend(whole, tail, KeepPriceChar);
    DigitsKept(whole);
    assert tail[0] == '.' && tail[1..] == after;
    DigitsKept(after);
  }

  /** A run of digits has no separator to remove. */
  lemma DigitsKept(digits: string)
    requires forall i :: 0 <= i < |digits| ==> IsDigit(digits[i])
    ensures Filter(digits, KeepPriceChar) == digits
  {
    forall i | 0 <= i < |digits| ensures KeepPriceChar(digits[i]) {
      assert IsDigit(digits[i]);
    }
    FilterKeepsAll(digits, KeepPriceChar);
  }

  /** "1.000" is one thousand: the thousands separator is removed. */
  lemma ThousandsSeparatorRemoved(s: string)
    requires s == "1.000"
    ensures CleanPrice(PriceText(s)) == Some(1000)
  {
    StripAroundPoint(s[..1], s[2..], s);
    assert StripSeparators(s) == DecimalString(1000);
    ParseIntOfDecimal(1000);
  }

  /** "1.00" loses its decimal point too, and reads as one hundred. */
  lemma DecimalPointRemoved(s: string)
    requires s == "1.00"
    ensures CleanPrice(PriceText(s)) == Some(100)
  {
    StripAroundPoint(s[..1], s[2..], s);
    assert StripSeparators(s) == DecimalString(100);
    ParseIntOfDecimal(100);
  }
}
