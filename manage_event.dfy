/**
 * The organiser's event management page: the attendee search of its own table, the
 * sold / capacity / revenue figures and the capacity bar, the chart of tickets sold, the
 * status label, the cancel button and request, and the CSV export of every attendee.
 */
module ManageEvent {
  import opened Wrappers
  import opened Seqs
  import opened Text
  import opened Csv
  import opened Ratios

  /** One attendee as the page receives it; the purchase date is already rendered as text. */
  datatype Attendee = Attendee(
    firstName: string,
    lastName: string,
    email: string,
    ticketType: string,
    status: string,
    uniqueCode: string,
    purchaseDate: string)

  // ---------------------------------------------------------------- search

  /** The first name, last name, e-mail or ticket code, each on its own, includes the term. */
  predicate Matches(term: string, a: Attendee)
  {
    ContainsIgnoringCase(a.firstName, term) || ContainsIgnoringCase(a.lastName, term) ||
    ContainsIgnoringCase(a.email, term) || ContainsIgnoringCase(a.uniqueCode, term)
  }

  function SearchTest(term: string): Attendee -> bool
  {
    a => Matches(term, a)
  }

  /** `filteredAttendees`: everyone for an empty term, the matching attendees otherwise. */
  function FilteredAttendees(attendees: seq<Attendee>, term: string): seq<Attendee>
  {
    if term == "" then attendees else Filter(attendees, SearchTest(term))
  }

  /**
   * The rows shown are the matching attendees in their original order; the empty-term
   * shortcut gives what the filter would have given anyway.
   */
  lemma FilteredAttendeesSpec(attendees: seq<Attendee>, term: string)
    ensures FilteredAttendees(attendees, term) == Filter(attendees, SearchTest(term))
    ensures IsSubsequence(FilteredAttendees(attendees, term), attendees)
    ensures forall a :: a in FilteredAttendees(attendees, term) <==> a in attendees && Matches(term, a)
  {
    if term == "" {
      forall i | 0 <= i < |attendees| ensures SearchTest(term)(attendees[i]) {
        ContainsEmpty(Lower(attendees[i].firstName));
      }
      FilterKeepsAll(attendees, SearchTest(term));
    }
    FilterIsSubsequence(attendees, SearchTest(term));
    forall a ensures a in FilteredAttendees(attendees, term) <==> a in attendees && Matches(term, a) {
      FilterMember(attendees, SearchTest(term), a);
    }
  }

  // ---------------------------------------------------------------- figures

  /** One ticket type's availability entry. */
  datatype TierStats = TierStats(ticketTypeName: string, price: nat, maximunCapacity: nat, capacitySold: nat)

  function SoldOf(t: TierStats): int { t.capacitySold }
  function CapacityOf(t: TierStats): int { t.maximunCapacity }
  function RevenueOf(t: TierStats): int { t.capacitySold * t.price }

  datatype Kpi = Kpi(sold: int, capacity: int, revenue: int)

  /** `kpiData`: the three reductions over the availability list. */
  function KpiData(tiers: seq<TierStats>): Kpi
  {
    Kpi(Sum(tiers, SoldOf), Sum(tiers, CapacityOf), Sum(tiers, RevenueOf))
  }

  /** The figures of two lists together are the sums of each list's figures. */
  lemma KpiAppend(a: seq<TierStats>, b: seq<TierStats>)
    ensures KpiData(a + b).sold == KpiData(a).sold + KpiData(b).sold
    ensures KpiData(a + b).capacity == KpiData(a).capacity + KpiData(b).capacity
    ensures KpiData(a + b).revenue == KpiData(a).revenue + KpiData(b).revenue
  {
    SumAppend(a, b, SoldOf);
    SumAppend(a, b, CapacityOf);
    SumAppend(a, b, RevenueOf);
  }

  /** No figure is negative, and when no tier is oversold the sold total stays within capacity. */
  lemma KpiBounds(tiers: seq<TierStats>)
    ensures KpiData(tiers).sold >= 0 && KpiData(tiers).capacity >= 0 && KpiData(tiers).revenue >= 0
    ensures (forall i :: 0 <= i < |tiers| ==> tiers[i].capacitySold <= tiers[i].maximunCapacity) ==>
              KpiData(tiers).sold <= KpiData(tiers).capacity
  {
    SumNonNegative(tiers, SoldOf);
    SumNonNegative(tiers, CapacityOf);
    SumNonNegative(tiers, RevenueOf);
    if forall i :: 0 <= i < |tiers| ==> tiers[i].capacitySold <= tiers[i].maximunCapacity {
      SumMonotone(tiers, SoldOf, CapacityOf);
    }
  }

  /** The "Aforo" bar: sold over capacity, as a percentage, 0 with no capacity. */
  function Progress(k: Kpi): real
  {
    if k.sold >= 0 && k.capacity >= 0 then Percent(k.sold, k.capacity)
    else 0.0
  }

  /** With no tier oversold the bar lies between 0 and 100, and is full exactly when everything sold. */
  lemma ProgressBounds(tiers: seq<TierStats>)
    requires forall i :: 0 <= i < |tiers| ==> tiers[i].capacitySold <= tiers[i].maximunCapacity
    ensures 0.0 <= Progress(KpiData(tiers)) <= 100.0
    ensures KpiData(tiers).capacity > 0 ==>
              (Progress(KpiData(tiers)) == 100.0 <==> KpiData(tiers).sold == KpiData(tiers).capacity)
  {
    KpiBounds(tiers);
    PercentAtMostHundred(KpiData(tiers).sold, KpiData(tiers).capacity);
  }

  /** The "Estado" figure: the status with its first letter upper-cased, or "N/A" when that is empty. */
  function StatusLabel(status: Option<string>): (text: string)
    ensures text != ""
    ensures status.None? || status == Some("") ==> text == "N/A"
    ensures status.Some? && status.value != "" ==>
              |text| == |status.value| && text[0] == UpperChar(status.value[0]) &&
              text[1..] == status.value[1..]
  {
    if status.None? || status.value == "" then "N/A" else Capitalize(status.value)
  }

  // ---------------------------------------------------------------- chart

  const SoldSeriesName: string := "Boletas Vendidas"

  datatype ChartState = ChartState(seriesName: string, data: seq<int>, categories: seq<string>)

  function TypeNameOf(t: TierStats): string { t.ticketTypeName }

  /** `chartState`: one bar per availability entry, named after its ticket type. */
  function Chart(tiers: seq<TierStats>): (c: ChartState)
    ensures c.seriesName == SoldSeriesName
    ensures |c.data| == |tiers| && |c.categories| == |tiers|
    ensures forall i :: 0 <= i < |tiers| ==>
              c.data[i] == tiers[i].capacitySold && c.categories[i] == tiers[i].ticketTypeName
  {
    ChartState(SoldSeriesName, Map(tiers, SoldOf), Map(tiers, TypeNameOf))
  }

  function Identity(x: int): int { x }

  /** The bars add up to the sold figure. */
  lemma ChartAddsUpToSold(tiers: seq<TierStats>)
    ensures Sum(Chart(tiers).data, Identity) == KpiData(tiers).sold
  {
    SumMap(tiers, SoldOf, Identity, SoldOf);
  }

  // ---------------------------------------------------------------- cancel

  const CancelLabel: string := "Cancelar Evento"
  const AlreadyCancelledLabel: string := "Evento ya Cancelado"

  datatype CancelButton = CancelButton(caption: string, disabled: bool)

  /** The danger-zone button. */
  function CancelButtonFor(loading: bool, status: Option<string>): (b: CancelButton)
    ensures b.disabled <==> loading || status == Some("cancelado")
    ensures b.caption == AlreadyCancelledLabel <==> status == Some("cancelado")
    ensures b.caption == CancelLabel || b.caption == AlreadyCancelledLabel
  {
    var cancelled := status == Some("cancelado");
    CancelButton(if cancelled then AlreadyCancelledLabel else CancelLabel, loading || cancelled)
  }

  /** A button that can be pressed always offers to cancel; a cancelled event cannot be cancelled again. */
  lemma EnabledButtonCancels(loading: bool, status: Option<string>)
    ensures !CancelButtonFor(loading, status).disabled ==> CancelButtonFor(loading, status).caption == CancelLabel
  {
  }

  /**
   * `handleCancelEvent`'s request path, given the route id, the session token and the
   * answer to the confirmation dialog: none without an id, a token or a confirmation.
   */
  function CancelPath(id: Option<string>, token: Option<string>, confirmed: bool): (path: Option<string>)
    ensures path.Some? <==> Truthy(id) && Truthy(token) && confirmed
    ensures path.Some? ==> |path.value| > 15 && path.value[..8] == "/events/" &&
                           path.value[8..|path.value| - 8] == id.value &&
                           path.value[|path.value| - 8..] == "/cancel/"
  {
    if !Truthy(id) || !Truthy(token) || !confirmed then None
    else Some("/events/" + id.value + "/cancel/")
  }

  // ---------------------------------------------------------------- export

  const Headers: seq<string> := ["Nombre", "Email", "Tipo de Boleta", "Estado", "Código", "Fecha de Compra"]

  /** The six cells of an attendee's row, in the header's order. */
  function Cells(a: Attendee): (cells: seq<string>)
    ensures |cells| == 6
  {
    [a.firstName + " " + a.lastName, a.email, a.ticketType, a.status, a.uniqueCode, a.purchaseDate]
  }

  function RowLine(a: Attendee): string
  {
    Line(Cells(a))
  }

  /** An attendee whose every cell is plain text. */
  predicate PlainAttendee(a: Attendee)
  {
    Plain(a.firstName) && Plain(a.lastName) && Plain(a.email) && Plain(a.ticketType) &&
    Plain(a.status) && Plain(a.uniqueCode) && Plain(a.purchaseDate)
  }

  /** `name.replace(/ /g, '_')`. */
  function Underscored(name: string): (r: string)
    ensures |r| == |name| && ' ' !in r
    ensures forall i :: 0 <= i < |name| && name[i] != ' ' ==> r[i] == name[i]
  {
    seq(|name|, i requires 0 <= i < |name| => if name[i] == ' ' then '_' else name[i])
  }

  /** The download's name; without the event's data the template prints `undefined`. */
  function FileName(eventName: Option<string>): (name: string)
    ensures ' ' !in name
    ensures |name| >= 15 && name[..11] == "asistentes_" && name[|name| - 4..] == ".csv"
  {
    "asistentes_" + Underscored(eventName.GetOr("undefined")) + ".csv"
  }

  datatype Download = Download(fileName: string, content: string)

  /**
   * `handleExportToCSV`: nothing without attendees; otherwise the header line and one line
   * per attendee, every attendee and not only those the search shows.
   */
  function ExportCsv(attendees: seq<Attendee>, eventName: Option<string>): (d: Option<Download>)
    ensures d.None? <==> attendees == []
    ensures d.Some? ==> d.value.fileName == FileName(eventName) && d.value.content == CsvText(attendees)
  {
    if attendees == [] then None
    else Some(Download(FileName(eventName), CsvText(attendees)))
  }

  /** `[headers.join(','), ...rows].join('\n')` behind the data-URI prefix. */
  function CsvText(attendees: seq<Attendee>): (text: string)
    ensures |text| > |DataPrefix| && text[..|DataPrefix|] == DataPrefix
  {
    DataPrefix + Join([Line(Headers)] + Map(attendees, RowLine), "\n")
  }

  /**
   * The header line is a single line that splits back into the six column names; the
   * attendees table's export has the twin lemma `AttendeesTable.HeaderLineCells`.
   */
  lemma HeaderLineCells()
    ensures SplitOn(Line(Headers), ',') == Headers
    ensures '\n' !in Line(Headers)
  {
    forall i | 0 <= i < |Headers| ensures Plain(Headers[i]) {
      assert Headers[i] in Headers;
    }
    LineCells(Headers);
  }

  /**
   * A row of a plain attendee is a single line that splits back into the attendee's
   * cells; the attendees table's export has the twin lemma `AttendeesTable.RowLineCells`.
   */
  lemma RowLineCells(a: Attendee)
    requires PlainAttendee(a)
    ensures SplitOn(RowLine(a), ',') == Cells(a)
    ensures '\n' !in RowLine(a)
  {
    var cells := Cells(a);
    forall i | 0 <= i < |cells| ensures Plain(cells[i]) {
    }
    LineCells(cells);
  }

  /** The rows of plain attendees are single lines that split back into their cells. */
  lemma RowsCells(attendees: seq<Attendee>)
    requires forall i :: 0 <= i < |attendees| ==> PlainAttendee(attendees[i])
    ensures forall i :: 0 <= i < |attendees| ==>
              SplitOn(RowLine(attendees[i]), ',') == Cells(attendees[i]) && '\n' !in RowLine(attendees[i])
  {
    forall i | 0 <= i < |attendees|
      ensures SplitOn(RowLine(attendees[i]), ',') == Cells(attendees[i]) && '\n' !in RowLine(attendees[i])
    {
      RowLineCells(attendees[i]);
    }
  }

  /**
   * The exported text is, line by line, the header and one row per attendee in order
   * (each of which reads back as that attendee's cells, by `RowsCells`).
   */
  lemma CsvTextLines(attendees: seq<Attendee>)
    requires forall i :: 0 <= i < |attendees| ==> PlainAttendee(attendees[i])
    ensures var lines := SplitOn(CsvText(attendees)[|DataPrefix|..], '\n');
            lines == [Line(Headers)] + Map(attendees, RowLine)
  {
    RowsOneLine(attendees);
    SingleLineRows(attendees);
  }

  /** The same, for any attendees whose rows are single lines. */
  lemma SingleLineRows(attendees: seq<Attendee>)
    requires SingleLines(Map(attendees, RowLine))
    ensures SplitOn(CsvText(attendees)[|DataPrefix|..], '\n') == [Line(Headers)] + Map(attendees, RowLine)
  {
    var header, rows, text := Line(Headers), Map(attendees, RowLine), CsvText(attendees);
    HeaderOneLine();
    assert text == DataPrefix + Join([header] + rows, "\n");
    PrefixedLines(header, rows, text);
  }

  lemma HeaderOneLine()
    ensures '\n' !in Line(Headers)
  {
    HeaderLineCells();
  }

  /** No row of a plain attendee breaks the line. */
  lemma RowsOneLine(attendees: seq<Attendee>)
    requires forall i :: 0 <= i < |attendees| ==> PlainAttendee(attendees[i])
    ensures SingleLines(Map(attendees, RowLine))
  {
    forall i | 0 <= i < |attendees| ensures '\n' !in Map(attendees, RowLine)[i] {
      RowOneLine(attendees, i);
    }
  }

  lemma RowOneLine(attendees: seq<Attendee>, i: nat)
    requires forall j :: 0 <= j < |attendees| ==> PlainAttendee(attendees[j])
    requires i < |attendees|
    ensures '\n' !in Map(attendees, RowLine)[i]
  {
    RowLineCells(attendees[i]);
  }
}
