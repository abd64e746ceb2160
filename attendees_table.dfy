/**
 * The attendee table component: a case-insensitive search over the full name, e-mail and
 * ticket code, a CSV export of the rows the search leaves, and the status badge colour.
 */
module AttendeesTable {
  import opened Seqs
  import opened Text
  import opened Csv

  /** One attendee as the table shows it; the purchase date is already rendered as text. */
  datatype Attendee = Attendee(
    id: nat,
    firstName: string,
    lastName: string,
    email: string,
    ticketTypeName: string,
    status: string,
    uniqueCode: string,
    purchaseDate: string)

  /** `${first_name} ${last_name}`. */
  function FullName(a: Attendee): string
  {
    a.firstName + " " + a.lastName
  }

  // ---------------------------------------------------------------- search

  /** The full name, e-mail or ticket code includes the term, ignoring case. */
  predicate Matches(term: string, a: Attendee)
  {
    ContainsIgnoringCase(FullName(a), term) || ContainsIgnoringCase(a.email, term) ||
    ContainsIgnoringCase(a.uniqueCode, term)
  }

  function SearchTest(term: string): Attendee -> bool
  {
    a => Matches(term, a)
  }

  /** `filteredAttendees`. */
  function FilteredAttendees(attendees: seq<Attendee>, term: string): seq<Attendee>
  {
    Filter(attendees, SearchTest(term))
  }

  /** The rows shown are the matching attendees, in their original order. */
  lemma FilteredAttendeesSpec(attendees: seq<Attendee>, term: string)
    ensures IsSubsequence(FilteredAttendees(attendees, term), attendees)
    ensures forall a :: a in FilteredAttendees(attendees, term) <==> a in attendees && Matches(term, a)
  {
    FilterIsSubsequence(attendees, SearchTest(term));
    forall a ensures a in FilteredAttendees(attendees, term) <==> a in attendees && Matches(term, a) {
      FilterMember(attendees, SearchTest(term), a);
    }
  }

  /** There is no special case for an empty search: every string includes it. */
  lemma EmptySearchShowsAll(attendees: seq<Attendee>)
    ensures FilteredAttendees(attendees, "") == attendees
  {
    forall i | 0 <= i < |attendees| ensures SearchTest("")(attendees[i]) {
      ContainsEmpty(Lower(FullName(attendees[i])));
    }
    FilterKeepsAll(attendees, SearchTest(""));
  }

  // ---------------------------------------------------------------- export

  const Headers: seq<string> := ["Nombre", "Email", "Tipo de Boleta", "Estado Boleta", "Código", "Fecha de Compra"]

  /** The six cells of an attendee's row, in the header's order. */
  function Cells(a: Attendee): (cells: seq<string>)
    ensures |cells| == 6
  {
    [FullName(a), a.email, a.ticketTypeName, a.status, a.uniqueCode, a.purchaseDate]
  }

  function RowLine(a: Attendee): string
  {
    Line(Cells(a))
  }

  /** An attendee whose every cell is plain text. */
  predicate PlainAttendee(a: Attendee)
  {
    Plain(a.firstName) && Plain(a.lastName) && Plain(a.email) && Plain(a.ticketTypeName) &&
    Plain(a.status) && Plain(a.uniqueCode) && Plain(a.purchaseDate)
  }

  /** `exportToCSV`'s text: the header line, a line break, then the filtered rows joined by line breaks. */
  function ExportCsv(attendees: seq<Attendee>, term: string): (csv: string)
    ensures |csv| > |DataPrefix| && csv[..|DataPrefix|] == DataPrefix
  {
    DataPrefix + HeaderThenRowsText(Line(Headers), Map(FilteredAttendees(attendees, term), RowLine))
  }

  /**
   * The header line is a single line that splits back into the six column names. The
   * management page's export has its own copy of this lemma, `ManageEvent.HeaderLineCells`,
   * because the source writes the CSV export twice, over each page's own column list.
   */
  lemma HeaderLineCells()
    ensures SplitOn(Line(Headers), ',') == Headers
    ensures '\n' !in Line(Headers)
  {
    forall i | 0 <= i < |Headers| ensures Plain(Headers[i]) {
      assert Headers[i] in Headers;
    }
    LineCells(Headers);
  }

  /**
   * Every row of plain attendees is a single line that splits back into the attendee's
   * cells; `ManageEvent.RowLineCells` is the same fact for the management page's export.
   */
  lemma RowLineCells(a: Attendee)
    requires PlainAttendee(a)
    ensures SplitOn(RowLine(a), ',') == Cells(a)
    ensures '\n' !in RowLine(a)
  {
    var cells := Cells(a);
    forall i | 0 <= i < |cells| ensures Plain(cells[i]) {
    }
    LineCells(cells);
  }

  /** The rows of the attendees the search leaves, when every attendee is plain. */
  lemma ShownRowsCells(attendees: seq<Attendee>, term: string)
    requires forall i :: 0 <= i < |attendees| ==> PlainAttendee(attendees[i])
    ensures var shown := FilteredAttendees(attendees, term);
            forall i :: 0 <= i < |shown| ==>
              SplitOn(RowLine(shown[i]), ',') == Cells(shown[i]) && '\n' !in RowLine(shown[i])
  {
    var shown := FilteredAttendees(attendees, term);
    forall i | 0 <= i < |shown|
      ensures SplitOn(RowLine(shown[i]), ',') == Cells(shown[i]) && '\n' !in RowLine(shown[i])
    {
      FilterMember(attendees, SearchTest(term), shown[i]);
      RowLineCells(shown[i]);
    }
  }

  /**
   * The export holds, line by line, the header and then one row per attendee the search
   * leaves (each of which reads back as that attendee's cells, by `ShownRowsCells`). With
   * no rows it still ends in a line break, so it splits into the header and an empty last line.
   */
  lemma ExportCsvLines(attendees: seq<Attendee>, term: string)
    requires forall i :: 0 <= i < |attendees| ==> PlainAttendee(attendees[i])
    ensures var shown := FilteredAttendees(attendees, term);
            var lines := SplitOn(ExportCsv(attendees, term)[|DataPrefix|..], '\n');
            lines == [Line(Headers)] + Map(shown, RowLine) + (if shown == [] then [""] else [])
  {
    var shown := FilteredAttendees(attendees, term);
    var rows := Map(shown, RowLine);
    var header := Line(Headers);
    AfterPrefix(HeaderThenRowsText(header, rows));
    HeaderLineCells();
    ShownRowsCells(attendees, term);
    HeaderThenRows(header, rows);
  }

  // ---------------------------------------------------------------- badge

  /** The badge colour of a ticket status. */
  function BadgeColor(status: string): (color: string)
    ensures color == "success" <==> status == "Comprada"
    ensures color == "warning" <==> status == "Usada"
    ensures color == "default" <==> status != "Comprada" && status != "Usada"
  {
    if status == "Comprada" then "success"
    else if status == "Usada" then "warning"
    else "default"
  }
}
