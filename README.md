# Zambrano ticketing frontend — rule logic in Dafny

Zambrano is a ticketing web application. This project models the rules its React
frontend applies on the client side and proves properties of them:

- the public catalogue, with its price cleaning, lowest-price rule and filter chain;
- the public event page, with its picture, tier selection, quantity, order price and
  checkout button;
- the organiser's event creation and edition forms:
  - the text fields and the resets tied to country and department;
  - the ticket tiers ("boletas") with their distinct-type and capacity rules;
  - the multipart request body each form builds, and how each renders server errors;
- the organiser's event management page and "my events" list:
  - figures, progress bars, the sales chart and the status label;
  - the cancel button and its request;
  - the attendee search and the CSV exports;
- the buyer's ticket list and the QR panel of a ticket, with its 15-second renewal;
- the administrators' user and ticket-type pages: filters, request paths and payloads,
  and their dialogs;
- the sign-up form's input sanitising and submission;
- the sidebar's role-based menu pruning and submenu auto-opening;
- the two route guards.

**How the model is built**

- Pure computations are functions, each with lemmas that tie it to an independent
  description. A filter, for instance, is shown to be an order-preserving selection of
  exactly the matching items.
- Component state that handlers update is a `class`:
  - its handlers are methods that state the whole new state;
  - class invariants are kept where the source relies on them, such as no two tiers
    sharing a ticket type.
- The server, the clock and the user's choices are inputs of these methods:
  - the reply to a request, or `None` when the request fails;
  - `Date.now()`;
  - the session token.

**Number and string semantics**

- `parseInt`, `parseFloat`, `toLowerCase`, `includes`, `join` and `split` are written
  out in `Text`, with the edge cases the pages depend on:
  - leading white space and a sign;
  - a trailing non-digit;
  - `NaN` as `None`.
- Dafny integers are unbounded. None of the modelled computations wraps around in
  JavaScript at the sizes involved, so no wrap-around is modelled.

Source paths are relative to the repository root.

## Model

| member | source | states |
|---|---|---|
| AllEvents.StripSeparators | frontend/src/pages/Events/AllEventsPage.tsx:52 | the cleaned text holds no '.', ',' or white space; it keeps the other characters in their order (a subsequence of the input), and a character occurs in it exactly when it occurs in the input and is no separator |
| AllEvents.CleanPrice | frontend/src/pages/Events/AllEventsPage.tsx:50-54 | a false price (missing, "" or 0) is NaN; otherwise the price is `parseFloat` of the stripped text, which is always whole |
| AllEvents.CleanPriceOfNumber | frontend/src/pages/Events/AllEventsPage.tsx:50-54 | a positive number is its own price, and 0 is treated as no price |
| AllEvents.StripSeparatorsIdempotent | frontend/src/pages/Events/AllEventsPage.tsx:52 | cleaning an already cleaned price changes nothing |
| AllEvents.ThousandsSeparatorRemoved | frontend/src/pages/Events/AllEventsPage.tsx:50-54 | "1.000" reads as 1000 |
| AllEvents.DecimalPointRemoved | frontend/src/pages/Events/AllEventsPage.tsx:50-54 | "1.00" also loses its point and reads as 100, not 1 |
| AllEvents.StripAroundPoint | frontend/src/pages/Events/AllEventsPage.tsx:52 | a point between two digit runs vanishes, leaving the digits joined |
| AllEvents.MinPresent | frontend/src/pages/Events/AllEventsPage.tsx:63-64 | none exactly when no value is present; otherwise a present value no larger than any other |
| AllEvents.LowestPrice | frontend/src/pages/Events/AllEventsPage.tsx:56-65 | no price without ticket types; otherwise the least non-NaN cleaned price, or none when every price is NaN |
| AllEvents.Narrow | frontend/src/pages/Events/AllEventsPage.tsx:72-106 | filtering by one more stage gives the list filtered by the first k+1 stages |
| AllEvents.Skip | frontend/src/pages/Events/AllEventsPage.tsx:72-93 | a stage whose input is empty or "Todas"/"Todos" passes everything, so skipping it is filtering by it |
| AllEvents.NoStage | frontend/src/pages/Events/AllEventsPage.tsx:68 | before any stage the list is every event |
| AllEvents.AllStages | frontend/src/pages/Events/AllEventsPage.tsx:72-106 | the six stages together are the conjunctive catalogue filter |
| AllEvents.Step | frontend/src/pages/Events/AllEventsPage.tsx:72-106 | one `if (...) events = events.filter(...)`: the result is the list filtered by the first k+1 stages, whether or not the stage is active |
| AllEvents.Catalogue.constructor | frontend/src/pages/Events/AllEventsPage.tsx:7-48 | the loaded events are all shown, with the initial filters |
| AllEvents.Catalogue.SetFilters | frontend/src/pages/Events/AllEventsPage.tsx:13-21 | a filter input changes the filters and nothing else |
| AllEvents.Catalogue.ApplyFilters | frontend/src/pages/Events/AllEventsPage.tsx:67-109 | the events shown are exactly those of the catalogue passing every active filter, in order |
| AllEvents.Catalogue.ClearFilters | frontend/src/pages/Events/AllEventsPage.tsx:111-114 | the initial filters are back and every event is shown |
| AllEvents.AppliedIsSubsequence | frontend/src/pages/Events/AllEventsPage.tsx:67-109 | the applied list is an order-preserving selection of the events, holding exactly those that match |
| AllEvents.InitialFiltersHideUnpriced | frontend/src/pages/Events/AllEventsPage.tsx:95-114 | applying the initial filters keeps exactly the events with a lowest price, so it hides events that clearing shows |
| AttendeesTable.FilteredAttendeesSpec | frontend/src/components/events/AttendeesTable.tsx:27-33 | the rows are the attendees whose full name, e-mail or code includes the term ignoring case, in order |
| AttendeesTable.EmptySearchShowsAll | frontend/src/components/events/AttendeesTable.tsx:27-33 | an empty search shows every attendee |
| AttendeesTable.Cells | frontend/src/components/events/AttendeesTable.tsx:37-44 | a row has the six cells of the header |
| AttendeesTable.ExportCsv | frontend/src/components/events/AttendeesTable.tsx:35-47 | the export starts with the CSV data-URI prefix |
| AttendeesTable.HeaderLineCells | frontend/src/components/events/AttendeesTable.tsx:36 | the header line is one line that splits back into the six column names |
| AttendeesTable.RowLineCells | frontend/src/components/events/AttendeesTable.tsx:37-44 | a row of plain cells is one line that splits back into the attendee's cells |
| AttendeesTable.ShownRowsCells | frontend/src/components/events/AttendeesTable.tsx:37-47 | every row of the searched attendees reads back as that attendee's cells |
| AttendeesTable.ExportCsvLines | frontend/src/components/events/AttendeesTable.tsx:46-47 | line by line, the export is the header, then one row per searched attendee; with no rows there is a trailing empty line |
| AttendeesTable.BadgeColor | frontend/src/components/events/AttendeesTable.tsx:96-99 | "Comprada" is success, "Usada" is warning, anything else is default, each in both directions |
| CapacityChart.Categories | frontend/src/components/events/EventCapacityChart.tsx:40 | one category per tier, its ticket type, in input order |
| CapacityChart.ChartSeries | frontend/src/components/events/EventCapacityChart.tsx:61-70 | two series, sold then available, one value per tier; each tier's two bars stack up to its capacity |
| CapacityChart.AvailableNonNegative | frontend/src/components/events/EventCapacityChart.tsx:68 | no available bar is negative while no tier is oversold |
| CapacityChart.TotalsAddUp | frontend/src/components/events/EventCapacityChart.tsx:61-70 | summed over the chart, sold plus available is the total capacity |
| CapacityChart.SumOfParts | frontend/src/components/events/EventCapacityChart.tsx:64-68 | summing sold and available separately is summing capacities |
| Csv.LineCells | frontend/src/components/events/AttendeesTable.tsx:46-47 | a line of plain cells has no line break and splits on ',' back into its cells |
| Csv.HeaderThenRows | frontend/src/components/events/AttendeesTable.tsx:46-47 | header, "\n", then rows joined by "\n" splits into the header and the rows, plus an empty line when there are none |
| Csv.JoinedLines | frontend/src/pages/Events/ManageEvent.tsx:190 | `[header, ...rows].join('\n')` after the prefix splits back into exactly the header and the rows |
| Csv.PrefixedLines | frontend/src/pages/Events/ManageEvent.tsx:190 | a text built as prefix plus joined single lines splits, after the prefix, into those lines |
| TicketTiers.ConfiguredCapacityNonNegative | frontend/src/pages/Events/CreateEvent.tsx:41 | the configured capacity is never negative |
| TicketTiers.CheckAdd | frontend/src/pages/Events/CreateEvent.tsx:116-148 | an incomplete draft is missing a field, in both directions; a complete one whose type is configured is a duplicate, in both directions; an overflow names a positive total that the configured capacity plus the draft's exceeds, and comes only from a complete draft of a new type whose capacity it reports; a complete draft of a new type is added exactly when it does not overflow a positive event capacity; an accepted tier is the draft's and has a new type |
| TicketTiers.DecideAdd | frontend/src/pages/Events/CreateEvent.tsx:116-148 | the guards taken in the handler's order decide exactly as `CheckAdd` |
| TicketTiers.AddError | frontend/src/pages/Events/CreateEvent.tsx:117-145 | every refusal shows a non-empty message |
| TicketTiers.AfterAdd | frontend/src/pages/Events/CreateEvent.tsx:150-158 | the tiers keep their prefix and grow by at most one |
| TicketTiers.AddStep | frontend/src/pages/Events/CreateEvent.tsx:116-159 | an accepted draft is appended, the draft emptied and the error cleared; a refused one keeps the draft and shows that refusal's message |
| TicketTiers.AddKeepsTypesDistinct | frontend/src/pages/Events/CreateEvent.tsx:122-128 | adding keeps ticket types distinct |
| TicketTiers.AddKeepsWithinTotal | frontend/src/pages/Events/CreateEvent.tsx:130-148 | adding keeps the tiers within a positive event capacity |
| TicketTiers.AddPreserves | frontend/src/pages/Events/CreateEvent.tsx:116-159 | each of the two tier invariants that held before an add holds after it |
| TicketTiers.AddCapacity | frontend/src/pages/Events/CreateEvent.tsx:150-156 | an accepted add grows the configured capacity by the draft's capacity; a refused one leaves the tiers unchanged |
| TicketTiers.RemoveKeepsTypesDistinct | frontend/src/pages/Events/CreateEvent.tsx:161-163 | removing keeps ticket types distinct |
| TicketTiers.RemoveFreesCapacity | frontend/src/pages/Events/CreateEvent.tsx:161-163 | removing a tier frees exactly its capacity |
| TicketTiers.RemoveKeepsWithinTotal | frontend/src/pages/Events/CreateEvent.tsx:161-163 | removing keeps the tiers within the event capacity |
| TicketTiers.RemainingNonNegative | frontend/src/pages/Events/CreateEvent.tsx:40-42 | within a positive capacity, the remaining capacity shown is never negative |
| CreateEvent.CreatePlaceKeys | frontend/src/pages/Events/CreateEvent.tsx:201-216 | `location` is sent exactly for Colombia, and `city_text` and `department_text` exactly elsewhere |
| CreateEvent.CreateOptionalKeys | frontend/src/pages/Events/CreateEvent.tsx:191-199 | each optional field is sent exactly when its input is filled in |
| CreateEvent.CreateKeysShape | frontend/src/pages/Events/CreateEvent.tsx:179-218 | every required field is sent, the tiers once and last, and never the image |
| CreateEvent.CreateEventForm.constructor | frontend/src/pages/Events/CreateEvent.tsx:9-39 | a blank form over the city catalogue, with no tiers and no error |
| CreateEvent.CreateEventForm.ChangeField | frontend/src/pages/Events/CreateEvent.tsx:84-103 | the fields become the changed fields, and the cities offered follow a department choice; nothing else changes |
| CreateEvent.CreateEventForm.ChooseFile | frontend/src/pages/Events/CreateEvent.tsx:105-109 | the picked file is remembered and nothing else changes |
| CreateEvent.CreateEventForm.ChangeDraft | frontend/src/pages/Events/CreateEvent.tsx:111-114 | one input of the draft takes the value |
| CreateEvent.CreateEventForm.AddTicket | frontend/src/pages/Events/CreateEvent.tsx:116-159 | tiers, draft and error become those of `AddStep`, and ticket types stay distinct |
| CreateEvent.CreateEventForm.RemoveTicket | frontend/src/pages/Events/CreateEvent.tsx:161-163 | the tier at the index is dropped, the rest kept in order, and the capacity rule still holds |
| CreateEvent.CreateEventForm.CreateBody | frontend/src/pages/Events/CreateEvent.tsx:179-218 | no body exactly when the place the country needs is missing; otherwise the body has the keys of `CreateKeys`, each carrying its value |
| CreateEvent.CreateEventForm.Submit | frontend/src/pages/Events/CreateEvent.tsx:165-262 | a request is sent exactly with a non-empty token, some tiers and the place given; each refusal sets its error; the reply sets the error and loading ends |
| EventForms.KeyName | frontend/src/pages/Events/CreateEvent.tsx:181-218 | every key has a non-empty wire name |
| EventForms.Set | frontend/src/pages/Events/CreateEvent.tsx:86 | the one field takes the value and every other field keeps its own |
| EventForms.InitialFieldsValues | frontend/src/pages/Events/CreateEvent.tsx:9-26 | only the country ("Colombia") and the status start filled in |
| EventForms.DepartmentCities | frontend/src/pages/Events/EditEvent.tsx:107 | the cities of one department, in catalogue order: a subsequence of the catalogue holding exactly its cities of that department |
| EventForms.CitiesOf | frontend/src/pages/Events/CreateEvent.tsx:88-90 | the cities offered are, in order, exactly those whose department is `parseInt` of the choice |
| EventForms.ChangedResets | frontend/src/pages/Events/CreateEvent.tsx:84-103 | the edited field takes the value, a department change clears the city, a country change clears the place fields, and nothing else moves |
| EventForms.CountKeyAppend | frontend/src/pages/Events/EditEvent.tsx:249-266 | key occurrences add up over concatenated appends |
| EventForms.CountKeyAbsent | frontend/src/pages/Events/EditEvent.tsx:249-266 | a key occurs zero times exactly when it is absent |
| EventForms.TextEntriesCarry | frontend/src/pages/Events/CreateEvent.tsx:181-199 | text appends carry the form's values |
| EventForms.CarriesAppend | frontend/src/pages/Events/CreateEvent.tsx:179-218 | a body carries its values exactly when both of its parts do |
| EventForms.Append | frontend/src/pages/Events/CreateEvent.tsx:218 | one append adds the entry at the end |
| EventForms.AppendText | frontend/src/pages/Events/CreateEvent.tsx:181 | a text append adds the form's value under its key |
| EventForms.AppendRequired | frontend/src/pages/Events/CreateEvent.tsx:181-189 | the nine required keys are appended in order, with the form's values |
| EventForms.AppendOptional | frontend/src/pages/Events/CreateEvent.tsx:191-199 | the filled-in optional keys are appended, with the form's values |
| EventForms.CreateErrorTextAppend | frontend/src/pages/Events/CreateEvent.tsx:233-249 | each key of the error object gives one part, in order, separated by " \| " |
| EventForms.EditErrorTextAppend | frontend/src/pages/Events/EditEvent.tsx:281-285 | the same holds of the edition form's message |
| EventForms.SingleErrorText | frontend/src/pages/Events/CreateEvent.tsx:235-249 | a one-key error renders as `key: message` on both forms |
| EventForms.PlainErrorsAgree | frontend/src/pages/Events/EditEvent.tsx:281-285 | on plain messages both forms render the same text |
| EventForms.ListErrorsDiffer | frontend/src/pages/Events/CreateEvent.tsx:238-246 | on a list of messages the creation form joins with ", " and the edition form with "," |
| EditEvent.Normalize | frontend/src/pages/Events/EditEvent.tsx:86-94 | one flat tier per loaded tier, with the nested type's id, the price and the capacity |
| EditEvent.NormalizeKeepsCapacity | frontend/src/pages/Events/EditEvent.tsx:86-96 | normalising keeps the total capacity |
| EditEvent.NormalizeKeepsTypes | frontend/src/pages/Events/EditEvent.tsx:90-94 | the normalised tiers have distinct types exactly when the loaded ones do |
| EditEvent.NormalizeMissing | frontend/src/pages/Events/EditEvent.tsx:86 | no tiers when the event has none |
| EditEvent.FindCity | frontend/src/pages/Events/EditEvent.tsx:105 | no city exactly when none has the id; otherwise the first catalogue city with that id |
| EditEvent.LoadedCitiesSpec | frontend/src/pages/Events/EditEvent.tsx:104-112 | a truthy location naming a catalogue city offers exactly that city's department's cities, the city among them; a missing, zero or unknown location leaves the offered cities as they were |
| EditEvent.EditImageEntries | frontend/src/pages/Events/EditEvent.tsx:249-266 | `image` is sent twice for a new file, once as empty when the current image was removed, and never when it is kept |
| EditEvent.EditPlaceKeysPresence | frontend/src/pages/Events/EditEvent.tsx:239-247 | `location` is sent exactly for Colombia with a chosen city, and the typed place exactly elsewhere |
| EditEvent.EditTiersKey | frontend/src/pages/Events/EditEvent.tsx:260-261 | the tiers go under `ticket_type_json`, never `ticket_type` |
| EditEvent.EditEventForm.constructor | frontend/src/pages/Events/EditEvent.tsx:11-42 | blank fields, no tiers, loading |
| EditEvent.EditEventForm.Load | frontend/src/pages/Events/EditEvent.tsx:47-124 | requests are made exactly with a non-empty token and id, and otherwise nothing changes; on success the form takes the event's fields, its image as the current one, no picked file, the tiers normalised, the catalogue and the cities of the location's department; on failure only the error changes, to the thrown message or the fallback when it is empty; loading ends either way |
| EditEvent.EditEventForm.ChangeField | frontend/src/pages/Events/EditEvent.tsx:126-145 | the same change rule as on creation; nothing else changes |
| EditEvent.EditEventForm.ChooseFile | frontend/src/pages/Events/EditEvent.tsx:147-151 | the picked file replaces the current image |
| EditEvent.EditEventForm.RemoveImage | frontend/src/pages/Events/EditEvent.tsx:376 | both the current image and any picked file are dropped |
| EditEvent.EditEventForm.ChangeDraft | frontend/src/pages/Events/EditEvent.tsx:153-156 | one input of the draft takes the value |
| EditEvent.EditEventForm.AddTicket | frontend/src/pages/Events/EditEvent.tsx:158-194 | tiers, draft and error become those of `AddStep` |
| EditEvent.EditEventForm.RemoveTicket | frontend/src/pages/Events/EditEvent.tsx:196-198 | the tier at the index is dropped, the rest kept in order |
| EditEvent.EditEventForm.AppendTexts | frontend/src/pages/Events/EditEvent.tsx:218-247 | the required, the filled optional and the place keys, with the form's values |
| EditEvent.EditEventForm.AppendImageAndTiers | frontend/src/pages/Events/EditEvent.tsx:249-266 | the image entry, the tiers, and the file a second time, each with its value |
| EditEvent.EditEventForm.EditBody | frontend/src/pages/Events/EditEvent.tsx:214-266 | the body has the keys of `EditKeys`, each carrying its value |
| EditEvent.EditEventForm.Submit | frontend/src/pages/Events/EditEvent.tsx:200-298 | a request is sent exactly with a non-empty token and some tiers, with the place unchecked; each refusal sets its error |
| EventDetail.EventImage | frontend/src/pages/Events/EventDetailPage.tsx:21-32 | the event's own image exactly when it is not blank; otherwise the category default exactly when the lower-cased category has one |
| EventDetail.KnownCategoryHasPicture | frontend/src/pages/Events/EventDetailPage.tsx:9-32 | a known category always has a picture, and an uploaded one wins |
| EventDetail.CategoryIgnoresCase | frontend/src/pages/Events/EventDetailPage.tsx:26-28 | categories equal up to case get the same picture |
| EventDetail.FirstAvailable | frontend/src/pages/Events/EventDetailPage.tsx:57-61 | none exactly when no tier has tickets left; otherwise the first such tier |
| EventDetail.FirstAvailableIsHeadOfFilter | frontend/src/pages/Events/EventDetailPage.tsx:58-60 | `find` is the head of `filter` by the same test |
| EventDetail.AlmostSoldOutPercentage | frontend/src/pages/Events/EventDetailPage.tsx:274-275 | the integer test `5·sold > 4·max` agrees with `sold/max·100 > 80`, zero capacity included |
| EventDetail.CheckoutButton | frontend/src/pages/Events/EventDetailPage.tsx:138-156 | the chain of overrides ends at the first rule that applies |
| EventDetail.ButtonEnabledIff | frontend/src/pages/Events/EventDetailPage.tsx:138-156 | enabled exactly for an active event with a selected tier that is not exactly sold out |
| EventDetail.ButtonLabelDecidesDisabled | frontend/src/pages/Events/EventDetailPage.tsx:138-156 | disabled exactly when the label is not "get tickets" |
| EventDetail.StatusWinsOverSelection | frontend/src/pages/Events/EventDetailPage.tsx:141-149 | a scheduled, cancelled or finished event ignores the selection |
| EventDetail.PanelButtonNeedsActive | frontend/src/pages/Events/EventDetailPage.tsx:252 | where the panel shows, only an active event enables the button, and a scheduled one says sales open soon |
| EventDetail.Subtotal | frontend/src/pages/Events/EventDetailPage.tsx:86 | nothing without a selection; under the panel's invariant at least one ticket's price and at most the price of every ticket left |
| EventDetail.Total | frontend/src/pages/Events/EventDetailPage.tsx:86-88 | the total is the subtotal, the service fee being zero: nothing without a selection, and within one ticket's price and every ticket left's price under the panel's invariant |
| EventDetail.PurchasePanel.constructor | frontend/src/pages/Events/EventDetailPage.tsx:41-42 | no selection, quantity one |
| EventDetail.PurchasePanel.Load | frontend/src/pages/Events/EventDetailPage.tsx:57-63 | with tiers, the first available one is selected and the quantity is one; without tiers nothing changes |
| EventDetail.PurchasePanel.ClickTier | frontend/src/pages/Events/EventDetailPage.tsx:280-285 | a click selects the tier with quantity one exactly when it has tickets left and the event is active |
| EventDetail.PurchasePanel.Decrement | frontend/src/pages/Events/EventDetailPage.tsx:386 | one less, never below one |
| EventDetail.PurchasePanel.Increment | frontend/src/pages/Events/EventDetailPage.tsx:403-404 | one more, never above the tickets left |
| EventDetail.ValidSelectionNotSoldOut | frontend/src/pages/Events/EventDetailPage.tsx:153-155 | a valid selection never shows "Boleta Agotada" |
| ManageEvent.FilteredAttendeesSpec | frontend/src/pages/Events/ManageEvent.tsx:33-41 | the empty-term shortcut equals the filter; rows are the attendees matching by first name, last name, e-mail or code, in order |
| ManageEvent.KpiAppend | frontend/src/pages/Events/ManageEvent.tsx:201-206 | the figures add up over concatenated lists |
| ManageEvent.KpiBounds | frontend/src/pages/Events/ManageEvent.tsx:201-206 | no figure is negative, and sold is within capacity when no tier is oversold |
| ManageEvent.ProgressBounds | frontend/src/pages/Events/ManageEvent.tsx:209 | the bar lies in 0..100 and is full exactly when everything is sold |
| ManageEvent.StatusLabel | frontend/src/pages/Events/ManageEvent.tsx:211 | "N/A" for a missing or empty status, otherwise the status capitalised |
| ManageEvent.Chart | frontend/src/pages/Events/ManageEvent.tsx:214-217 | one bar per entry, named after its ticket type, with its sold count |
| ManageEvent.ChartAddsUpToSold | frontend/src/pages/Events/ManageEvent.tsx:202-215 | the bars add up to the sold figure |
| ManageEvent.CancelButtonFor | frontend/src/pages/Events/ManageEvent.tsx:251-252 | disabled exactly while loading or when cancelled; the "already cancelled" caption exactly when cancelled |
| ManageEvent.EnabledButtonCancels | frontend/src/pages/Events/ManageEvent.tsx:251-252 | an enabled button always offers to cancel |
| ManageEvent.CancelPath | frontend/src/pages/Events/ManageEvent.tsx:154-176 | a request exactly with an id, a token and a confirmation, to `/events/{id}/cancel/` |
| ManageEvent.Cells | frontend/src/pages/Events/ManageEvent.tsx:181-188 | a row has the six cells of the header |
| ManageEvent.Underscored | frontend/src/pages/Events/ManageEvent.tsx:194 | no spaces are left, and every other character is kept in place |
| ManageEvent.FileName | frontend/src/pages/Events/ManageEvent.tsx:194 | `asistentes_…csv`, without spaces |
| ManageEvent.ExportCsv | frontend/src/pages/Events/ManageEvent.tsx:178-198 | nothing exactly when there are no attendees; otherwise that file name and `CsvText` of every attendee |
| ManageEvent.CsvText | frontend/src/pages/Events/ManageEvent.tsx:190 | the text starts with the data-URI prefix |
| ManageEvent.HeaderLineCells | frontend/src/pages/Events/ManageEvent.tsx:180 | the header line splits back into the six column names |
| ManageEvent.RowLineCells | frontend/src/pages/Events/ManageEvent.tsx:181-188 | a plain row is one line that splits back into its cells |
| ManageEvent.RowsCells | frontend/src/pages/Events/ManageEvent.tsx:181-188 | every plain row reads back as its attendee's cells |
| ManageEvent.CsvTextLines | frontend/src/pages/Events/ManageEvent.tsx:180-190 | line by line, the export is the header, then one row per attendee, in order |
| MyEvents.StatusStyle | frontend/src/pages/Events/MyEvents.tsx:7-18 | green, red or blue exactly for "activo", "cancelado" or "finalizado" after lower-casing; gray otherwise |
| MyEvents.StyleIgnoresCase | frontend/src/pages/Events/MyEvents.tsx:15 | the style does not depend on capitalisation |
| MyEvents.FetchSold | frontend/src/pages/Events/MyEvents.tsx:26-47 | nothing without a token or an id; otherwise the sold sum over the reply, or 0 on failure |
| MyEvents.RowProgress | frontend/src/pages/Events/MyEvents.tsx:49-50 | never negative, and 0 without a sold count or a capacity |
| MyEvents.RowProgressBounds | frontend/src/pages/Events/MyEvents.tsx:49-50 | at most 100 when within capacity, and monotone in the sold count |
| MyEvents.PageTitle | frontend/src/pages/Events/MyEvents.tsx:111-114 | the administrator title exactly for a superuser |
| MyEvents.StartLoad | frontend/src/pages/Events/MyEvents.tsx:116-135 | an error exactly without a token or a user; every event exactly for an administrator |
| MyEvents.TitleMatchesEndpoint | frontend/src/pages/Events/MyEvents.tsx:111-135 | the title announces every event exactly when every event is requested |
| MyTickets.VisibleSpec | frontend/src/pages/MyTickets.tsx:71-88 | the tickets shown are, in order, those passing the status and name filters; with neither filter, all of them |
| MyTickets.TicketsPage.constructor | frontend/src/pages/MyTickets.tsx:30-36 | no tickets, loading, no filters, and the list in sync |
| MyTickets.TicketsPage.Refilter | frontend/src/pages/MyTickets.tsx:71-88 | the list shown becomes the filtered list |
| MyTickets.TicketsPage.SetFilter | frontend/src/pages/MyTickets.tsx:36 | the status filter changes and the list follows |
| MyTickets.TicketsPage.SetSearch | frontend/src/pages/MyTickets.tsx:34 | the search changes and the list follows |
| MyTickets.TicketsPage.Fetch | frontend/src/pages/MyTickets.tsx:38-69 | a request exactly with a token; the reply replaces the tickets, or the error is set; loading ends |
| Ratios.Percent | frontend/src/pages/Events/MyEvents.tsx:50 | never negative, and 0 for a zero whole |
| Ratios.PercentAtMostHundred | frontend/src/pages/Events/ManageEvent.tsx:209 | a part within the whole is at most 100, and exactly 100 when they are equal |
| Ratios.PercentMonotone | frontend/src/pages/Events/MyEvents.tsx:50 | a larger part never gives a shorter bar |
| Routes.ProtectedRoute | frontend/src/routes/AppRoutes.tsx:5-22 | a loader while loading; then the pages exactly when authenticated, else a redirect to sign-in |
| Routes.PublicRoute | frontend/src/routes/AppRoutes.tsx:24-40 | a loader while loading; then the pages exactly when not authenticated, else a redirect to the dashboard |
| Routes.ExactlyOneOutlet | frontend/src/routes/AppRoutes.tsx:5-40 | once loaded, exactly one guard renders its pages and the other redirects |
| Routes.LoadingShowsLoader | frontend/src/routes/AppRoutes.tsx:5-40 | while loading, both guards show the loader |
| Sidebar.SomeIncluded | frontend/src/layout/AppSidebar.tsx:114 | true exactly when some role of the item is held |
| Sidebar.HasAccess | frontend/src/layout/AppSidebar.tsx:106-115 | open items pass; restricted items need a user sharing one of their roles |
| Sidebar.AccessBySharedRoles | frontend/src/layout/AppSidebar.tsx:106-115 | access depends only on the set of roles held |
| Sidebar.FilterMenuIsPrunedSubsequence | frontend/src/layout/AppSidebar.tsx:142-151 | the menu is the shown items, in order, each with its submenu pruned |
| Sidebar.FilteredMenuAccessible | frontend/src/layout/AppSidebar.tsx:142-151 | every entry shown, and every sub-entry, is accessible, and no submenu is emptied |
| Sidebar.PlainEntryKept | frontend/src/layout/AppSidebar.tsx:142-151 | an accessible entry without a submenu is always shown |
| Sidebar.OthersSectionHidden | frontend/src/layout/AppSidebar.tsx:87-89 | the "Others" section never shows, its list being empty |
| Sidebar.Toggled | frontend/src/layout/AppSidebar.tsx:200-211 | toggling the open submenu closes it; toggling any other opens it |
| Sidebar.ToggleTwice | frontend/src/layout/AppSidebar.tsx:200-211 | toggling twice restores a closed or same submenu |
| Sidebar.LastMatch | frontend/src/layout/AppSidebar.tsx:164-186 | the last item with an active sub-entry, or none exactly when no item has one |
| Sidebar.LastMatchStep | frontend/src/layout/AppSidebar.tsx:168-180 | one more item scanned updates the last match by that item alone |
| Sidebar.AutoOpenIffActive | frontend/src/layout/AppSidebar.tsx:164-186 | a submenu is opened exactly when some sub-entry is active |
| Sidebar.SidebarState.constructor | frontend/src/layout/AppSidebar.tsx:96-99 | no submenu open |
| Sidebar.SidebarState.Toggle | frontend/src/layout/AppSidebar.tsx:200-211 | the open submenu becomes `Toggled` of the previous one |
| Sidebar.SidebarState.ScanSubItems | frontend/src/layout/AppSidebar.tsx:170-178 | a hit exactly when some sub-entry is active, which then opens this submenu |
| Sidebar.SidebarState.ScanMenu | frontend/src/layout/AppSidebar.tsx:168-180 | matched exactly when there is a last match, whose submenu is then open |
| Sidebar.SidebarState.AutoOpen | frontend/src/layout/AppSidebar.tsx:164-186 | the open submenu is the auto-open target over both menus |
| SignUp.FieldName | frontend/src/components/auth/SignUpForm.tsx:97-113 | every field has a non-empty name |
| SignUp.Set | frontend/src/components/auth/SignUpForm.tsx:186-189 | the one field takes the value and every other field keeps its own |
| SignUp.SanitizeIsFilter | frontend/src/components/auth/SignUpForm.tsx:174-184 | sanitising removes exactly the characters the field does not allow |
| SignUp.SanitizeSubsequence | frontend/src/components/auth/SignUpForm.tsx:174-184 | the sanitised value is an order-preserving selection of the typed one |
| SignUp.SanitizeAllowedOnly | frontend/src/components/auth/SignUpForm.tsx:174-184 | a character remains exactly when it was typed and is allowed |
| SignUp.SanitizeIdempotent | frontend/src/components/auth/SignUpForm.tsx:174-184 | sanitising twice is sanitising once |
| SignUp.SanitizeKeepsClean | frontend/src/components/auth/SignUpForm.tsx:174-184 | a value of allowed characters is kept unchanged |
| SignUp.Clean | frontend/src/components/auth/SignUpForm.tsx:172-184 | the field's `replace` gives the sanitised value |
| SignUp.ClearedErrors | frontend/src/components/auth/SignUpForm.tsx:190-196 | the field's error, if any, becomes null, and the other errors stay |
| SignUp.SignUpForm.constructor | frontend/src/components/auth/SignUpForm.tsx:97-116 | the initial data, no errors, unchecked, not loading |
| SignUp.SignUpForm.InputChange | frontend/src/components/auth/SignUpForm.tsx:171-197 | the field takes the sanitised value and its error is cleared |
| SignUp.SignUpForm.Check | frontend/src/components/auth/SignUpForm.tsx:516 | the box takes the value |
| SignUp.SignUpForm.Submit | frontend/src/components/auth/SignUpForm.tsx:199-247 | unchecked: only the terms error; checked: the data is sent, then success resets the form, and a rejection or no reply sets the errors |
| SignUp.InitialDataValues | frontend/src/components/auth/SignUpForm.tsx:97-113 | every field starts empty except the country, "Colombia" |
| Text.LowerChar | frontend/src/pages/Events/AllEventsPage.tsx:74 | the result is never upper-case, and only upper-case letters change |
| Text.Lower | frontend/src/pages/Events/AllEventsPage.tsx:74 | the same length, lower-cased character by character |
| Text.LowerIdempotent | frontend/src/pages/Events/AllEventsPage.tsx:74 | lower-casing twice is lower-casing once |
| Text.LowerAppend | frontend/src/pages/Events/AllEventsPage.tsx:74 | lower-casing distributes over concatenation |
| Text.Capitalize | frontend/src/pages/Events/ManageEvent.tsx:211 | the first character upper-cased, the rest kept |
| Text.ContainsIff | frontend/src/pages/Events/AllEventsPage.tsx:74 | `includes` holds exactly when the needle occurs at some position |
| Text.ContainsEmpty | frontend/src/components/events/AttendeesTable.tsx:27-33 | every string includes the empty string |
| Text.JoinAppend | frontend/src/pages/Events/CreateEvent.tsx:249 | joining two non-empty lists is joining each with the separator between |
| Text.SplitOn | frontend/src/components/events/AttendeesTable.tsx:46-47 | splitting gives at least one piece |
| Text.SplitWithoutSeparator | frontend/src/components/events/AttendeesTable.tsx:46-47 | a text without the separator is one piece |
| Text.SplitAfterPiece | frontend/src/components/events/AttendeesTable.tsx:46-47 | a piece, the separator and the rest split into that piece, then the rest's pieces |
| Text.SplitJoin | frontend/src/components/events/AttendeesTable.tsx:46-47 | pieces without the separator, once joined, split back into themselves |
| Text.JoinAvoids | frontend/src/components/events/AttendeesTable.tsx:46-47 | joining never introduces a character absent from the pieces and the separator |
| Text.DecimalString | frontend/src/pages/Events/CreateEvent.tsx:143-145 | a non-empty run of digits |
| Text.DigitsValueOfDecimal | frontend/src/pages/Events/CreateEvent.tsx:143-145 | a number's digits read back as that number |
| Text.LeadingSpaces | frontend/src/pages/Events/CreateEvent.tsx:130 | the longest run of leading white space |
| Text.LeadingDigits | frontend/src/pages/Events/CreateEvent.tsx:130 | the longest run of leading digits |
| Text.ReadNumeral | frontend/src/pages/Events/CreateEvent.tsx:130 | a sign of ±1, digits, and the unread rest as a suffix of the input |
| Text.ParseIntOfDecimal | frontend/src/pages/Events/CreateEvent.tsx:130 | `parseInt` of a number's digits is that number |
| Text.ParseEmpty | frontend/src/pages/Events/CreateEvent.tsx:40 | `parseInt` and `parseFloat` of the empty input are NaN |
| Text.ParseFloatWithoutPoint | frontend/src/pages/Events/AllEventsPage.tsx:53 | without a '.', `parseFloat` reads what `parseInt` reads |
| Text.IntString | frontend/src/pages/Events/CreateEvent.tsx:143-145 | a non-empty text |
| TicketDetail.Member | frontend/src/pages/TicketDetailPage.tsx:22 | a member starts with its key |
| TicketDetail.QrValue | frontend/src/pages/TicketDetailPage.tsx:19-23 | empty exactly without the event or the user |
| TicketDetail.LeadingDigitsOf | frontend/src/pages/TicketDetailPage.tsx:22 | the digits before a non-digit are read in full |
| TicketDetail.MemberInjective | frontend/src/pages/TicketDetailPage.tsx:22 | a member reads back as its value and its rest |
| TicketDetail.QrValueInjective | frontend/src/pages/TicketDetailPage.tsx:19-23 | equal QR texts come from the same event, user and time stamp |
| TicketDetail.NextCount | frontend/src/pages/TicketDetailPage.tsx:55-61 | the countdown stays within 1..15 |
| TicketDetail.TicksSplit | frontend/src/pages/TicketDetailPage.tsx:54-62 | a + b ticks are a ticks then b ticks |
| TicketDetail.TicksDown | frontend/src/pages/TicketDetailPage.tsx:54-62 | before reaching 1 the countdown steps down by one per tick |
| TicketDetail.CountdownPeriod | frontend/src/pages/TicketDetailPage.tsx:17 | after 15 ticks the countdown is back where it started |
| TicketDetail.RenewsOncePerCycle | frontend/src/pages/TicketDetailPage.tsx:54-62 | among any 15 ticks, exactly one renews the QR text |
| TicketDetail.QrPanel.constructor | frontend/src/pages/TicketDetailPage.tsx:13-17 | no event, an empty QR text, a countdown of 15 |
| TicketDetail.QrPanel.ShowEvent | frontend/src/pages/TicketDetailPage.tsx:50-53 | the QR text is generated at once for the event |
| TicketDetail.QrPanel.Tick | frontend/src/pages/TicketDetailPage.tsx:54-61 | the countdown steps, and the QR text is renewed exactly on the tick from 1 |
| TicketTypes.FilteredTypesSpec | frontend/src/pages/TicketTypeManagement.tsx:48-53 | the list is the types whose name includes the term ignoring case, in order |
| TicketTypes.EmptySearchShowsAll | frontend/src/pages/TicketTypeManagement.tsx:48-53 | an empty search shows every type |
| TicketTypes.TypePath | frontend/src/pages/TicketTypeManagement.tsx:86 | the collection path, extended and ending in '/' |
| TicketTypes.TypePathInjective | frontend/src/pages/TicketTypeManagement.tsx:86 | different types have different paths |
| TicketTypes.TicketTypeAdmin.constructor | frontend/src/pages/TicketTypeManagement.tsx:15-20 | no types, loading, both dialogs closed, an empty form |
| TicketTypes.TicketTypeAdmin.Refilter | frontend/src/pages/TicketTypeManagement.tsx:48-53 | the list shown becomes the filtered list |
| TicketTypes.TicketTypeAdmin.Search | frontend/src/pages/TicketTypeManagement.tsx:20 | the search changes and the list follows |
| TicketTypes.TicketTypeAdmin.Fetch | frontend/src/pages/TicketTypeManagement.tsx:22-42 | a request exactly with a token; the reply replaces the types, or the error is set; loading ends |
| TicketTypes.TicketTypeAdmin.OpenCreate | frontend/src/pages/TicketTypeManagement.tsx:55-61 | create mode, an empty form, no type, the dialog open |
| TicketTypes.TicketTypeAdmin.OpenEdit | frontend/src/pages/TicketTypeManagement.tsx:63-69 | edit mode, the form from the type, the dialog open |
| TicketTypes.TicketTypeAdmin.OpenDelete | frontend/src/pages/TicketTypeManagement.tsx:71-74 | the type is chosen and the delete dialog opens |
| TicketTypes.TicketTypeAdmin.FormChange | frontend/src/pages/TicketTypeManagement.tsx:76-78 | one input takes the value |
| TicketTypes.TicketTypeAdmin.Submit | frontend/src/pages/TicketTypeManagement.tsx:80-104 | a request exactly with a token: a PUT to the type's path exactly in edit mode, else a POST; the dialog closes only after a save; a rejection or no reply sets the form error |
| TicketTypes.TicketTypeAdmin.Delete | frontend/src/pages/TicketTypeManagement.tsx:106-119 | a request exactly with a token and a chosen type, at its path; the dialog closes only after acceptance |
| UserManagement.FilteredUsersSpec | frontend/src/pages/admin/UserManagement.tsx:174-184 | the list is the users matching the search (full name or e-mail) and the role filter, in order |
| UserManagement.NoFilterShowsAll | frontend/src/pages/admin/UserManagement.tsx:174-184 | an empty search with "All" shows everyone |
| UserManagement.StripReadOnly | frontend/src/pages/admin/UserManagement.tsx:91-109 | the payload has the user's keys minus the read-only ones, with the same values |
| UserManagement.PayloadOmitsReadOnly | frontend/src/pages/admin/UserManagement.tsx:96-109 | no password, role or text foreign key is sent, and every other key is |
| UserManagement.UserPath | frontend/src/pages/admin/UserManagement.tsx:114 | `/users/…/` |
| UserManagement.UserPathId | frontend/src/pages/admin/UserManagement.tsx:114 | the id in a user path reads back as the user's id |
| UserManagement.UpdateRequest | frontend/src/pages/admin/UserManagement.tsx:88-121 | a PATCH of the stripped payload to the user's path |
| UserManagement.UserAdmin.constructor | frontend/src/pages/admin/UserManagement.tsx:82-85 | no user selected, the dialog closed |
| UserManagement.UserAdmin.OpenDelete | frontend/src/pages/admin/UserManagement.tsx:82-85 | the user is selected and the dialog opens |
| UserManagement.UserAdmin.UpdateRole | frontend/src/pages/admin/UserManagement.tsx:132-151 | a request exactly with a selected user, posting the role to its assign-role path |
| UserManagement.UserAdmin.DeleteSelected | frontend/src/pages/admin/UserManagement.tsx:153-172 | a DELETE exactly with a selected user, at its path; the dialog closes only after acceptance |

## Left out

- Network, alerts, navigation, `console` output and timers are left out. Each request's
  reply is an input, and the interval is a `Tick` method.
- Dates are left out:
  - date formatting, including the dates the edition form loads
    (frontend/src/pages/Events/EditEvent.tsx:76-79);
  - the 18-year birth-date bound of the sign-up form;
  - `toLocaleDateString`, which the exports take as already rendered text.
  - The catalogue's date filters compare an opaque, ordered instant.
- JSON encoding is left out. The tiers sent with a request are carried as the list
  itself. Only the QR text is written out, because its round trip is a property of
  interest.
- Floating point is left out:
  - tier prices and catalogue prices are natural numbers;
  - `parseFloat` returns a `real`, and its exponent syntax is not read;
  - the purchase subtotal uses the tier's price as a whole number;
  - percentages are exact reals.
- `toLowerCase` and `toUpperCase` are modelled on ASCII and Latin-1 letters only. There
  is no full Unicode case mapping.
- Catalogue fetches are not modelled: departments, cities, categories and ticket types
  (frontend/src/pages/Events/CreateEvent.tsx:44-82, and the sign-up form's initial
  loads). Their results are inputs.
- CreateEvent.CreateEventForm.constructor: the creation form starts with no offered
  cities. After its catalogue load the source offers the cities of department 2, or of
  the first department when there is no department 2
  (frontend/src/pages/Events/CreateEvent.tsx:69-72); the model does not.
- EditEvent.EditEventForm.Load: the event arrives as form text fields, not as the
  server's JSON. So three things of the source are not modelled:
  - a `min_age` or `max_capacity` of 0 is a number, which is falsy;
  - a `null` `city_text` would be appended as the text "null";
  - `location` is a number, not text.
  A failure is taken to happen before any state is set.
- TicketTiers.CheckAdd: a draft's capacity is a natural number. The source reads it from
  raw text whose `min="1"` the form does not enforce, so it accepts a negative capacity
  such as "-5". With negative capacities, `TicketTiers.ConfiguredCapacityNonNegative`
  and `TicketTiers.RemoveKeepsWithinTotal` would not hold.
- AttendeesTable.ExportCsv, ManageEvent.CsvText: `encodeURI` is treated as the identity
  (frontend/src/components/events/AttendeesTable.tsx:49,
  frontend/src/pages/Events/ManageEvent.tsx:191).
- AllEvents.Narrow: the loose `==` of the city filter
  (frontend/src/pages/Events/AllEventsPage.tsx:80) is taken as strict equality on text.
- Refetches after a save, a cancel or a delete are not modelled. The list that is
  fetched again is a later `Fetch` or `Load` call.
- Deleting an event from the edition form (frontend/src/pages/Events/EditEvent.tsx:300-325)
  is not modelled. It is a confirmation and one request, with no rule of its own.
- The management page's tab switching and per-tab fetching are not modelled.
- Object keys inherited from `Object.prototype` are not modelled. The error objects
  and the user objects are finite maps of their own keys.
- EditEvent.EditEventForm.AddTicket, CreateEvent.CreateEventForm.AddTicket: only the
  creation form's method ensures the tier invariants itself. The edition form's method
  states its new state through `AddStep`, and `TicketTiers.AddPreserves` proves both
  invariants of that step.
- EventDetail.Total: the service fee is the constant zero, so the total carries the
  subtotal's bounds and nothing more.
- The management page computes the sales chart (`chartState`) but never renders it.
  The model keeps the computation.

**Places where the code, as written, differs from what a reader might expect**

Each is stated as a lemma about the code.

- The edition form appends a newly picked image twice (`EditEvent.EditImageEntries`).
- The creation form never sends the image (`CreateEvent.CreateKeysShape`).
- Applying the initial catalogue filters hides events without a price, while clearing
  shows them (`AllEvents.InitialFiltersHideUnpriced`).
- The two event forms render a list of error messages differently
  (`EventForms.ListErrorsDiffer`).
- The attendee table's export ends in a line break when no row matches. The management
  page exports nothing without attendees.
- The management page's attendee search matches the first name, the last name, the
  e-mail and the code one by one, never the full name. Its empty-term shortcut gives
  the same list as the filter.
- Parts of the code disagree on the shape of `ticket_type` in the attendee list:
  - the management page's chart reads `ticket_type.name`;
  - its CSV and the event page read `ticket_type` as text.

  The model takes the name as text throughout.
