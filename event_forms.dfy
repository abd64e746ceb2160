/**
 * What the event creation and edition forms share: the text fields of the event form,
 * the resets `handleChange` performs when the country or the department filter changes,
 * the multipart payload as a sequence of appended entries, and the rendering of a
 * server error object into one message.
 */
module EventForms {
  import opened Wrappers
  import opened Seqs
  import opened Text
  import opened TicketTiers

  const NotAuthenticated: string := "No estás autenticado."
  const NoTiers: string := "Debes configurar al menos un tipo de boleta."

  // ---------------------------------------------------------------- form fields

  /** The text inputs of the event form, by their `name` attribute. */
  datatype TextKey =
    | EventName | Description | Organizer | Category | Date | StartDatetime | EndDatetime
    | Country | Status | Location | CityText | DepartmentText
    | MinAge | MaxCapacity | SalesOpenDatetime | DepartmentFilter

  /** The keys a request body can carry. */
  datatype Key = Text(textKey: TextKey) | Image | TicketType | TicketTypeJson

  /** The name a key has on the wire. */
  function KeyName(k: Key): (name: string)
    ensures |name| > 0
  {
    match k
    case Text(EventName) => "event_name"
    case Text(Description) => "description"
    case Text(Organizer) => "organizer"
    case Text(Category) => "category"
    case Text(Date) => "date"
    case Text(StartDatetime) => "start_datetime"
    case Text(EndDatetime) => "end_datetime"
    case Text(Country) => "country"
    case Text(Status) => "status"
    case Text(Location) => "location"
    case Text(CityText) => "city_text"
    case Text(DepartmentText) => "department_text"
    case Text(MinAge) => "min_age"
    case Text(MaxCapacity) => "max_capacity"
    case Text(SalesOpenDatetime) => "sales_open_datetime"
    case Text(DepartmentFilter) => "department_filter"
    case Image => "image"
    case TicketType => "ticket_type"
    case TicketTypeJson => "ticket_type_json"
  }

  /** The text values of the event form. */
  datatype Fields = Fields(
    eventName: string, description: string, organizer: string, category: string,
    date: string, startDatetime: string, endDatetime: string,
    country: string, status: string,
    location: string, cityText: string, departmentText: string,
    minAge: string, maxCapacity: string, salesOpenDatetime: string,
    departmentFilter: string)

  /** `formData[name]`. */
  function Get(f: Fields, k: TextKey): string
  {
    match k
    case EventName => f.eventName
    case Description => f.description
    case Organizer => f.organizer
    case Category => f.category
    case Date => f.date
    case StartDatetime => f.startDatetime
    case EndDatetime => f.endDatetime
    case Country => f.country
    case Status => f.status
    case Location => f.location
    case CityText => f.cityText
    case DepartmentText => f.departmentText
    case MinAge => f.minAge
    case MaxCapacity => f.maxCapacity
    case SalesOpenDatetime => f.salesOpenDatetime
    case DepartmentFilter => f.departmentFilter
  }

  /** `{...formData, [name]: value}`: the one field changes and every other keeps its value. */
  function Set(f: Fields, k: TextKey, v: string): (r: Fields)
    ensures Get(r, k) == v
    ensures forall j :: j != k ==> Get(r, j) == Get(f, j)
  {
    match k
    case EventName => f.(eventName := v)
    case Description => f.(description := v)
    case Organizer => f.(organizer := v)
    case Category => f.(category := v)
    case Date => f.(date := v)
    case StartDatetime => f.(startDatetime := v)
    case EndDatetime => f.(endDatetime := v)
    case Country => f.(country := v)
    case Status => f.(status := v)
    case Location => f.(location := v)
    case CityText => f.(cityText := v)
    case DepartmentText => f.(departmentText := v)
    case MinAge => f.(minAge := v)
    case MaxCapacity => f.(maxCapacity := v)
    case SalesOpenDatetime => f.(salesOpenDatetime := v)
    case DepartmentFilter => f.(departmentFilter := v)
  }

  /** The initial text fields of a new event: everything empty, Colombia, scheduled. */
  const InitialFields: Fields :=
    Fields("", "", "", "", "", "", "", "Colombia", "programado", "", "", "", "", "", "", "")

  /** Only the country and the status start filled in. */
  lemma InitialFieldsValues(k: TextKey)
    ensures Get(InitialFields, k) ==
              if k == Country then "Colombia" else if k == Status then "programado" else ""
  {
  }

  /** Whether a field is one of the place fields a change of country clears. */
  predicate IsPlace(k: TextKey)
  {
    k == Location || k == CityText || k == DepartmentText
  }

  /** A city of the catalogue, with the department it belongs to. */
  datatype City = City(id: nat, departmentId: nat)

  /** The cities offered after choosing a department: `parseInt` of the choice against each city's department. */
  function CitiesOf(cities: seq<City>, departmentChoice: string): (r: seq<City>)
    ensures IsSubsequence(r, cities)
    ensures forall c :: c in r <==> c in cities && ParseInt(departmentChoice) == Some(c.departmentId)
  {
    var r := Filter(cities, (c: City) => ParseInt(departmentChoice) == Some(c.departmentId));
    FilterIsSubsequence(cities, (c: City) => ParseInt(departmentChoice) == Some(c.departmentId));
    forall c ensures c in r <==> c in cities && ParseInt(departmentChoice) == Some(c.departmentId) {
      FilterMember(cities, (c: City) => ParseInt(departmentChoice) == Some(c.departmentId), c);
    }
    r
  }

  /** `cities.filter(c => c.department.id === departmentId)`: one department's cities, in catalogue order. */
  function DepartmentCities(cities: seq<City>, departmentId: nat): (r: seq<City>)
    ensures IsSubsequence(r, cities)
    ensures forall c :: c in r <==> c in cities && c.departmentId == departmentId
  {
    var r := Filter(cities, (c: City) => c.departmentId == departmentId);
    FilterIsSubsequence(cities, (c: City) => c.departmentId == departmentId);
    forall c ensures c in r <==> c in cities && c.departmentId == departmentId {
      FilterMember(cities, (c: City) => c.departmentId == departmentId, c);
    }
    r
  }

  /**
   * The fields after `handleChange(name, value)`: the three state updates it queues,
   * applied in order — the edited field, then the cleared location for a department
   * filter, then the cleared place fields and the new country for a country change.
   */
  function Changed(f: Fields, name: TextKey, value: string): Fields
  {
    var edited := Set(f, name, value);
    var afterDepartment := if name == DepartmentFilter then edited.(location := "") else edited;
    if name == Country then
      afterDepartment.(location := "", cityText := "", departmentText := "", country := value)
    else afterDepartment
  }

  /** What a change does: the edited field takes the value, the resets apply, and nothing else moves. */
  lemma ChangedResets(f: Fields, name: TextKey, value: string, k: TextKey)
    ensures var r := Changed(f, name, value);
      Get(r, k) ==
        if k == name && !(k == Location && name == DepartmentFilter) && !(IsPlace(k) && name == Country) then value
        else if k == Location && (name == DepartmentFilter || name == Country) then ""
        else if IsPlace(k) && name == Country then ""
        else Get(f, k)
  {
    var edited := Set(f, name, value);
    if name == Country {
      assert Get(Changed(f, name, value), k) == if IsPlace(k) then "" else if k == Country then value else Get(f, k);
    } else if name == DepartmentFilter {
      assert Get(Changed(f, name, value), k) == if k == Location then "" else Get(edited, k);
    } else {
      assert Changed(f, name, value) == edited;
    }
  }

  // ---------------------------------------------------------------- payload

  /** A file picked in the image input. */
  datatype FileRef = FileRef(name: string)

  /** A value appended to the multipart body: text, the tiers as JSON (an opaque encoding), or a file. */
  datatype FieldValue = TextValue(text: string) | TiersJson(tiers: seq<Tier>) | FileValue(file: FileRef)

  /** One `append(key, value)` call. */
  datatype Entry = Entry(key: Key, value: FieldValue)

  /** The keys of a payload, in append order. */
  function KeysOf(p: seq<Entry>): (ks: seq<Key>)
    ensures |ks| == |p|
  {
    seq(|p|, i requires 0 <= i < |p| => p[i].key)
  }

  /** How many times a key occurs. */
  function CountKey(ks: seq<Key>, k: Key): nat
  {
    if ks == [] then 0 else (if ks[0] == k then 1 else 0) + CountKey(ks[1..], k)
  }

  /** Occurrences add up over a concatenation. */
  lemma {:induction false} CountKeyAppend(a: seq<Key>, b: seq<Key>, k: Key)
    ensures CountKey(a + b, k) == CountKey(a, k) + CountKey(b, k)
  {
    if a != [] {
      CountKeyAppend(a[1..], b, k);
      assert (a + b)[1..] == a[1..] + b;
    } else {
      assert a + b == b;
    }
  }

  /** A key occurs exactly as often as it is counted: never when it is absent. */
  lemma {:induction false} CountKeyAbsent(ks: seq<Key>, k: Key)
    ensures CountKey(ks, k) == 0 <==> k !in ks
  {
    if ks != [] {
      CountKeyAbsent(ks[1..], k);
      assert ks == [ks[0]] + ks[1..];
    }
  }

  /** The value an entry of this key carries, given the form, the picked file and the tiers. */
  function ValueFor(k: Key, f: Fields, image: Option<FileRef>, tiers: seq<Tier>): FieldValue
  {
    match k
    case Text(t) => TextValue(Get(f, t))
    case Image => if image.Some? then FileValue(image.value) else TextValue("")
    case TicketType => TiersJson(tiers)
    case TicketTypeJson => TiersJson(tiers)
  }

  /** Every entry carries the value its key stands for. */
  predicate Carries(p: seq<Entry>, f: Fields, image: Option<FileRef>, tiers: seq<Tier>)
  {
    forall i :: 0 <= i < |p| ==> p[i].value == ValueFor(p[i].key, f, image, tiers)
  }

  /** `append(key, formData[key])`. */
  function TextEntry(f: Fields, k: TextKey): Entry
  {
    Entry(Text(k), TextValue(Get(f, k)))
  }

  /** Every entry of `p` is a text entry holding the form's value for its key. */
  predicate TextEntries(p: seq<Entry>, f: Fields)
  {
    forall i :: 0 <= i < |p| ==> p[i].key.Text? && p[i].value == TextValue(Get(f, p[i].key.textKey))
  }

  /** A body of text entries carries the form's values, whatever the file and the tiers. */
  lemma TextEntriesCarry(p: seq<Entry>, f: Fields, image: Option<FileRef>, tiers: seq<Tier>)
    requires TextEntries(p, f)
    ensures Carries(p, f, image, tiers)
  {
  }

  /** A body carries its values exactly when both of its parts do. */
  lemma CarriesAppend(p: seq<Entry>, q: seq<Entry>, f: Fields, image: Option<FileRef>, tiers: seq<Tier>)
    ensures Carries(p + q, f, image, tiers) <==> Carries(p, f, image, tiers) && Carries(q, f, image, tiers)
  {
    if Carries(p, f, image, tiers) && Carries(q, f, image, tiers) {
      forall i | 0 <= i < |p + q| ensures (p + q)[i].value == ValueFor((p + q)[i].key, f, image, tiers) {
        if i >= |p| {
          assert (p + q)[i] == q[i - |p|];
        }
      }
    }
    if Carries(p + q, f, image, tiers) {
      forall i | 0 <= i < |p| ensures p[i].value == ValueFor(p[i].key, f, image, tiers) {
        assert (p + q)[i] == p[i];
      }
      forall i | 0 <= i < |q| ensures q[i].value == ValueFor(q[i].key, f, image, tiers) {
        assert (p + q)[|p| + i] == q[i];
      }
    }
  }

  /** `body.append(key, value)` on a multipart body. */
  method Append(body: seq<Entry>, e: Entry) returns (r: seq<Entry>)
    ensures r == body + [e]
    ensures KeysOf(r) == KeysOf(body) + [e.key]
  {
    r := body + [e];
  }

  /** `body.append(key, formData[key])`: a text entry that keeps the body made of the form's values. */
  method AppendText(body: seq<Entry>, f: Fields, k: TextKey) returns (r: seq<Entry>)
    ensures r == body + [TextEntry(f, k)]
    ensures KeysOf(r) == KeysOf(body) + [Text(k)]
    ensures TextEntries(body, f) ==> TextEntries(r, f)
  {
    r := body + [TextEntry(f, k)];
  }

  /** The nine fields both forms always append, in order. */
  const RequiredKeys: seq<Key> := [
    Text(EventName), Text(Description), Text(Organizer), Text(Category), Text(Date),
    Text(StartDatetime), Text(EndDatetime), Text(Country), Text(Status)
  ]

  /** The optional fields, appended only when their input is not empty. */
  function PresentOptionalKeys(f: Fields): seq<Key>
  {
    (if f.minAge != "" then [Text(MinAge)] else []) +
    (if f.maxCapacity != "" then [Text(MaxCapacity)] else []) +
    (if f.salesOpenDatetime != "" then [Text(SalesOpenDatetime)] else [])
  }



  /** The nine appends both forms start with. */
  method AppendRequired(body: seq<Entry>, f: Fields) returns (r: seq<Entry>)
    ensures KeysOf(r) == KeysOf(body) + RequiredKeys
    ensures r[..|body|] == body
    ensures TextEntries(body, f) ==> TextEntries(r, f)
  {
    r := AppendText(body, f, EventName);
    r := AppendText(r, f, Description);
    r := AppendText(r, f, Organizer);
    r := AppendText(r, f, Category);
    r := AppendText(r, f, Date);
    r := AppendText(r, f, StartDatetime);
    r := AppendText(r, f, EndDatetime);
    r := AppendText(r, f, Country);
    r := AppendText(r, f, Status);
  }

  /** The appends of the optional fields that are filled in. */
  method AppendOptional(body: seq<Entry>, f: Fields) returns (r: seq<Entry>)
    ensures KeysOf(r) == KeysOf(body) + PresentOptionalKeys(f)
    ensures r[..|body|] == body
    ensures TextEntries(body, f) ==> TextEntries(r, f)
  {
    r := body;
    if f.minAge != "" {
      r := AppendText(r, f, MinAge);
    }
    if f.maxCapacity != "" {
      r := AppendText(r, f, MaxCapacity);
    }
    if f.salesOpenDatetime != "" {
      r := AppendText(r, f, SalesOpenDatetime);
    }
  }

  // ---------------------------------------------------------------- server errors

  /** A value of the error object the server answers with. */
  datatype ErrorValue =
    | Plain(text: string)              // a string (or anything else rendered by a template literal)
    | Strings(items: seq<string>)      // an array of messages
    | Records(records: seq<seq<string>>) // an array of objects, each given by its values

  /** The response body of a refused request. */
  datatype ErrorBody = ErrorObject(entries: seq<(string, ErrorValue)>) | NotAnObject

  /** The outcome of the request, as far as the form sees it. */
  datatype Reply = Accepted | Refused(body: ErrorBody) | Thrown(message: string)

  /** One `key: message` part of the creation form's error, nested arrays flattened. */
  function CreatePart(key: string, v: ErrorValue): string
  {
    key + ": " +
    match v
    case Plain(t) => t
    case Strings(items) => Join(items, ", ")
    case Records(records) => Join(Map(records, (r: seq<string>) => Join(r, ", ")), "; ")
  }

  /** `${value}` for the edition form: arrays render with ',' and objects as "[object Object]". */
  function Rendered(v: ErrorValue): string
  {
    match v
    case Plain(t) => t
    case Strings(items) => Join(items, ",")
    case Records(records) => Join(Map(records, (r: seq<string>) => "[object Object]"), ",")
  }

  function CreateParts(entries: seq<(string, ErrorValue)>): seq<string>
  {
    Map(entries, (e: (string, ErrorValue)) => CreatePart(e.0, e.1))
  }

  function EditParts(entries: seq<(string, ErrorValue)>): seq<string>
  {
    Map(entries, (e: (string, ErrorValue)) => e.0 + ": " + Rendered(e.1))
  }

  /** The creation form's message for an error object: its parts joined with " | ". */
  function CreateErrorText(entries: seq<(string, ErrorValue)>): string
  {
    Join(CreateParts(entries), " | ")
  }

  /** The edition form's message for an error object: `key: value` parts joined with " | ". */
  function EditErrorText(entries: seq<(string, ErrorValue)>): string
  {
    Join(EditParts(entries), " | ")
  }

  lemma MapAppend<T, U>(a: seq<T>, b: seq<T>, f: T -> U)
    ensures Map(a + b, f) == Map(a, f) + Map(b, f)
  {
  }

  /** Each key of the error object contributes one part, in order, separated by " | ". */
  lemma CreateErrorTextAppend(a: seq<(string, ErrorValue)>, b: seq<(string, ErrorValue)>)
    requires |a| > 0 && |b| > 0
    ensures CreateErrorText(a + b) == CreateErrorText(a) + " | " + CreateErrorText(b)
  {
    MapAppend(a, b, (e: (string, ErrorValue)) => CreatePart(e.0, e.1));
    JoinAppend(CreateParts(a), CreateParts(b), " | ");
  }

  /** The same holds of the edition form's message. */
  lemma EditErrorTextAppend(a: seq<(string, ErrorValue)>, b: seq<(string, ErrorValue)>)
    requires |a| > 0 && |b| > 0
    ensures EditErrorText(a + b) == EditErrorText(a) + " | " + EditErrorText(b)
  {
    MapAppend(a, b, (e: (string, ErrorValue)) => e.0 + ": " + Rendered(e.1));
    JoinAppend(EditParts(a), EditParts(b), " | ");
  }

  /** A one-key error object renders as `key: message` on both forms. */
  lemma SingleErrorText(key: string, v: ErrorValue)
    ensures CreateErrorText([(key, v)]) == CreatePart(key, v)
    ensures EditErrorText([(key, v)]) == key + ": " + Rendered(v)
  {
  }

  /** On plain messages both forms render the same text. */
  lemma {:induction false} PlainErrorsAgree(entries: seq<(string, ErrorValue)>)
    requires forall i :: 0 <= i < |entries| ==> entries[i].1.Plain?
    ensures CreateErrorText(entries) == EditErrorText(entries)
  {
    assert CreateParts(entries) == EditParts(entries);
  }

  /** They differ on a list of messages: the creation form puts a space after each comma, the edition form does not. */
  lemma ListErrorsDiffer()
    ensures CreateErrorText([("price", Strings(["a", "b"]))]) == "price: a, b"
    ensures EditErrorText([("price", Strings(["a", "b"]))]) == "price: a,b"
  {
    assert Join(["a", "b"], ", ") == "a, b" by {
      assert ["a", "b"][1..] == ["b"];
    }
    assert Join(["a", "b"], ",") == "a,b" by {
      assert ["a", "b"][1..] == ["b"];
    }
  }

  /** The message a failed submission leaves in the form: thrown errors show their own message. */
  function FailureText(reply: Reply, fallback: string, render: seq<(string, ErrorValue)> -> string): Option<string>
  {
    match reply
    case Accepted => None
    case Refused(ErrorObject(entries)) => Some(render(entries))
    case Refused(NotAnObject) => Some(fallback)
    case Thrown(message) => Some(message)
  }
}
