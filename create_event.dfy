/**
 * The event creation form: the event's text fields, the tiers configured so far and the
 * tier being typed in, the error shown, and the submission, which checks the session,
 * the tiers and the location and then appends the request fields one by one.
 */
module CreateEvent {
  import opened Wrappers
  import opened Seqs
  import opened Text
  import opened TicketTiers
  import opened EventForms

  const ColombiaNeedsCity: string := "Si el país es Colombia, debes seleccionar una ciudad."
  const AbroadNeedsPlace: string := "Si el país no es Colombia, debes escribir la ciudad y el departamento."
  const CreateFallback: string := "Error al crear el evento."

  /** The place a creation requires: a chosen city in Colombia, a typed city and department elsewhere. */
  predicate LocationGiven(f: Fields)
  {
    if f.country == "Colombia" then f.location != "" else f.cityText != "" && f.departmentText != ""
  }

  /** The error for a missing place. */
  function LocationError(f: Fields): string
  {
    if f.country == "Colombia" then ColombiaNeedsCity else AbroadNeedsPlace
  }

  /** The place fields a creation sends. */
  function SentPlaceKeys(f: Fields): seq<Key>
  {
    if f.country == "Colombia" then [Text(Location)] else [Text(CityText), Text(DepartmentText)]
  }

  /** The keys of a creation request, in append order. */
  function CreateKeys(f: Fields): seq<Key>
  {
    RequiredKeys + PresentOptionalKeys(f) + SentPlaceKeys(f) + [TicketType]
  }

  /** A creation request carries the place keys by country: the city for Colombia, the typed city and department elsewhere. */
  lemma CreatePlaceKeys(f: Fields)
    ensures Text(Location) in CreateKeys(f) <==> f.country == "Colombia"
    ensures Text(CityText) in CreateKeys(f) <==> f.country != "Colombia"
    ensures Text(DepartmentText) in CreateKeys(f) <==> f.country != "Colombia"
  {
  }

  /** A creation request carries an optional field exactly when its input is filled in. */
  lemma CreateOptionalKeys(f: Fields)
    ensures Text(MinAge) in CreateKeys(f) <==> f.minAge != ""
    ensures Text(MaxCapacity) in CreateKeys(f) <==> f.maxCapacity != ""
    ensures Text(SalesOpenDatetime) in CreateKeys(f) <==> f.salesOpenDatetime != ""
  {
    var optional := PresentOptionalKeys(f);
    var others := RequiredKeys + SentPlaceKeys(f) + [TicketType];
    forall k | k in [Text(MinAge), Text(MaxCapacity), Text(SalesOpenDatetime)]
      ensures k in CreateKeys(f) <==> k in optional
    {
      assert k !in others;
    }
  }

  /** A creation request carries every required field, the tiers once and last, and never the image. */
  lemma CreateKeysShape(f: Fields)
    ensures forall k :: k in RequiredKeys ==> k in CreateKeys(f)
    ensures var ks := CreateKeys(f); ks[|ks| - 1] == TicketType && TicketType !in ks[..|ks| - 1]
    ensures Image !in CreateKeys(f)
  {
    var ks := CreateKeys(f);
    var front := RequiredKeys + PresentOptionalKeys(f) + SentPlaceKeys(f);
    assert ks == front + [TicketType];
    assert ks[..|ks| - 1] == front;
  }

  /** Which draft input a change is for. */
  datatype DraftInput = TypeInput | PriceInput | CapacityInput

  class CreateEventForm {
    var fields: Fields
    var image: Option<FileRef>
    var cities: seq<City>
    var filteredCities: seq<City>
    var configured: seq<Tier>
    var draft: Draft
    var error: Option<string>
    var loading: bool

    /** The form holds all its fields and never two tiers of one ticket type. */
    ghost predicate Valid()
      reads this
    {
      DistinctTypes(configured)
    }

    /** A blank form over the loaded city catalogue. */
    constructor (cities: seq<City>)
      ensures Valid()
      ensures fields == InitialFields && image == None
      ensures this.cities == cities && filteredCities == []
      ensures configured == [] && draft == EmptyDraft && error == None && !loading
    {
      fields := InitialFields;
      image := None;
      this.cities := cities;
      filteredCities := [];
      configured := [];
      draft := EmptyDraft;
      error := None;
      loading := false;
    }

    /** `handleChange`: store the value, then apply the department and country resets. */
    method ChangeField(name: TextKey, value: string)
      requires Valid()
      modifies this
      ensures Valid()
      ensures fields == Changed(old(fields), name, value)
      ensures filteredCities == if name == DepartmentFilter then CitiesOf(cities, value) else old(filteredCities)
      ensures configured == old(configured) && draft == old(draft) && error == old(error)
      ensures image == old(image) && loading == old(loading) && cities == old(cities)
    {
      fields := Set(fields, name, value);
      if name == DepartmentFilter {
        filteredCities := CitiesOf(cities, value);
        fields := fields.(location := "");
      }
      if name == Country {
        fields := fields.(location := "", cityText := "", departmentText := "", country := value);
      }
    }

    /** `handleFileChange`: remember the picked file. */
    method ChooseFile(file: FileRef)
      requires Valid()
      modifies this
      ensures Valid()
      ensures image == Some(file)
      ensures fields == old(fields) && configured == old(configured) && draft == old(draft)
      ensures error == old(error) && loading == old(loading)
      ensures cities == old(cities) && filteredCities == old(filteredCities)
    {
      image := Some(file);
    }

    /** `handleTicketChange`: one input of the draft tier takes a value. */
    method ChangeDraft(input: DraftInput, value: Option<nat>)
      requires Valid()
      modifies this
      ensures Valid()
      ensures draft == match input
                       case TypeInput => old(draft).(ticketTypeId := value)
                       case PriceInput => old(draft).(price := value)
                       case CapacityInput => old(draft).(maximunCapacity := value)
      ensures fields == old(fields) && configured == old(configured) && error == old(error)
      ensures image == old(image) && loading == old(loading)
      ensures cities == old(cities) && filteredCities == old(filteredCities)
    {
      match input
      case TypeInput => draft := draft.(ticketTypeId := value);
      case PriceInput => draft := draft.(price := value);
      case CapacityInput => draft := draft.(maximunCapacity := value);
    }

    /**
     * `handleAddTicket`: the tiers, the draft and the error become those of `AddStep` on the
     * old state (a refused draft only sets the error; an accepted one is appended, the
     * draft emptied and the error cleared), nothing else changes, and `Valid()` is kept.
     */
    method AddTicket()
      requires Valid()
      modifies this
      ensures Valid()
      ensures var step := AddStep(old(configured), old(draft), old(fields.maxCapacity));
        configured == step.tiers && draft == step.draft && error == step.error
      ensures fields == old(fields) && image == old(image) && loading == old(loading)
      ensures cities == old(cities) && filteredCities == old(filteredCities)
    {
      var step := AddStep(configured, draft, fields.maxCapacity);
      AddKeepsTypesDistinct(configured, draft, fields.maxCapacity);
      configured, draft, error := step.tiers, step.draft, step.error;
    }

    /** `handleRemoveTicket`: drop the tier at `index`, keeping the rest in order. */
    method RemoveTicket(index: int)
      requires Valid()
      modifies this
      ensures Valid()
      ensures configured == FilterOutIndex(old(configured), index)
      ensures old(WithinTotal(configured, fields.maxCapacity)) ==> WithinTotal(configured, fields.maxCapacity)
      ensures fields == old(fields) && draft == old(draft) && error == old(error)
      ensures image == old(image) && loading == old(loading)
      ensures cities == old(cities) && filteredCities == old(filteredCities)
    {
      RemoveKeepsTypesDistinct(configured, index);
      if WithinTotal(configured, fields.maxCapacity) {
        RemoveKeepsWithinTotal(configured, index, fields.maxCapacity);
      }
      configured := FilterOutIndex(configured, index);
    }

    /**
     * The body `handleSubmit` appends, field by field: `None` when the place the country
     * requires is missing (the submission stops there). A body carries the keys
     * `CreateKeys` lists, each text key with the form's value, and the tiers last.
     */
    method CreateBody() returns (body: Option<seq<Entry>>)
      ensures body.Some? <==> LocationGiven(fields)
      ensures body.Some? ==>
                var p := body.value;
                && |p| > 0
                && KeysOf(p) == CreateKeys(fields)
                && TextEntries(p[..|p| - 1], fields)
                && p[|p| - 1] == Entry(TicketType, TiersJson(configured))
    {
      var p: seq<Entry> := [];
      p := AppendRequired(p, fields);
      p := AppendOptional(p, fields);
      if fields.country == "Colombia" {
        if fields.location == "" {
          return None;
        }
        p := AppendText(p, fields, Location);
      } else {
        if fields.cityText == "" || fields.departmentText == "" {
          return None;
        }
        p := AppendText(p, fields, CityText);
        p := AppendText(p, fields, DepartmentText);
      }
      assert KeysOf(p) == RequiredKeys + PresentOptionalKeys(fields) + SentPlaceKeys(fields);
      var texts := p;
      p := Append(p, Entry(TicketType, TiersJson(configured)));
      assert p[..|p| - 1] == texts;
      body := Some(p);
    }

    /**
     * `handleSubmit`, with the session token and the server's reply as inputs: returns
     * the request body that was sent, if any. No request without a token (an empty one
     * counts as none), without tiers or without the place the country requires.
     */
    method Submit(token: Option<string>, reply: Reply) returns (sent: Option<seq<Entry>>)
      requires Valid()
      modifies this
      ensures Valid()
      ensures fields == old(fields) && configured == old(configured) && draft == old(draft) && image == old(image)
      ensures cities == old(cities) && filteredCities == old(filteredCities)
      ensures sent.Some? <==> Truthy(token) && |configured| > 0 && LocationGiven(fields)
      ensures !Truthy(token) ==> error == Some(NotAuthenticated) && loading == old(loading)
      ensures Truthy(token) && |configured| == 0 ==> error == Some(NoTiers) && loading == old(loading)
      ensures Truthy(token) && |configured| > 0 && !LocationGiven(fields) ==>
                error == Some(LocationError(fields)) && !loading
      ensures sent.Some? ==>
                var p := sent.value;
                && |p| > 0
                && KeysOf(p) == CreateKeys(fields)
                && TextEntries(p[..|p| - 1], fields)
                && p[|p| - 1] == Entry(TicketType, TiersJson(configured))
                && error == FailureText(reply, CreateFallback, CreateErrorText)
                && !loading
    {
      if !Truthy(token) {
        error := Some(NotAuthenticated);
        return None;
      }
      if |configured| == 0 {
        error := Some(NoTiers);
        return None;
      }
      loading := true;
      error := None;
      sent := CreateBody();
      if sent.None? {
        error := Some(LocationError(fields));
        loading := false;
        return;
      }
      match reply {
        case Accepted =>
        case Refused(ErrorObject(entries)) => error := Some(CreateErrorText(entries));
        case Refused(NotAnObject) => error := Some(CreateFallback);
        case Thrown(message) => error := Some(message);
      }
      loading := false;
    }
  }
}
