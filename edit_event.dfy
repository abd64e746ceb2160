/**
 * The event edition form: it loads an event and its tiers, keeps the same tier rules as
 * the creation form, tracks the event's current image next to a newly picked file, and
 * submits the edited event with a PUT request.
 */
module EditEvent {
  import opened Wrappers
  import opened Seqs
  import opened Text
  import opened TicketTiers
  import opened EventForms

  const EditFallback: string := "Error al actualizar el evento."

  /** A tier as the server returns it for reading: its ticket type is a nested object. */
  datatype LoadedTier = LoadedTier(ticketType: TicketTypeRef, price: nat, maximunCapacity: nat)
  datatype TicketTypeRef = TicketTypeRef(id: nat, name: string)

  /** A loaded tier in the form's shape: the nested ticket type's id becomes `ticket_type_id`. */
  function FlatTier(t: LoadedTier): Tier
  {
    Tier(t.ticketType.id, t.price, t.maximunCapacity)
  }

  /** `(eventData.ticket_type || []).map(...)`: each loaded tier becomes the form's flat tier. */
  function Normalize(loaded: Option<seq<LoadedTier>>): (r: seq<Tier>)
    ensures |r| == |loaded.GetOr([])|
    ensures forall i :: 0 <= i < |r| ==>
              var t := loaded.value[i];
              r[i].ticketTypeId == t.ticketType.id && r[i].price == t.price &&
              r[i].maximunCapacity == t.maximunCapacity
  {
    Map(loaded.GetOr([]), FlatTier)
  }

  function LoadedCapacity(t: LoadedTier): int { t.maximunCapacity }

  /** Normalising keeps the total capacity of the tiers. */
  lemma {:induction false} NormalizeKeepsCapacity(loaded: seq<LoadedTier>)
    ensures ConfiguredCapacity(Normalize(Some(loaded))) == Sum(loaded, LoadedCapacity)
  {
    if loaded != [] {
      var n := |loaded| - 1;
      NormalizeKeepsCapacity(loaded[..n]);
      assert Normalize(Some(loaded))[..n] == Normalize(Some(loaded[..n]));
    }
  }

  /** The loaded tiers have distinct ticket types exactly when the server's tiers do. */
  lemma NormalizeKeepsTypes(loaded: seq<LoadedTier>)
    ensures DistinctTypes(Normalize(Some(loaded))) <==>
              forall i, j :: 0 <= i < j < |loaded| ==> loaded[i].ticketType.id != loaded[j].ticketType.id
  {
  }

  /** No tiers are loaded when the event has none. */
  lemma NormalizeMissing()
    ensures Normalize(None) == []
  {
  }

  /** The place keys an edition sends: the city only if chosen, the typed place always abroad. */
  function EditPlaceKeys(f: Fields): seq<Key>
  {
    if f.country == "Colombia" then (if f.location != "" then [Text(Location)] else [])
    else [Text(CityText), Text(DepartmentText)]
  }

  /** The image entry before the tiers: the new file, or an empty value when the current image was removed. */
  function ImageKeys(image: Option<FileRef>, currentImageUrl: string): seq<Key>
  {
    if image.Some? || currentImageUrl == "" then [Image] else []
  }

  /** The keys of an edition request, in append order. */
  function EditKeys(f: Fields, image: Option<FileRef>, currentImageUrl: string): seq<Key>
  {
    RequiredKeys + PresentOptionalKeys(f) + EditPlaceKeys(f) + ImageKeys(image, currentImageUrl) +
    [TicketTypeJson] + (if image.Some? then [Image] else [])
  }

  /**
   * How often an edition request carries `image`: twice for a new file (once before the
   * tiers and once after them), once as an empty value when the current image was removed
   * without a replacement, and never when the current image is kept.
   */
  lemma {:induction false} EditImageEntries(f: Fields, image: Option<FileRef>, currentImageUrl: string)
    ensures CountKey(EditKeys(f, image, currentImageUrl), Image) ==
              if image.Some? then 2 else if currentImageUrl == "" then 1 else 0
  {
    var texts := RequiredKeys + PresentOptionalKeys(f) + EditPlaceKeys(f);
    var imageKeys := ImageKeys(image, currentImageUrl);
    var tail := if image.Some? then [Image] else [];
    assert Image !in texts;
    CountKeyAbsent(texts, Image);
    CountKeyAbsent([TicketTypeJson], Image);
    CountKeyAppend(texts, imageKeys, Image);
    CountKeyAppend(texts + imageKeys, [TicketTypeJson], Image);
    CountKeyAppend(texts + imageKeys + [TicketTypeJson], tail, Image);
  }

  /** An edition sends the chosen city only when there is one, and the typed place whenever the country is not Colombia. */
  lemma EditPlaceKeysPresence(f: Fields, image: Option<FileRef>, currentImageUrl: string)
    ensures Text(Location) in EditKeys(f, image, currentImageUrl) <==> f.country == "Colombia" && f.location != ""
    ensures Text(CityText) in EditKeys(f, image, currentImageUrl) <==> f.country != "Colombia"
    ensures Text(DepartmentText) in EditKeys(f, image, currentImageUrl) <==> f.country != "Colombia"
  {
    var front := RequiredKeys + PresentOptionalKeys(f);
    var rest := ImageKeys(image, currentImageUrl) + [TicketTypeJson] + (if image.Some? then [Image] else []);
    assert EditKeys(f, image, currentImageUrl) == front + EditPlaceKeys(f) + rest;
    forall k | k in [Text(Location), Text(CityText), Text(DepartmentText)]
      ensures k in EditKeys(f, image, currentImageUrl) <==> k in EditPlaceKeys(f)
    {
      assert k !in front && k !in rest;
    }
  }

  /** An edition sends the tiers under `ticket_type_json`, never under the creation key. */
  lemma EditTiersKey(f: Fields, image: Option<FileRef>, currentImageUrl: string)
    ensures TicketTypeJson in EditKeys(f, image, currentImageUrl)
    ensures TicketType !in EditKeys(f, image, currentImageUrl)
  {
    var front := RequiredKeys + PresentOptionalKeys(f) + EditPlaceKeys(f) + ImageKeys(image, currentImageUrl);
    var tail := if image.Some? then [Image] else [];
    assert EditKeys(f, image, currentImageUrl) == front + [TicketTypeJson] + tail;
    assert TicketType !in front && TicketType !in tail;
  }

  /** `citiesData.find(c => c.id === id)`: the first city of the catalogue with that id. */
  function FindCity(cities: seq<City>, id: nat): (r: Option<City>)
    ensures r.None? <==> forall i :: 0 <= i < |cities| ==> cities[i].id != id
    ensures r.Some? ==> exists i :: 0 <= i < |cities| && cities[i] == r.value && r.value.id == id &&
                                    forall j :: 0 <= j < i ==> cities[j].id != id
  {
    if cities == [] then None
    else if cities[0].id == id then Some(cities[0])
    else
      var r := FindCity(cities[1..], id);
      assert forall j :: 1 <= j < |cities| ==> cities[j] == cities[1..][j - 1];
      assert r.Some? ==> exists i :: 0 <= i < |cities| && cities[i] == r.value && r.value.id == id &&
                                     forall j :: 0 <= j < i ==> cities[j].id != id by {
        if r.Some? {
          var i :| 0 <= i < |cities[1..]| && cities[1..][i] == r.value && r.value.id == id &&
                   forall j :: 0 <= j < i ==> cities[1..][j].id != id;
          assert cities[i + 1] == r.value;
        }
      }
      r
  }

  /**
   * The cities offered once the event is loaded: when the event's location is truthy and
   * names a catalogue city, the cities of that city's department; otherwise the list the
   * form already had.
   */
  function LoadedCities(catalogue: seq<City>, location: Option<nat>, before: seq<City>): seq<City>
  {
    if location.Some? && location.value != 0 then
      match FindCity(catalogue, location.value)
      case Some(city) => DepartmentCities(catalogue, city.departmentId)
      case None => before
    else before
  }

  /**
   * A location naming a catalogue city offers that city together with exactly the cities
   * of its department; a missing, zero or unknown location leaves the list as it was.
   */
  lemma LoadedCitiesSpec(catalogue: seq<City>, location: Option<nat>, before: seq<City>)
    ensures location.Some? && location.value != 0 && (exists c :: c in catalogue && c.id == location.value) ==>
              var found := FindCity(catalogue, location.value);
              var offered := LoadedCities(catalogue, location, before);
              found.Some? && found.value.id == location.value && found.value in offered &&
              forall c :: c in offered <==> c in catalogue && c.departmentId == found.value.departmentId
    ensures location.None? || location.value == 0 || (forall c :: c in catalogue ==> c.id != location.value) ==>
              LoadedCities(catalogue, location, before) == before
  {
    if location.Some? && location.value != 0 {
      var found := FindCity(catalogue, location.value);
      if found.Some? {
        var i :| 0 <= i < |catalogue| && catalogue[i] == found.value && found.value.id == location.value &&
                 forall j :: 0 <= j < i ==> catalogue[j].id != location.value;
        assert found.value in catalogue;
      }
    }
  }

  /** The answer to the load's requests: the event with the city catalogue, or the thrown error's message. */
  datatype EventReply =
    | EventLoaded(fields: Fields, image: string, tiers: Option<seq<LoadedTier>>, location: Option<nat>, catalogue: seq<City>)
    | EventLoadFailed(message: string)

  const LoadFallback: string := "Error al cargar datos"

  /** Which draft input a change is for. */
  datatype DraftInput = TypeInput | PriceInput | CapacityInput

  class EditEventForm {
    var fields: Fields
    var image: Option<FileRef>
    var currentImageUrl: string
    var cities: seq<City>
    var filteredCities: seq<City>
    var configured: seq<Tier>
    var draft: Draft
    var error: Option<string>
    var loading: bool

    /** The form before the event arrives: blank fields, and loading. */
    constructor ()
      ensures fields == InitialFields && image == None && currentImageUrl == ""
      ensures cities == [] && filteredCities == []
      ensures configured == [] && draft == EmptyDraft && error == None && loading
    {
      fields := InitialFields;
      image := None;
      currentImageUrl := "";
      cities := [];
      filteredCities := [];
      configured := [];
      draft := EmptyDraft;
      error := None;
      loading := true;
    }

    /**
     * The load effect, with the session token, the route's event id and the answer to the
     * four requests as inputs; returns whether the requests were made at all. Without a
     * truthy token and id nothing happens. Otherwise the form either takes the event (its
     * fields, its image as the current image and no picked file, its tiers normalised, the
     * catalogue, and the cities of the location's department) or shows the thrown message,
     * or the fallback when that message is empty; loading ends either way.
     */
    method Load(token: Option<string>, id: Option<string>, reply: EventReply) returns (requested: bool)
      modifies this
      ensures requested <==> Truthy(token) && Truthy(id)
      ensures !requested ==>
                && fields == old(fields) && image == old(image) && currentImageUrl == old(currentImageUrl)
                && configured == old(configured) && cities == old(cities) && filteredCities == old(filteredCities)
                && error == old(error) && loading == old(loading)
      ensures requested ==> !loading
      ensures requested && reply.EventLoaded? ==>
                && fields == reply.fields && currentImageUrl == reply.image && image == None
                && configured == Normalize(reply.tiers) && cities == reply.catalogue
                && filteredCities == LoadedCities(reply.catalogue, reply.location, old(filteredCities))
                && error == old(error)
      ensures requested && reply.EventLoadFailed? ==>
                && error == Some(if reply.message == "" then LoadFallback else reply.message)
                && fields == old(fields) && image == old(image) && currentImageUrl == old(currentImageUrl)
                && configured == old(configured) && cities == old(cities) && filteredCities == old(filteredCities)
      ensures draft == old(draft)
    {
      if !Truthy(token) || !Truthy(id) {
        return false;
      }
      loading := true;
      match reply {
        case EventLoaded(eventFields, eventImage, tiers, location, catalogue) =>
          fields := eventFields;
          currentImageUrl := eventImage;
          image := None;
          configured := Normalize(tiers);
          cities := catalogue;
          filteredCities := LoadedCities(catalogue, location, filteredCities);
        case EventLoadFailed(message) =>
          error := Some(if message == "" then LoadFallback else message);
      }
      loading := false;
      return true;
    }

    /** `handleChange`: store the value, then apply the department and country resets. */
    method ChangeField(name: TextKey, value: string)
      modifies this
      ensures fields == Changed(old(fields), name, value)
      ensures filteredCities == if name == DepartmentFilter then CitiesOf(cities, value) else old(filteredCities)
      ensures configured == old(configured) && draft == old(draft) && error == old(error)
      ensures image == old(image) && currentImageUrl == old(currentImageUrl)
      ensures loading == old(loading) && cities == old(cities)
    {
      fields := Set(fields, name, value);
      if name == DepartmentFilter {
        filteredCities := CitiesOf(cities, value);
        fields := fields.(location := "");
      }
      if name == Country {
        fields := fields.(location := "", cityText := "", departmentText := "", country := value);
      }
    }

    /** `handleFileChange`: the picked file replaces the current image. */
    method ChooseFile(file: FileRef)
      modifies this
      ensures image == Some(file) && currentImageUrl == ""
      ensures fields == old(fields) && configured == old(configured) && draft == old(draft)
      ensures error == old(error) && loading == old(loading)
      ensures cities == old(cities) && filteredCities == old(filteredCities)
    {
      image := Some(file);
      currentImageUrl := "";
    }

    /** "Quitar imagen": forget both the current image and any picked file. */
    method RemoveImage()
      modifies this
      ensures image == None && currentImageUrl == ""
      ensures fields == old(fields) && configured == old(configured) && draft == old(draft)
      ensures error == old(error) && loading == old(loading)
      ensures cities == old(cities) && filteredCities == old(filteredCities)
    {
      currentImageUrl := "";
      image := None;
    }

    /** `handleTicketChange`: one input of the draft tier takes a value. */
    method ChangeDraft(input: DraftInput, value: Option<nat>)
      modifies this
      ensures draft == match input
                       case TypeInput => old(draft).(ticketTypeId := value)
                       case PriceInput => old(draft).(price := value)
                       case CapacityInput => old(draft).(maximunCapacity := value)
      ensures fields == old(fields) && configured == old(configured) && error == old(error)
      ensures image == old(image) && currentImageUrl == old(currentImageUrl) && loading == old(loading)
      ensures cities == old(cities) && filteredCities == old(filteredCities)
    {
      match input
      case TypeInput => draft := draft.(ticketTypeId := value);
      case PriceInput => draft := draft.(price := value);
      case CapacityInput => draft := draft.(maximunCapacity := value);
    }

    /**
     * `handleAddTicket`, the same rules as on creation: the tiers, the draft and the error
     * become those of `AddStep` on the old state, and nothing else changes.
     */
    method AddTicket()
      modifies this
      ensures var step := AddStep(old(configured), old(draft), old(fields.maxCapacity));
        configured == step.tiers && draft == step.draft && error == step.error
      ensures fields == old(fields) && image == old(image) && currentImageUrl == old(currentImageUrl)
      ensures loading == old(loading) && cities == old(cities) && filteredCities == old(filteredCities)
    {
      var step := AddStep(configured, draft, fields.maxCapacity);
      configured, draft, error := step.tiers, step.draft, step.error;
    }

    /** `handleRemoveTicket`: drop the tier at `index`, keeping the rest in order. */
    method RemoveTicket(index: int)
      modifies this
      ensures configured == FilterOutIndex(old(configured), index)
      ensures fields == old(fields) && draft == old(draft) && error == old(error)
      ensures image == old(image) && currentImageUrl == old(currentImageUrl) && loading == old(loading)
      ensures cities == old(cities) && filteredCities == old(filteredCities)
    {
      if DistinctTypes(configured) {
        RemoveKeepsTypesDistinct(configured, index);
      }
      if WithinTotal(configured, fields.maxCapacity) {
        RemoveKeepsWithinTotal(configured, index, fields.maxCapacity);
      }
      configured := FilterOutIndex(configured, index);
    }

    /** The text appends: the required fields, the filled-in optional ones, and the place. */
    method AppendTexts() returns (p: seq<Entry>)
      ensures KeysOf(p) == RequiredKeys + PresentOptionalKeys(fields) + EditPlaceKeys(fields)
      ensures TextEntries(p, fields)
    {
      p := [];
      p := AppendRequired(p, fields);
      p := AppendOptional(p, fields);
      if fields.country == "Colombia" {
        if fields.location != "" {
          p := AppendText(p, fields, Location);
        }
      } else {
        p := AppendText(p, fields, CityText);
        p := AppendText(p, fields, DepartmentText);
      }
    }

    /** The appends after the text fields: the image, the tiers, and the file a second time. */
    method AppendImageAndTiers() returns (q: seq<Entry>)
      ensures KeysOf(q) == ImageKeys(image, currentImageUrl) + [TicketTypeJson] + (if image.Some? then [Image] else [])
      ensures Carries(q, fields, image, configured)
    {
      q := [];
      if image.Some? {
        q := Append(q, Entry(Image, FileValue(image.value)));
      } else if currentImageUrl == "" {
        q := Append(q, Entry(Image, TextValue("")));
      }
      q := Append(q, Entry(TicketTypeJson, TiersJson(configured)));
      if image.Some? {
        q := Append(q, Entry(Image, FileValue(image.value)));
      }
    }

    /**
     * The body `handleSubmit` appends, field by field. It carries the keys `EditKeys`
     * lists, each with the value its key stands for: the form's text, the picked file
     * (or the empty value), and the tiers.
     */
    method EditBody() returns (body: seq<Entry>)
      ensures KeysOf(body) == EditKeys(fields, image, currentImageUrl)
      ensures Carries(body, fields, image, configured)
    {
      var p := AppendTexts();
      TextEntriesCarry(p, fields, image, configured);

      var q := AppendImageAndTiers();
      CarriesAppend(p, q, fields, image, configured);
      body := p + q;
      assert KeysOf(body) == KeysOf(p) + KeysOf(q);
    }

    /**
     * `handleSubmit`, with the session token and the server's reply as inputs: returns
     * the request body that was sent, if any. No request without a token (an empty one
     * counts as none) or without
     * tiers; the place is not checked.
     */
    method Submit(token: Option<string>, reply: Reply) returns (sent: Option<seq<Entry>>)
      modifies this
      ensures fields == old(fields) && configured == old(configured) && draft == old(draft)
      ensures image == old(image) && currentImageUrl == old(currentImageUrl)
      ensures cities == old(cities) && filteredCities == old(filteredCities)
      ensures sent.Some? <==> Truthy(token) && |configured| > 0
      ensures !Truthy(token) ==> error == Some(NotAuthenticated) && loading == old(loading)
      ensures Truthy(token) && |configured| == 0 ==> error == Some(NoTiers) && loading == old(loading)
      ensures sent.Some? ==>
                && KeysOf(sent.value) == EditKeys(fields, image, currentImageUrl)
                && Carries(sent.value, fields, image, configured)
                && error == FailureText(reply, EditFallback, EditErrorText)
                && !loading
    {
      if !Truthy(token) {
        error := Some(NotAuthenticated);
        return None;
      }
      if |configured| == 0 {
        error := Some(NoTiers);
        return None;
      }
      loading := true;
      error := None;
      var body := EditBody();
      sent := Some(body);
      match reply {
        case Accepted =>
        case Refused(ErrorObject(entries)) => error := Some(EditErrorText(entries));
        case Refused(NotAnObject) => error := Some(EditFallback);
        case Thrown(message) => error := Some(message);
      }
      loading := false;
    }
  }
}
