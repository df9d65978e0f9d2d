/**
 * The proxy's two search handlers (server.js, `/api/property` and
 * `/api/properties/list`) as pure functions. The provider's answers enter as
 * functions from the request parameters to an `Upstream` outcome, so each
 * handler is a function of its query and of what the provider says; the reply
 * is the status code and the JSON body the handler sends.
 */
module Proxy {
  import opened Wrappers
  import opened JsValues

  /**
   * What an awaited provider call yields: the response body, or the error that
   * axios throws, with the HTTP status of its response (None when no response
   * arrived) and its `message`.
   */
  datatype Upstream = Ok(data: Value) | Failed(status: Option<int>, message: string)

  /** A reply: `res.status(status).json(body)`, with 200 where the handler calls `res.json` alone. */
  datatype Reply = Reply(status: nat, body: Value)

  const AddressRequired := "Address is required"
  const KeyRejected := "API key is invalid or expired. Please check your RapidAPI key."
  const PropertyFailed := "Failed to fetch property data"
  const LocationRequired := "Location is required"
  const ListFailed := "Failed to fetch properties list"
  const DemoStatus := "Demo Data"
  const DemoDescription := "Demo property - API connection established but no matching property found."
  const DemoStreet := "123 Main St, "
  const DefaultLimit := "10"

  /** `{ error }` */
  function ErrorBody(message: string): Value
  {
    Obj(map["error" := Str(message)])
  }

  /** `{ error, details }` */
  function ErrorDetails(message: string, details: string): Value
  {
    Obj(map["error" := Str(message), "details" := Str(details)])
  }

  /** A query parameter that `!param` rejects: absent or empty. */
  predicate Missing(param: Option<string>)
  {
    param.None? || param.value == ""
  }

  /** `data?.autocomplete?.[0]`: the provider's first location suggestion. */
  function TopSuggestion(data: Value): Value
  {
    First(Get(data, "autocomplete"))
  }

  // ---------------------------------------------------------------- /api/property

  /** `suggestion.area_type === 'address' || suggestion._id`: the suggestion names a property. */
  predicate NamesProperty(suggestion: Value)
  {
    Get(suggestion, "area_type") == Str("address") || Truthy(Get(suggestion, "_id"))
  }

  /** `suggestion._id || suggestion.mpr_id` */
  function PropertyId(suggestion: Value): Value
  {
    Or(Get(suggestion, "_id"), Get(suggestion, "mpr_id"))
  }

  /** `data?.properties?.[0] || data`: the property record of a detail response. */
  function DetailRecord(data: Value): Value
  {
    Or(First(Get(data, "properties")), data)
  }

  /** The way the handler leaves: which of its `return`s it reaches, with what it has in hand. */
  datatype PropertyRoute =
    | MissingAddress
    | DemoProperty(address: string)
    | FoundProperty(property: Value, suggestion: Value)
    | PropertyError(status: Option<int>, message: string)  // the `catch` block

  /**
   * The decision of the `/api/property` handler. `typeErrorText` is the message
   * of the TypeError that reading a member of a null or undefined detail record raises.
   */
  function PropertyRouteOf(address: Option<string>, autocomplete: string -> Upstream,
                           detail: Value -> Upstream, typeErrorText: string): PropertyRoute
  {
    if Missing(address) then MissingAddress
    else
      match autocomplete(address.value)
      case Failed(status, message) => PropertyError(status, message)
      case Ok(data) =>
        var suggestion := TopSuggestion(data);
        if !Truthy(suggestion) || !NamesProperty(suggestion) || !Truthy(PropertyId(suggestion)) then
          DemoProperty(address.value)
        else
          match detail(PropertyId(suggestion))
          case Failed(status, message) => PropertyError(status, message)
          case Ok(details) =>
            var property := DetailRecord(details);
            if Nullish(property) then PropertyError(None, typeErrorText)
            else FoundProperty(property, suggestion)
  }

  /** The reply each route sends. */
  function PropertyReply(route: PropertyRoute): Reply
  {
    match route
    case MissingAddress => Reply(400, ErrorBody(AddressRequired))
    case DemoProperty(address) => Reply(200, DemoRecord(address))
    case FoundProperty(property, suggestion) => Reply(200, PropertyJson(FormattedProperty(property, suggestion)))
    case PropertyError(status, message) =>
      if status == Some(403) then Reply(403, ErrorBody(KeyRejected))
      else Reply(500, ErrorDetails(PropertyFailed, message))
  }

  /** `GET /api/property?address=...` */
  function PropertyEndpoint(address: Option<string>, autocomplete: string -> Upstream,
                            detail: Value -> Upstream, typeErrorText: string): Reply
  {
    PropertyReply(PropertyRouteOf(address, autocomplete, detail, typeErrorText))
  }

  /** The record sent when the provider has no matching property. */
  function DemoRecord(address: string): Value
  {
    Obj(map[
      "address" := Str(address),
      "price" := Num(450000.0),
      "bedrooms" := Num(3.0),
      "bathrooms" := Num(2.0),
      "livingArea" := Num(1850.0),
      "yearBuilt" := Num(2018.0),
      "propertyType" := Str("Single Family"),
      "taxAssessment" := Num(425000.0),
      "propertyTax" := Num(5200.0),
      "status" := Str(DemoStatus),
      "description" := Str(DemoDescription)])
  }

  /** `{ streetAddress, city, state, zipcode }`, the address shape both handlers send. */
  function AddressObject(street: Value, city: Value, state: Value, zipcode: Value): Value
  {
    Obj(map["streetAddress" := street, "city" := city, "state" := state, "zipcode" := zipcode])
  }

  /** `property.address || { ... }`, each part falling back from the record to the suggestion. */
  function RemappedAddress(property: Value, suggestion: Value): Value
  {
    Or(Get(property, "address"), AddressObject(
      Or(Get(property, "street"), Get(suggestion, "line")),
      Or(Get(property, "city"), Get(suggestion, "city")),
      Or(Get(property, "state_code"), Get(suggestion, "state_code")),
      Or(Get(property, "postal_code"), Get(suggestion, "postal_code"))))
  }

  /** `property.price || property.list_price || property.estimate?.estimate` */
  function RemappedPrice(property: Value): Value
  {
    Chain([Get(property, "price"), Get(property, "list_price"), Get(Get(property, "estimate"), "estimate")])
  }

  /** `property.k || property.k_max || property.k_min` for the beds, baths and sqft ranges. */
  function RangeValue(property: Value, exact: string, max: string, min: string): Value
  {
    Chain(Members(property, [exact, max, min]))
  }

  /** `property.listing_id || property.mls?.id` */
  function RemappedMls(property: Value): Value
  {
    Or(Get(property, "listing_id"), Get(Get(property, "mls"), "id"))
  }

  /** The members of `formattedProperty`, the provider's record under the names the client reads. */
  datatype FormattedRecord = FormattedRecord(
    address: Value,
    price: Value,
    bedrooms: Value,
    bathrooms: Value,
    livingArea: Value,
    yearBuilt: Value,
    propertyType: Value,
    taxAssessment: Value,
    propertyTax: Value,
    status: Value,
    mlsNumber: Value,
    daysOnMarket: Value,
    description: Value,
    lotSize: Value,
    hoaFee: Value)

  /** `formattedProperty`, built from the detail record and the suggestion it was found by. */
  function FormattedProperty(property: Value, suggestion: Value): FormattedRecord
  {
    FormattedRecord(
      address := RemappedAddress(property, suggestion),
      price := RemappedPrice(property),
      bedrooms := RangeValue(property, "beds", "beds_max", "beds_min"),
      bathrooms := RangeValue(property, "baths", "baths_max", "baths_min"),
      livingArea := RangeValue(property, "sqft", "sqft_max", "sqft_min"),
      yearBuilt := Get(property, "year_built"),
      propertyType := Or(Get(property, "prop_type"), Get(property, "property_type")),
      taxAssessment := Get(property, "tax_assessed_value"),
      propertyTax := Or(Get(property, "tax_amount"), Get(property, "annual_tax")),
      status := Or(Get(property, "prop_status"), Get(property, "status")),
      mlsNumber := RemappedMls(property),
      daysOnMarket := Get(property, "days_on_market"),
      description := Get(property, "description"),
      lotSize := Get(property, "lot_sqft"),
      hoaFee := Get(property, "hoa_fee"))
  }

  /** The JSON object of a formatted record. */
  function PropertyJson(r: FormattedRecord): Value
  {
    Obj(map[
      "address" := r.address,
      "price" := r.price,
      "bedrooms" := r.bedrooms,
      "bathrooms" := r.bathrooms,
      "livingArea" := r.livingArea,
      "yearBuilt" := r.yearBuilt,
      "propertyType" := r.propertyType,
      "taxAssessment" := r.taxAssessment,
      "propertyTax" := r.propertyTax,
      "status" := r.status,
      "mlsNumber" := r.mlsNumber,
      "daysOnMarket" := r.daysOnMarket,
      "description" := r.description,
      "lotSize" := r.lotSize,
      "hoaFee" := r.hoaFee])
  }

  // ---------------------------------------------------------------- /api/properties/list

  /** `limit.toString()` with the default `limit = 10`, which only an absent parameter takes. */
  function LimitText(limit: Option<string>): string
  {
    if limit.None? then DefaultLimit else limit.value
  }

  datatype ListRoute =
    | MissingLocation
    | DemoListing(location: string)
    | Listed(properties: seq<Value>)
    | ListError(message: string)  // the `catch` block

  /**
   * The decision of the `/api/properties/list` handler. `list` is the
   * list-for-sale call with the city, the state code and the limit text;
   * `typeErrorText` is the message of the TypeError that `.map` raises on a
   * `properties` member that is not an array, or on a null or undefined element.
   */
  function ListRouteOf(location: Option<string>, limit: Option<string>, autocomplete: string -> Upstream,
                       list: (Value, Value, string) -> Upstream, typeErrorText: string): ListRoute
  {
    if Missing(location) then MissingLocation
    else
      match autocomplete(location.value)
      case Failed(_, message) => ListError(message)
      case Ok(data) =>
        var place := TopSuggestion(data);
        if !Truthy(place) then DemoListing(location.value)
        else
          match list(Get(place, "city"), Get(place, "state_code"), LimitText(limit))
          case Failed(_, message) => ListError(message)
          case Ok(listing) =>
            var properties := Or(Get(listing, "properties"), Arr([]));
            if !properties.Arr? || exists i :: 0 <= i < |properties.items| && Nullish(properties.items[i]) then
              ListError(typeErrorText)
            else
              Listed(seq(|properties.items|, i requires 0 <= i < |properties.items| => ListItem(properties.items[i])))
  }

  function ListReply(route: ListRoute): Reply
  {
    match route
    case MissingLocation => Reply(400, ErrorBody(LocationRequired))
    case DemoListing(location) => Reply(200, Obj(map["properties" := Arr([DemoListItem(location)])]))
    case Listed(properties) => Reply(200, Obj(map["properties" := Arr(properties)]))
    case ListError(message) => Reply(500, ErrorDetails(ListFailed, message))
  }

  /** `GET /api/properties/list?location=...&limit=...` */
  function ListEndpoint(location: Option<string>, limit: Option<string>, autocomplete: string -> Upstream,
                        list: (Value, Value, string) -> Upstream, typeErrorText: string): Reply
  {
    ListReply(ListRouteOf(location, limit, autocomplete, list, typeErrorText))
  }

  /** The one demo entry sent when the location has no suggestion. */
  function DemoListItem(location: string): Value
  {
    Obj(map[
      "address" := Str(DemoStreet + location),
      "price" := Num(450000.0),
      "bedrooms" := Num(3.0),
      "bathrooms" := Num(2.0),
      "livingArea" := Num(1850.0),
      "status" := Str(DemoStatus)])
  }

  /** The address of a listed property: `prop.address?.line || prop.address` and the parts of `prop.address`. */
  function ListAddress(address: Value): Value
  {
    AddressObject(Or(Get(address, "line"), address), Get(address, "city"), Get(address, "state_code"), Get(address, "postal_code"))
  }

  /** The callback of the `.map` over the listed properties. */
  function ListItem(prop: Value): Value
  {
    Obj(map[
      "address" := ListAddress(Get(prop, "address")),
      "price" := Or(Get(prop, "price"), Get(prop, "list_price")),
      "bedrooms" := Get(prop, "beds"),
      "bathrooms" := Get(prop, "baths"),
      "livingArea" := Get(prop, "sqft"),
      "yearBuilt" := Get(prop, "year_built"),
      "propertyType" := Get(prop, "prop_type"),
      "status" := Get(prop, "prop_status"),
      "daysOnMarket" := Get(prop, "days_on_market"),
      "thumbnail" := Get(prop, "thumbnail")])
  }
}

/** What the proxy's replies promise, stated over every provider behaviour. */
module ProxyFacts {
  import opened Wrappers
  import opened JsValues
  import opened Proxy

  // ---------------------------------------------------------------- /api/property

  /** The address check comes first: a missing or empty address is answered 400 without asking the provider. */
  lemma PropertyValidation(address: Option<string>, autocomplete: string -> Upstream, detail: Value -> Upstream,
                           typeErrorText: string)
    ensures PropertyEndpoint(address, autocomplete, detail, typeErrorText).status == 400 <==> Missing(address)
    ensures Missing(address) ==>
      PropertyEndpoint(address, autocomplete, detail, typeErrorText) == Reply(400, ErrorBody(AddressRequired))
  {
  }

  /** Every reply of the property endpoint is 200, 400, 403 or 500. */
  lemma PropertyStatuses(address: Option<string>, autocomplete: string -> Upstream, detail: Value -> Upstream,
                         typeErrorText: string)
    ensures PropertyEndpoint(address, autocomplete, detail, typeErrorText).status in {200, 400, 403, 500}
  {
  }

  /** 403 is passed on only when a provider call was itself answered 403. */
  lemma ForbiddenOnlyFromProvider(address: Option<string>, autocomplete: string -> Upstream,
                                  detail: Value -> Upstream, typeErrorText: string)
    ensures var reply := PropertyEndpoint(address, autocomplete, detail, typeErrorText);
      reply.status == 403 <==>
        && !Missing(address)
        && match autocomplete(address.value)
           case Failed(status, _) => status == Some(403)
           case Ok(data) =>
             var suggestion := TopSuggestion(data);
             && Truthy(suggestion) && NamesProperty(suggestion) && Truthy(PropertyId(suggestion))
             && detail(PropertyId(suggestion)).Failed? && detail(PropertyId(suggestion)).status == Some(403)
  {
  }

  /** A failing autocomplete call: 403 with the API-key message, or 500 with the error's message as details. */
  lemma AutocompleteFailure(address: Option<string>, autocomplete: string -> Upstream, detail: Value -> Upstream,
                            typeErrorText: string)
    requires !Missing(address) && autocomplete(address.value).Failed?
    ensures var failure := autocomplete(address.value);
      var reply := PropertyEndpoint(address, autocomplete, detail, typeErrorText);
      && (failure.status == Some(403) ==> reply == Reply(403, ErrorBody(KeyRejected)))
      && (failure.status != Some(403) ==> reply == Reply(500, ErrorDetails(PropertyFailed, failure.message)))
  {
  }

  /**
   * The demo record is sent exactly when the provider answers but its first
   * suggestion is missing, does not name a property, or carries no id.
   */
  lemma DemoFallback(address: Option<string>, autocomplete: string -> Upstream, detail: Value -> Upstream,
                     typeErrorText: string)
    requires !Missing(address) && autocomplete(address.value).Ok?
    ensures var suggestion := TopSuggestion(autocomplete(address.value).data);
      PropertyEndpoint(address, autocomplete, detail, typeErrorText) == Reply(200, DemoRecord(address.value)) <==>
        !Truthy(suggestion) || !NamesProperty(suggestion) || !Truthy(PropertyId(suggestion))
  {
    var route := PropertyRouteOf(address, autocomplete, detail, typeErrorText);
    if route.FoundProperty? {
      FoundIsNotDemo(FormattedProperty(route.property, route.suggestion), address.value);
    }
  }

  /** A formatted record always carries `mlsNumber`, which the demo record lacks. */
  lemma FoundIsNotDemo(r: FormattedRecord, address: string)
    ensures PropertyJson(r) != DemoRecord(address)
  {
    assert "mlsNumber" in PropertyJson(r).fields;
    assert "mlsNumber" !in DemoRecord(address).fields;
  }

  /** The provider answers with a suggestion that names a property and has an id, so the detail service is asked. */
  predicate DetailAsked(address: Option<string>, autocomplete: string -> Upstream)
  {
    && !Missing(address) && autocomplete(address.value).Ok?
    && var suggestion := TopSuggestion(autocomplete(address.value).data);
       Truthy(suggestion) && NamesProperty(suggestion) && Truthy(PropertyId(suggestion))
  }

  /** The suggestion the property was found by. */
  function Matched(address: Option<string>, autocomplete: string -> Upstream): Value
    requires DetailAsked(address, autocomplete)
  {
    TopSuggestion(autocomplete(address.value).data)
  }

  /** The detail service's answer for the matched suggestion's id. */
  function DetailAnswer(address: Option<string>, autocomplete: string -> Upstream, detail: Value -> Upstream): Upstream
    requires DetailAsked(address, autocomplete)
  {
    detail(PropertyId(Matched(address, autocomplete)))
  }

  /** A failing detail call: 403 with the API-key message, or 500 with the error's message as details. */
  lemma DetailFailure(address: Option<string>, autocomplete: string -> Upstream, detail: Value -> Upstream,
                      typeErrorText: string)
    requires DetailAsked(address, autocomplete) && DetailAnswer(address, autocomplete, detail).Failed?
    ensures var failure := DetailAnswer(address, autocomplete, detail);
      var reply := PropertyEndpoint(address, autocomplete, detail, typeErrorText);
      && (failure.status == Some(403) ==> reply == Reply(403, ErrorBody(KeyRejected)))
      && (failure.status != Some(403) ==> reply == Reply(500, ErrorDetails(PropertyFailed, failure.message)))
  {
  }

  /**
   * The record is `properties[0]` when that is truthy and the whole response
   * otherwise, so it is `null` or `undefined` exactly when the response is.
   */
  lemma DetailRecordChoice(data: Value)
    ensures Truthy(First(Get(data, "properties"))) ==> DetailRecord(data) == First(Get(data, "properties"))
    ensures !Truthy(First(Get(data, "properties"))) ==> DetailRecord(data) == data
    ensures Nullish(DetailRecord(data)) <==> Nullish(data)
  {
  }

  /** A detail response that is `null` or `undefined` makes reading the record's members throw a TypeError: 500. */
  lemma NullDetailRecord(address: Option<string>, autocomplete: string -> Upstream, detail: Value -> Upstream,
                         typeErrorText: string)
    requires DetailAsked(address, autocomplete) && DetailAnswer(address, autocomplete, detail).Ok?
    requires Nullish(DetailAnswer(address, autocomplete, detail).data)
    ensures PropertyEndpoint(address, autocomplete, detail, typeErrorText)
         == Reply(500, ErrorDetails(PropertyFailed, typeErrorText))
  {
    DetailRecordChoice(DetailAnswer(address, autocomplete, detail).data);
  }

  /** Otherwise the reply is the formatted record of the detail response and the matched suggestion. */
  lemma FoundReply(address: Option<string>, autocomplete: string -> Upstream, detail: Value -> Upstream,
                   typeErrorText: string)
    requires DetailAsked(address, autocomplete) && DetailAnswer(address, autocomplete, detail).Ok?
    requires !Nullish(DetailAnswer(address, autocomplete, detail).data)
    ensures var record := DetailRecord(DetailAnswer(address, autocomplete, detail).data);
      PropertyEndpoint(address, autocomplete, detail, typeErrorText)
        == Reply(200, PropertyJson(FormattedProperty(record, Matched(address, autocomplete))))
  {
    DetailRecordChoice(DetailAnswer(address, autocomplete, detail).data);
  }

  /** The demo record echoes the address asked for and announces itself as demo data. */
  lemma DemoRecordFields(address: string)
    ensures var demo := DemoRecord(address);
      && Get(demo, "address") == Str(address)
      && Get(demo, "status") == Str(DemoStatus)
      && Get(demo, "price") == Num(450000.0)
  {
  }

  /** The provider is asked for details by the suggestion's id alone: two detail services that agree there give the same reply. */
  lemma DetailAskedById(address: Option<string>, autocomplete: string -> Upstream,
                        detail: Value -> Upstream, other: Value -> Upstream, typeErrorText: string)
    requires !Missing(address) && autocomplete(address.value).Ok?
    requires var id := PropertyId(TopSuggestion(autocomplete(address.value).data));
      detail(id) == other(id)
    ensures PropertyEndpoint(address, autocomplete, detail, typeErrorText)
         == PropertyEndpoint(address, autocomplete, other, typeErrorText)
  {
  }

  /** The id is `_id` when that is truthy, and `mpr_id` otherwise. */
  lemma IdPreference(suggestion: Value)
    ensures Truthy(Get(suggestion, "_id")) ==> PropertyId(suggestion) == Get(suggestion, "_id")
    ensures !Truthy(Get(suggestion, "_id")) ==> PropertyId(suggestion) == Get(suggestion, "mpr_id")
  {
  }

  /** `v` is the first truthy of `first` and `second`, else `last`. */
  predicate FirstTruthyOf(v: Value, first: Value, second: Value, last: Value)
  {
    && (Truthy(first) ==> v == first)
    && (!Truthy(first) && Truthy(second) ==> v == second)
    && (!Truthy(first) && !Truthy(second) ==> v == last)
  }

  /** A range field prefers the exact value, then the `_max` bound, then the `_min` bound. */
  lemma RangePreference(property: Value, exact: string, max: string, min: string)
    ensures FirstTruthyOf(RangeValue(property, exact, max, min), Get(property, exact), Get(property, max), Get(property, min))
  {
    var values := Members(property, [exact, max, min]);
    if Truthy(values[0]) {
      ChainFirstTruthy(values, 0);
    } else if Truthy(values[1]) {
      ChainFirstTruthy(values, 1);
    } else {
      ChainAllFalsy(values);
    }
  }

  /** The formatted record's rooms and area follow the exact, maximum, minimum order. */
  lemma FormattedRanges(property: Value, suggestion: Value)
    ensures var formatted := FormattedProperty(property, suggestion);
      && FirstTruthyOf(formatted.bedrooms,
           Get(property, "beds"), Get(property, "beds_max"), Get(property, "beds_min"))
      && FirstTruthyOf(formatted.bathrooms,
           Get(property, "baths"), Get(property, "baths_max"), Get(property, "baths_min"))
      && FirstTruthyOf(formatted.livingArea,
           Get(property, "sqft"), Get(property, "sqft_max"), Get(property, "sqft_min"))
  {
    RangePreference(property, "beds", "beds_max", "beds_min");
    RangePreference(property, "baths", "baths_max", "baths_min");
    RangePreference(property, "sqft", "sqft_max", "sqft_min");
  }

  /** The price falls back from `price` to `list_price` to the estimate; the MLS number from `listing_id` to `mls.id`. */
  lemma FormattedPriceAndMls(property: Value, suggestion: Value)
    ensures var formatted := FormattedProperty(property, suggestion);
      && FirstTruthyOf(formatted.price,
           Get(property, "price"), Get(property, "list_price"), Get(Get(property, "estimate"), "estimate"))
      && (Truthy(Get(property, "listing_id")) ==> formatted.mlsNumber == Get(property, "listing_id"))
      && (!Truthy(Get(property, "listing_id")) ==> formatted.mlsNumber == Get(Get(property, "mls"), "id"))
  {
    var prices := [Get(property, "price"), Get(property, "list_price"), Get(Get(property, "estimate"), "estimate")];
    if Truthy(prices[0]) {
      ChainFirstTruthy(prices, 0);
    } else if Truthy(prices[1]) {
      ChainFirstTruthy(prices, 1);
    } else {
      ChainAllFalsy(prices);
    }
  }

  /** The parts of an address object, and nothing else. */
  lemma AddressObjectParts(street: Value, city: Value, state: Value, zipcode: Value)
    ensures var address := AddressObject(street, city, state, zipcode);
      && address.fields.Keys == {"streetAddress", "city", "state", "zipcode"}
      && Get(address, "streetAddress") == street
      && Get(address, "city") == city
      && Get(address, "state") == state
      && Get(address, "zipcode") == zipcode
  {
  }

  /**
   * The provider's own `address` is kept when truthy; otherwise an address
   * object is built whose parts each fall back from the record to the suggestion.
   */
  lemma AddressRemap(property: Value, suggestion: Value)
    ensures var address := FormattedProperty(property, suggestion).address;
      && (Truthy(Get(property, "address")) ==> address == Get(property, "address"))
      && (!Truthy(Get(property, "address")) ==>
            && address.Obj?
            && address.fields.Keys == {"streetAddress", "city", "state", "zipcode"}
            && FirstTruthyOf(Get(address, "streetAddress"), Get(property, "street"), Get(suggestion, "line"), Get(suggestion, "line"))
            && FirstTruthyOf(Get(address, "city"), Get(property, "city"), Get(suggestion, "city"), Get(suggestion, "city"))
            && FirstTruthyOf(Get(address, "state"), Get(property, "state_code"), Get(suggestion, "state_code"), Get(suggestion, "state_code"))
            && FirstTruthyOf(Get(address, "zipcode"), Get(property, "postal_code"), Get(suggestion, "postal_code"), Get(suggestion, "postal_code")))
  {
    AddressObjectParts(
      Or(Get(property, "street"), Get(suggestion, "line")),
      Or(Get(property, "city"), Get(suggestion, "city")),
      Or(Get(property, "state_code"), Get(suggestion, "state_code")),
      Or(Get(property, "postal_code"), Get(suggestion, "postal_code")));
  }

  // ---------------------------------------------------------------- /api/properties/list

  /** A missing or empty location is answered 400 without asking the provider. */
  lemma ListValidation(location: Option<string>, limit: Option<string>, autocomplete: string -> Upstream,
                       list: (Value, Value, string) -> Upstream, typeErrorText: string)
    ensures ListEndpoint(location, limit, autocomplete, list, typeErrorText).status == 400 <==> Missing(location)
    ensures Missing(location) ==>
      ListEndpoint(location, limit, autocomplete, list, typeErrorText) == Reply(400, ErrorBody(LocationRequired))
  {
  }

  /** The list endpoint never answers 403: every failure, a provider 403 included, is a 500 with the error's message. */
  lemma ListFailures(location: Option<string>, limit: Option<string>, autocomplete: string -> Upstream,
                     list: (Value, Value, string) -> Upstream, typeErrorText: string)
    ensures ListEndpoint(location, limit, autocomplete, list, typeErrorText).status in {200, 400, 500}
    ensures !Missing(location) && autocomplete(location.value).Failed? ==>
      ListEndpoint(location, limit, autocomplete, list, typeErrorText)
        == Reply(500, ErrorDetails(ListFailed, autocomplete(location.value).message))
  {
  }

  /** With no suggestion for the location, one demo entry is listed at '123 Main St, ' followed by the location. */
  lemma ListDemo(location: Option<string>, limit: Option<string>, autocomplete: string -> Upstream,
                 list: (Value, Value, string) -> Upstream, typeErrorText: string)
    requires !Missing(location) && autocomplete(location.value).Ok?
    requires !Truthy(TopSuggestion(autocomplete(location.value).data))
    ensures var reply := ListEndpoint(location, limit, autocomplete, list, typeErrorText);
      && reply.status == 200
      && Get(reply.body, "properties") == Arr([DemoListItem(location.value)])
      && Get(DemoListItem(location.value), "address") == Str("123 Main St, " + location.value)
      && Get(DemoListItem(location.value), "status") == Str(DemoStatus)
  {
  }

  /** The provider is asked for the suggestion's city and state code and the limit text, which defaults to "10". */
  lemma ListAskedByPlace(location: Option<string>, limit: Option<string>, autocomplete: string -> Upstream,
                         list: (Value, Value, string) -> Upstream, other: (Value, Value, string) -> Upstream,
                         typeErrorText: string)
    requires !Missing(location) && autocomplete(location.value).Ok?
    requires var place := TopSuggestion(autocomplete(location.value).data);
      list(Get(place, "city"), Get(place, "state_code"), LimitText(limit))
        == other(Get(place, "city"), Get(place, "state_code"), LimitText(limit))
    ensures ListEndpoint(location, limit, autocomplete, list, typeErrorText)
         == ListEndpoint(location, limit, autocomplete, other, typeErrorText)
    ensures LimitText(None) == "10" && (limit.Some? ==> LimitText(limit) == limit.value)
  {
  }

  /** The provider has a suggestion for the location, so the list service is asked. */
  predicate ListAsked(location: Option<string>, autocomplete: string -> Upstream)
  {
    !Missing(location) && autocomplete(location.value).Ok? && Truthy(TopSuggestion(autocomplete(location.value).data))
  }

  /** The list service's answer for the suggestion's city and state code and the limit text. */
  function ListAnswer(location: Option<string>, limit: Option<string>, autocomplete: string -> Upstream,
                      list: (Value, Value, string) -> Upstream): Upstream
    requires ListAsked(location, autocomplete)
  {
    var place := TopSuggestion(autocomplete(location.value).data);
    list(Get(place, "city"), Get(place, "state_code"), LimitText(limit))
  }

  /** The provider's listing of a location that has a suggestion, when the list call succeeds. */
  predicate ListingArrives(location: Option<string>, limit: Option<string>, autocomplete: string -> Upstream,
                           list: (Value, Value, string) -> Upstream)
  {
    ListAsked(location, autocomplete) && ListAnswer(location, limit, autocomplete, list).Ok?
  }

  function Listing(location: Option<string>, limit: Option<string>, autocomplete: string -> Upstream,
                   list: (Value, Value, string) -> Upstream): Value
    requires ListingArrives(location, limit, autocomplete, list)
  {
    ListAnswer(location, limit, autocomplete, list).data
  }

  /** A failing list call, a 403 included, gives 500 with the error's message. */
  lemma ListCallFailure(location: Option<string>, limit: Option<string>, autocomplete: string -> Upstream,
                        list: (Value, Value, string) -> Upstream, typeErrorText: string)
    requires ListAsked(location, autocomplete) && ListAnswer(location, limit, autocomplete, list).Failed?
    ensures ListEndpoint(location, limit, autocomplete, list, typeErrorText)
         == Reply(500, ErrorDetails(ListFailed, ListAnswer(location, limit, autocomplete, list).message))
  {
  }

  /** A truthy `properties` member that is not an array has no `.map`: the TypeError gives 500. */
  lemma NonArrayListing(location: Option<string>, limit: Option<string>, autocomplete: string -> Upstream,
                        list: (Value, Value, string) -> Upstream, typeErrorText: string)
    requires ListingArrives(location, limit, autocomplete, list)
    requires var properties := Get(Listing(location, limit, autocomplete, list), "properties");
      Truthy(properties) && !properties.Arr?
    ensures ListEndpoint(location, limit, autocomplete, list, typeErrorText)
         == Reply(500, ErrorDetails(ListFailed, typeErrorText))
  {
  }

  /** A listing without a truthy `properties` member gives an empty list. */
  lemma ListMissingProperties(location: Option<string>, limit: Option<string>, autocomplete: string -> Upstream,
                              list: (Value, Value, string) -> Upstream, typeErrorText: string)
    requires ListingArrives(location, limit, autocomplete, list)
    requires !Truthy(Get(Listing(location, limit, autocomplete, list), "properties"))
    ensures ListEndpoint(location, limit, autocomplete, list, typeErrorText) == Reply(200, Obj(map["properties" := Arr([])]))
  {
    var route := ListRouteOf(location, limit, autocomplete, list, typeErrorText);
    assert route == Listed([]);
  }

  /**
   * One listed entry per provider property, in the provider's order; a null
   * or undefined property makes the mapping throw, which is answered 500.
   */
  lemma ListMapping(location: Option<string>, limit: Option<string>, autocomplete: string -> Upstream,
                    list: (Value, Value, string) -> Upstream, typeErrorText: string)
    requires ListingArrives(location, limit, autocomplete, list)
    requires Get(Listing(location, limit, autocomplete, list), "properties").Arr?
    ensures var props := Get(Listing(location, limit, autocomplete, list), "properties").items;
      var reply := ListEndpoint(location, limit, autocomplete, list, typeErrorText);
      if exists i :: 0 <= i < |props| && Nullish(props[i]) then
        reply == Reply(500, ErrorDetails(ListFailed, typeErrorText))
      else
        && reply.status == 200
        && Get(reply.body, "properties").Arr?
        && |Get(reply.body, "properties").items| == |props|
        && forall i :: 0 <= i < |props| ==> Get(reply.body, "properties").items[i] == ListItem(props[i])
  {
    var props := Get(Listing(location, limit, autocomplete, list), "properties");
    assert Or(props, Arr([])) == props;
  }

  /** A listed property whose address is a plain string keeps it as the street and has no city, state or zip. */
  lemma FlatListAddress(prop: Value)
    requires Get(prop, "address").Str?
    ensures var address := Get(ListItem(prop), "address");
      && Get(address, "streetAddress") == Get(prop, "address")
      && Get(address, "city") == Undefined
      && Get(address, "state") == Undefined
      && Get(address, "zipcode") == Undefined
  {
  }
}
