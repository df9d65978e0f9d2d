/**
 * What the client shows for each field of a property card (app.js,
 * `displayPropertyResults` and `displayNeighborhoodResults`), as text values
 * rather than HTML. Each field is an alias chain `a || b || ...`: the single-
 * property card reads its aliases through `safeGet`, whose default `'N/A'` is
 * truthy, while the neighborhood cards read plain members.
 */
module Display {
  import opened Wrappers
  import opened JsValues
  import opened Format

  /** `safeGet(data, keys[0]), safeGet(data, keys[1]), ...` */
  function Aliases(data: Value, keys: seq<string>): (r: seq<Value>)
    ensures |r| == |keys|
  {
    seq(|keys|, i requires 0 <= i < |keys| => SafeGet(data, keys[i]))
  }

  // ---------------------------------------------------------------- single property

  const PriceKeys := ["price", "listPrice", "estimatedValue", "zestimate"]
  const BedroomKeys := ["bedrooms", "beds", "bedroomCount"]
  const BathroomKeys := ["bathrooms", "baths", "bathroomCount"]
  const AreaKeys := ["livingArea", "sqft", "squareFeet", "finishedSqFt"]
  const YearKeys := ["yearBuilt", "year_built"]
  const TypeKeys := ["propertyType", "homeType", "property_type"]
  const AssessmentKeys := ["taxAssessment", "taxAssessedValue", "tax_assessment"]
  const TaxKeys := ["propertyTax", "annualTax", "property_tax", "taxAnnualAmount"]
  const LotKeys := ["lotSize", "lot_size", "lotAreaValue"]
  const StatusKeys := ["status", "listingStatus", "homeStatus"]
  const MlsKeys := ["mlsNumber", "mls", "listing_id"]
  const DaysKeys := ["daysOnMarket", "days_on_market", "timeOnZillow"]

  datatype PropertyView =
    | NoPropertyData  // the error 'No property data available'
    | PropertyCard(
        address: string,
        price: string,
        bedrooms: string,
        bathrooms: string,
        squareFeet: string,
        yearBuilt: string,
        propertyType: string,
        taxAssessment: string,
        annualTaxes: string,
        lotSize: string,
        status: string,
        mlsNumber: string,
        daysOnMarket: string,
        hoaFees: string,
        description: Option<string>)  // None: the description block is left out

  /** A chain of `safeGet` aliases that the source closes with `|| 'N/A'`. */
  function ShownText(host: Host, data: Value, keys: seq<string>): string
  {
    ToText(host, Chain(Aliases(data, keys) + [Str(NotAvailable)]))
  }

  function PriceText(host: Host, data: Value): string
  {
    FormatCurrency(host, Chain(Aliases(data, PriceKeys)))
  }

  /** `v ? formatNumber(v) + unit : 'N/A'` */
  function NumberWithUnit(host: Host, v: Value, unit: string): string
  {
    if Truthy(v) then FormatNumber(host, v) + unit else NotAvailable
  }

  /** `v ? formatCurrency(v) + unit : 'N/A'` */
  function CurrencyWithUnit(host: Host, v: Value, unit: string): string
  {
    if Truthy(v) then FormatCurrency(host, v) + unit else NotAvailable
  }

  /** The lot size chain is tested, then formatted with the unit appended. */
  function LotSizeText(host: Host, data: Value): string
  {
    NumberWithUnit(host, Chain(Aliases(data, LotKeys)), " sq ft")
  }

  function HoaFeeText(host: Host, data: Value): string
  {
    CurrencyWithUnit(host, SafeGet(data, "hoaFee"), "/mo")
  }

  /** The description block: its text, or None when it is left out. */
  function Block(host: Host, v: Value): Option<string>
  {
    if Truthy(v) then Some(ToText(host, v)) else None
  }

  function DescriptionText(host: Host, data: Value): Option<string>
  {
    Block(host, SafeGet(data, "description"))
  }

  /** `displayPropertyResults(data)`. */
  function DisplayProperty(host: Host, data: Value): (view: PropertyView)
    ensures view.NoPropertyData? <==> !Truthy(data)
  {
    if !Truthy(data) then NoPropertyData
    else
      PropertyCard(
        address := FormatAddress(host, data),
        price := PriceText(host, data),
        bedrooms := ShownText(host, data, BedroomKeys),
        bathrooms := ShownText(host, data, BathroomKeys),
        squareFeet := FormatNumber(host, Chain(Aliases(data, AreaKeys))),
        yearBuilt := ShownText(host, data, YearKeys),
        propertyType := ShownText(host, data, TypeKeys),
        taxAssessment := FormatCurrency(host, Chain(Aliases(data, AssessmentKeys))),
        annualTaxes := FormatCurrency(host, Chain(Aliases(data, TaxKeys))),
        lotSize := LotSizeText(host, data),
        status := ShownText(host, data, StatusKeys),
        mlsNumber := ShownText(host, data, MlsKeys),
        daysOnMarket := ShownText(host, data, DaysKeys),
        hoaFees := HoaFeeText(host, data),
        description := DescriptionText(host, data))
  }

  // ---------------------------------------------------------------- neighborhood list

  datatype AreaCard = AreaCard(
    address: string,
    price: string,
    bedrooms: string,
    bathrooms: string,
    squareFeet: string,
    status: string)

  datatype NeighborhoodView =
    | NoPropertiesFound          // the error 'No properties found in this area'
    | AreaCards(cards: seq<AreaCard>)
    | TypeErrorThrown            // a null or undefined element: reading its members throws

  /** The card that `displayNeighborhoodResults` renders for one element. */
  function AreaCardOf(host: Host, property: Value): AreaCard
    requires !Nullish(property)
  {
    AreaCard(
      address := FormatAddress(host, property),
      price := CardPrice(host, property),
      bedrooms := CardBedrooms(host, property),
      bathrooms := ToText(host, Chain(Members(property, ["bathrooms", "baths"]) + [Str(NotAvailable)])),
      squareFeet := FormatNumber(host, Chain(Members(property, ["livingArea", "sqft"]))),
      status := CardStatus(host, property))
  }

  function CardPrice(host: Host, property: Value): string
  {
    FormatCurrency(host, Chain(Members(property, ["price", "listPrice", "estimatedValue"])))
  }

  function CardBedrooms(host: Host, property: Value): string
  {
    ToText(host, Chain(Members(property, ["bedrooms", "beds"]) + [Str(NotAvailable)]))
  }

  function CardStatus(host: Host, property: Value): string
  {
    ToText(host, Chain(Members(property, ["status", "listingStatus"]) + [Str("Active")]))
  }

  /** `displayNeighborhoodResults(properties)`. */
  function DisplayNeighborhood(host: Host, properties: Value): (view: NeighborhoodView)
    ensures view.NoPropertiesFound? <==> !properties.Arr? || properties.items == []
    ensures view.TypeErrorThrown? <==>
      properties.Arr? && properties.items != [] && exists i :: 0 <= i < |properties.items| && Nullish(properties.items[i])
    ensures view.AreaCards? ==>
      && |view.cards| == |properties.items|
      && forall i :: 0 <= i < |properties.items| ==>
           !Nullish(properties.items[i]) && view.cards[i] == AreaCardOf(host, properties.items[i])
  {
    if !Truthy(properties) || !properties.Arr? || |properties.items| == 0 then NoPropertiesFound
    else if exists i :: 0 <= i < |properties.items| && Nullish(properties.items[i]) then TypeErrorThrown
    else
      var items := properties.items;
      AreaCards(seq(|items|, i requires 0 <= i < |items| => AreaCardOf(host, items[i])))
  }
}

/** Properties of the alias chains and of the cards built from them. */
module DisplayFacts {
  import opened Wrappers
  import opened JsValues
  import opened Format
  import opened FormatFacts
  import opened Display

  predicate PlainKey(key: string)
  {
    forall i :: 0 <= i < |key| ==> key[i] != '.'
  }

  /**
   * In a `safeGet` chain an absent first key ends the chain: `safeGet`
   * supplies the truthy `'N/A'`, so no later alias is read.
   */
  lemma AbsentHeadEndsChain(data: Value, keys: seq<string>, rest: seq<Value>)
    requires |keys| > 0 && PlainKey(keys[0])
    requires Nullish(Get(data, keys[0]))
    ensures Chain(Aliases(data, keys) + rest) == Str(NotAvailable)
  {
    SafeGetKey(data, keys[0], Str(NotAvailable));
    ChainFirstTruthy(Aliases(data, keys) + rest, 0);
  }

  /**
   * A later alias of a `safeGet` chain decides the value only when the first
   * key is present with a falsy value (0, '', false).
   */
  lemma LaterAliasOnlyAfterFalsyHead(data: Value, keys: seq<string>, rest: seq<Value>)
    requires |keys| > 0 && PlainKey(keys[0])
    ensures Chain(Aliases(data, keys) + rest) != Aliases(data, keys)[0] ==>
      !Nullish(Get(data, keys[0])) && !Truthy(Get(data, keys[0]))
  {
    SafeGetKey(data, keys[0], Str(NotAvailable));
    if Truthy(Aliases(data, keys)[0]) {
      ChainFirstTruthy(Aliases(data, keys) + rest, 0);
    }
  }

  /** An absent price shows 'N/A'. */
  lemma AbsentPrice(host: Host, data: Value)
    requires Nullish(Get(data, "price"))
    ensures PriceText(host, data) == NotAvailable
  {
    AbsentHeadEndsChain(data, PriceKeys, []);
    assert Aliases(data, PriceKeys) + [] == Aliases(data, PriceKeys);
  }

  /** An absent first key of a field closed by `|| 'N/A'` shows 'N/A'. */
  lemma AbsentShownField(host: Host, data: Value, keys: seq<string>)
    requires |keys| > 0 && PlainKey(keys[0])
    requires Nullish(Get(data, keys[0]))
    ensures ShownText(host, data, keys) == NotAvailable
  {
    AbsentHeadEndsChain(data, keys, [Str(NotAvailable)]);
  }

  /** An absent lot size shows 'N/A sq ft': the chain is the truthy 'N/A', which `formatNumber` turns back into 'N/A'. */
  lemma AbsentLotSize(host: Host, data: Value)
    requires Nullish(Get(data, "lotSize"))
    ensures LotSizeText(host, data) == "N/A sq ft"
  {
    AbsentLotChain(data);
    PlaceholderWithUnit(host, " sq ft");
  }

  lemma AbsentLotChain(data: Value)
    requires Nullish(Get(data, "lotSize"))
    ensures Chain(Aliases(data, LotKeys)) == Str(NotAvailable)
  {
    LotKeysPlain();
    AbsentHeadEndsChain(data, LotKeys, []);
    assert Aliases(data, LotKeys) + [] == Aliases(data, LotKeys);
  }

  /** The truthy 'N/A' is formatted back into 'N/A', and the unit is appended. */
  lemma PlaceholderWithUnit(host: Host, unit: string)
    ensures NumberWithUnit(host, Str(NotAvailable), unit) == NotAvailable + unit
    ensures CurrencyWithUnit(host, Str(NotAvailable), unit) == NotAvailable + unit
  {
  }

  /** A falsy `safeGet` chain means every alias is present with a falsy value. */
  lemma FalsyAliases(data: Value, keys: seq<string>)
    requires |keys| > 0 && forall i :: 0 <= i < |keys| ==> PlainKey(keys[i])
    requires !Truthy(Chain(Aliases(data, keys)))
    ensures forall i :: 0 <= i < |keys| ==> !Nullish(Get(data, keys[i])) && !Truthy(Get(data, keys[i]))
  {
    var values := Aliases(data, keys);
    FalsyChain(values);
    forall i | 0 <= i < |keys|
      ensures !Nullish(Get(data, keys[i])) && !Truthy(Get(data, keys[i]))
    {
      SafeGetKey(data, keys[i], Str(NotAvailable));
      assert values[i] == SafeGet(data, keys[i]);
    }
  }

  /** The bare 'N/A' comes only from a falsy chain: a truthy one always carries the unit. */
  lemma LotSizePlaceholderMeansFalsyChain(host: Host, data: Value)
    ensures LotSizeText(host, data) == NotAvailable ==> !Truthy(Chain(Aliases(data, LotKeys)))
  {
    var lot := Chain(Aliases(data, LotKeys));
    if Truthy(lot) {
      assert |LotSizeText(host, data)| == |FormatNumber(host, lot)| + 6;
    }
  }

  lemma PriceKeysPlain()
    ensures forall i :: 0 <= i < |PriceKeys| ==> PlainKey(PriceKeys[i])
  {
    assert PlainKey(PriceKeys[0]) && PlainKey(PriceKeys[1]) && PlainKey(PriceKeys[2]) && PlainKey(PriceKeys[3]);
  }

  lemma LotKeysPlain()
    ensures forall i :: 0 <= i < |LotKeys| ==> PlainKey(LotKeys[i])
  {
    assert PlainKey(LotKeys[0]) && PlainKey(LotKeys[1]) && PlainKey(LotKeys[2]);
  }

  /** The bare 'N/A' (without the unit) needs all three lot-size aliases present and falsy. */
  lemma LotSizePlaceholderNeedsFalsyAliases(host: Host, data: Value)
    ensures LotSizeText(host, data) == NotAvailable ==>
      forall i :: 0 <= i < 3 ==> !Nullish(Get(data, LotKeys[i])) && !Truthy(Get(data, LotKeys[i]))
  {
    LotSizePlaceholderMeansFalsyChain(host, data);
    if LotSizeText(host, data) == NotAvailable {
      LotKeysPlain();
      FalsyAliases(data, LotKeys);
    }
  }

  /** An absent HOA fee shows 'N/A/mo'; a present truthy one is formatted as currency per month. */
  lemma HoaFeeShown(host: Host, data: Value)
    ensures Nullish(Get(data, "hoaFee")) ==> HoaFeeText(host, data) == "N/A/mo"
    ensures Truthy(Get(data, "hoaFee")) ==> HoaFeeText(host, data) == FormatCurrency(host, Get(data, "hoaFee")) + "/mo"
    ensures !Nullish(Get(data, "hoaFee")) && !Truthy(Get(data, "hoaFee")) ==> HoaFeeText(host, data) == NotAvailable
  {
    HoaFeeKeyPlain();
    CurrencyField(host, data, "hoaFee", "/mo");
    assert NotAvailable + "/mo" == "N/A/mo";
  }

  lemma HoaFeeKeyPlain()
    ensures PlainKey("hoaFee")
  {
  }

  /** A `safeGet` field shown as currency with a unit: 'N/A' and the unit when absent, 'N/A' alone when present and falsy. */
  lemma CurrencyField(host: Host, data: Value, key: string, unit: string)
    requires PlainKey(key)
    ensures var v := Get(data, key); var text := CurrencyWithUnit(host, SafeGet(data, key), unit);
      && (Nullish(v) ==> text == NotAvailable + unit)
      && (Truthy(v) ==> text == FormatCurrency(host, v) + unit)
      && (!Nullish(v) && !Truthy(v) ==> text == NotAvailable)
  {
    SafeGetKey(data, key, Str(NotAvailable));
    PlaceholderWithUnit(host, unit);
  }

  /** The description block is shown unless the description is present and falsy; an absent one reads 'N/A'. */
  lemma DescriptionShown(host: Host, data: Value)
    ensures Nullish(Get(data, "description")) ==> DescriptionText(host, data) == Some(NotAvailable)
    ensures DescriptionText(host, data).None? <==> !Nullish(Get(data, "description")) && !Truthy(Get(data, "description"))
  {
    DescriptionKeyPlain();
    BlockField(host, data, "description");
  }

  lemma DescriptionKeyPlain()
    ensures PlainKey("description")
  {
  }

  /** A `safeGet` field shown as a block: 'N/A' when absent, left out exactly when present and falsy. */
  lemma BlockField(host: Host, data: Value, key: string)
    requires PlainKey(key)
    ensures var v := Get(data, key); var block := Block(host, SafeGet(data, key));
      && (Nullish(v) ==> block == Some(NotAvailable))
      && (block.None? <==> !Nullish(v) && !Truthy(v))
  {
    SafeGetKey(data, key, Str(NotAvailable));
  }

  /**
   * The k-th alias decides a `safeGet` chain when every alias before it is
   * present and falsy and it is absent (giving 'N/A') or truthy.
   */
  lemma AliasChainStops(data: Value, keys: seq<string>, rest: seq<Value>, k: nat)
    requires k < |keys| && forall i :: 0 <= i <= k ==> PlainKey(keys[i])
    requires forall j :: 0 <= j < k ==> !Nullish(Get(data, keys[j])) && !Truthy(Get(data, keys[j]))
    requires Nullish(Get(data, keys[k])) || Truthy(Get(data, keys[k]))
    ensures Chain(Aliases(data, keys) + rest) == if Nullish(Get(data, keys[k])) then Str(NotAvailable) else Get(data, keys[k])
  {
    var values := Aliases(data, keys) + rest;
    forall j | 0 <= j <= k
      ensures values[j] == if Nullish(Get(data, keys[j])) then Str(NotAvailable) else Get(data, keys[j])
    {
      AliasValue(data, keys, j);
    }
    ChainFirstTruthy(values, k);
  }

  /** One alias of a `safeGet` chain: the member itself, or 'N/A' when it is absent. */
  lemma AliasValue(data: Value, keys: seq<string>, i: nat)
    requires i < |keys| && PlainKey(keys[i])
    ensures var v := Get(data, keys[i]);
      Aliases(data, keys)[i] == if Nullish(v) then Str(NotAvailable) else v
  {
    SafeGetKey(data, keys[i], Str(NotAvailable));
  }

  /** A truthy first alias decides a `safeGet` chain. */
  lemma FirstAliasWins(data: Value, keys: seq<string>, rest: seq<Value>)
    requires |keys| > 0 && PlainKey(keys[0])
    requires Truthy(Get(data, keys[0]))
    ensures Chain(Aliases(data, keys) + rest) == Get(data, keys[0])
  {
    SafeGetKey(data, keys[0], Str(NotAvailable));
    ChainFirstTruthy(Aliases(data, keys) + rest, 0);
  }

  /** The second alias decides a `safeGet` chain when the first is present and falsy and the second truthy. */
  lemma SecondAliasWins(data: Value, keys: seq<string>, rest: seq<Value>)
    requires |keys| > 1 && PlainKey(keys[0]) && PlainKey(keys[1])
    requires !Nullish(Get(data, keys[0])) && !Truthy(Get(data, keys[0]))
    requires Truthy(Get(data, keys[1]))
    ensures Chain(Aliases(data, keys) + rest) == Get(data, keys[1])
  {
    var values := Aliases(data, keys) + rest;
    AliasValue(data, keys, 0);
    AliasValue(data, keys, 1);
    assert values[0] == Aliases(data, keys)[0] && values[1] == Aliases(data, keys)[1];
    ChainFirstTruthy(values, 1);
  }

  /**
   * The first price alias wins when it is truthy, whatever later aliases hold;
   * a price present as 0 hands over to `listPrice`.
   */
  lemma FirstPriceWins(host: Host, data: Value)
    ensures Get(data, "price").Num? && Get(data, "price").x != 0.0 ==>
      PriceText(host, data) == host.currencyText(Get(data, "price").x)
    ensures Get(data, "price") == Num(0.0) && Get(data, "listPrice").Num? && Get(data, "listPrice").x != 0.0 ==>
      PriceText(host, data) == host.currencyText(Get(data, "listPrice").x)
  {
    var values := Aliases(data, PriceKeys);
    PriceKeysPlain();
    assert values + [] == values;
    if Truthy(Get(data, "price")) {
      FirstAliasWins(data, PriceKeys, []);
    } else if Get(data, "price") == Num(0.0) && Truthy(Get(data, "listPrice")) {
      SecondAliasWins(data, PriceKeys, []);
    }
  }

  /** The status of a neighborhood card: the first truthy of `status` and `listingStatus`, else 'Active'. */
  lemma AreaStatus(host: Host, property: Value)
    requires !Nullish(property)
    ensures var status := Get(property, "status");
      var listing := Get(property, "listingStatus");
      var shown := CardStatus(host, property);
      && (!Truthy(status) && !Truthy(listing) ==> shown == "Active")
      && (Truthy(status) ==> shown == ToText(host, status))
      && (!Truthy(status) && Truthy(listing) ==> shown == ToText(host, listing))
  {
    var statuses := Members(property, ["status", "listingStatus"]) + [Str("Active")];
    if Truthy(statuses[0]) { ChainFirstTruthy(statuses, 0); }
    else if Truthy(statuses[1]) { ChainFirstTruthy(statuses, 1); }
    else { ChainFirstTruthy(statuses, 2); }
  }

  /**
   * A neighborhood card reads plain members, so an absent field falls through
   * to the next alias, unlike the single-property card.
   */
  lemma AreaBedrooms(host: Host, property: Value)
    requires !Nullish(property)
    ensures var bedrooms := Get(property, "bedrooms");
      var beds := Get(property, "beds");
      var shown := CardBedrooms(host, property);
      && (Truthy(bedrooms) ==> shown == ToText(host, bedrooms))
      && (!Truthy(bedrooms) && Truthy(beds) ==> shown == ToText(host, beds))
      && (!Truthy(bedrooms) && !Truthy(beds) ==> shown == NotAvailable)
  {
    var values := Members(property, ["bedrooms", "beds"]) + [Str(NotAvailable)];
    if Truthy(values[0]) { ChainFirstTruthy(values, 0); }
    else if Truthy(values[1]) { ChainFirstTruthy(values, 1); }
    else { ChainFirstTruthy(values, 2); }
  }

  /** The price of a neighborhood card: the first truthy of price, listPrice and estimatedValue. */
  lemma AreaPrice(host: Host, property: Value)
    requires !Nullish(property)
    ensures var price := Get(property, "price");
      var list := Get(property, "listPrice");
      var estimate := Get(property, "estimatedValue");
      var shown := CardPrice(host, property);
      && (Truthy(price) ==> shown == FormatCurrency(host, price))
      && (!Truthy(price) && Truthy(list) ==> shown == FormatCurrency(host, list))
      && (!Truthy(price) && !Truthy(list) ==> shown == FormatCurrency(host, estimate))
      && (!Truthy(price) && !Truthy(list) && !Truthy(estimate) ==> shown == NotAvailable)
  {
    var values := Members(property, ["price", "listPrice", "estimatedValue"]);
    if Truthy(values[0]) { ChainFirstTruthy(values, 0); }
    else if Truthy(values[1]) { ChainFirstTruthy(values, 1); }
    else { assert Chain(values) == Chain(values[2..]); }
  }
}
