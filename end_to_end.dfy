/**
 * The proxy's replies as the client shows them: the names the server writes
 * are the names the client reads, and the client's `safeGet` default shows
 * through wherever the server leaves a member out.
 */
module EndToEnd {
  import opened JsValues
  import opened Format
  import opened Display
  import opened DisplayFacts
  import opened Proxy

  /** The demo record is shown with the address asked for and the 'Demo Data' status. */
  lemma DemoShown(host: Host, address: string)
    ensures var view := DisplayProperty(host, DemoRecord(address));
      && view.PropertyCard?
      && view.address == address
      && view.status == DemoStatus
  {
    var demo := DemoRecord(address);
    assert Get(demo, "address") == Str(address);
    assert Get(demo, "status") == Str(DemoStatus);
    assert PlainKey(StatusKeys[0]);
    FirstAliasWins(demo, StatusKeys, [Str(NotAvailable)]);
  }

  /** ... and with the demo price through the currency format. */
  lemma DemoPriceShown(host: Host, address: string)
    ensures PriceText(host, DemoRecord(address)) == host.currencyText(450000.0)
  {
    var demo := DemoRecord(address);
    assert Get(demo, "price") == Num(450000.0);
    PriceKeysPlain();
    FirstAliasWins(demo, PriceKeys, []);
    assert Aliases(demo, PriceKeys) + [] == Aliases(demo, PriceKeys);
  }

  /** The demo record has no MLS number, lot size or HOA fee, so the card shows the `safeGet` placeholders for them. */
  lemma DemoPlaceholders(host: Host, address: string)
    ensures var view := DisplayProperty(host, DemoRecord(address));
      && view.PropertyCard?
      && view.mlsNumber == NotAvailable
      && view.lotSize == "N/A sq ft"
      && view.hoaFees == "N/A/mo"
  {
    var demo := DemoRecord(address);
    assert Get(demo, "mlsNumber") == Undefined;
    assert Get(demo, "lotSize") == Undefined;
    assert Get(demo, "hoaFee") == Undefined;
    assert PlainKey(MlsKeys[0]);
    AbsentShownField(host, demo, MlsKeys);
    AbsentLotSize(host, demo);
    HoaFeeShown(host, demo);
  }

  /**
   * When the provider's record has no truthy `address`, the proxy builds an
   * address object, and the client reads it through the nested branch of
   * `formatAddress`: the four parts in the order the proxy wrote them.
   */
  lemma BuiltAddressShown(host: Host, property: Value, suggestion: Value)
    requires !Truthy(Get(property, "address"))
    ensures var street := Or(Get(property, "street"), Get(suggestion, "line"));
      var city := Or(Get(property, "city"), Get(suggestion, "city"));
      var state := Or(Get(property, "state_code"), Get(suggestion, "state_code"));
      var zipcode := Or(Get(property, "postal_code"), Get(suggestion, "postal_code"));
      FormatAddress(host, PropertyJson(FormattedProperty(property, suggestion)))
        == JoinParts(host, [Or(street, Str("")), Or(city, Str("")), Or(state, Str("")), Or(zipcode, Str(""))])
  {
    var formatted := FormattedProperty(property, suggestion);
    BuiltAddressField(property, suggestion);
    JsonAddress(formatted);
    AddressComponents(
      Or(Get(property, "street"), Get(suggestion, "line")),
      Or(Get(property, "city"), Get(suggestion, "city")),
      Or(Get(property, "state_code"), Get(suggestion, "state_code")),
      Or(Get(property, "postal_code"), Get(suggestion, "postal_code")));
  }

  /** A record with no truthy `address` gets the address object built from its parts. */
  lemma BuiltAddressField(property: Value, suggestion: Value)
    requires !Truthy(Get(property, "address"))
    ensures FormattedProperty(property, suggestion).address == AddressObject(
      Or(Get(property, "street"), Get(suggestion, "line")),
      Or(Get(property, "city"), Get(suggestion, "city")),
      Or(Get(property, "state_code"), Get(suggestion, "state_code")),
      Or(Get(property, "postal_code"), Get(suggestion, "postal_code")))
  {
  }

  /** The reply's `address` member is the formatted record's address. */
  lemma JsonAddress(formatted: FormattedRecord)
    ensures Get(PropertyJson(formatted), "address") == formatted.address
  {
  }

  /** The components the client reads from an address object the proxy built. */
  lemma AddressComponents(street: Value, city: Value, state: Value, zipcode: Value)
    ensures Components(AddressObject(street, city, state, zipcode))
         == [Or(street, Str("")), Or(city, Str("")), Or(state, Str("")), Or(zipcode, Str(""))]
  {
    var address := AddressObject(street, city, state, zipcode);
    assert Get(address, "street") == Undefined && Get(address, "zip") == Undefined;
  }
}
