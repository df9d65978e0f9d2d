/**
 * The client's own demo cards, shown when the proxy cannot be reached or
 * answers with an error: two fixed listings, rendered through the same card
 * functions as live data.
 */
module DemoData {
  import opened JsValues
  import opened Format
  import opened Display
  import opened DisplayFacts
  import opened Query

  /** What the client renders in place of live data. */
  datatype DemoView = DemoArea(area: NeighborhoodView) | DemoProperty(property: PropertyView)

  const DemoAddress := "123 Main Street, Miami, FL 33101"
  const DemoListingStatus := "For Sale"
  const FirstDescription := "Beautiful modern home with updated kitchen and spacious backyard."
  const SecondDescription := "Luxury oceanfront condo with stunning views and premium amenities."

  /** One demo listing: the members `displayDemoData` writes, every one present. */
  function Listing(address: string, price: real, bedrooms: real, bathrooms: real, livingArea: real,
                   yearBuilt: real, propertyType: string, taxAssessment: real, propertyTax: real,
                   description: string): Value
  {
    Obj(map[
      "address" := Str(address),
      "price" := Num(price),
      "bedrooms" := Num(bedrooms),
      "bathrooms" := Num(bathrooms),
      "livingArea" := Num(livingArea),
      "yearBuilt" := Num(yearBuilt),
      "propertyType" := Str(propertyType),
      "taxAssessment" := Num(taxAssessment),
      "propertyTax" := Num(propertyTax),
      "status" := Str(DemoListingStatus),
      "description" := Str(description)])
  }

  function FirstListing(): Value
  {
    Listing(DemoAddress, 450000.0, 3.0, 2.0, 1850.0, 2018.0, "Single Family", 425000.0, 5200.0,
            FirstDescription)
  }

  function SecondListing(): Value
  {
    Listing("456 Ocean Drive, Miami Beach, FL 33139", 1250000.0, 4.0, 3.0, 2400.0, 2020.0, "Condo",
            1150000.0, 14500.0, SecondDescription)
  }

  /** `displayDemoData`: both listings for a neighborhood query, the first one otherwise. */
  function DisplayDemoData(host: Host, parsed: ParsedQuery): DemoView
  {
    if parsed.Neighborhood? then DemoArea(DisplayNeighborhood(host, Arr([FirstListing(), SecondListing()])))
    else DemoProperty(DisplayProperty(host, FirstListing()))
  }

  /** A neighborhood query gets one area card per demo listing, in order, whatever place was asked for. */
  lemma DemoAreaShown(host: Host, location: string)
    ensures var shown := DisplayDemoData(host, Neighborhood(location));
      && shown.DemoArea? && shown.area.AreaCards?
      && |shown.area.cards| == 2
      && shown.area.cards[0] == AreaCardOf(host, FirstListing())
      && shown.area.cards[1] == AreaCardOf(host, SecondListing())
  {
    TwoAreaCards(host, FirstListing(), SecondListing());
  }

  /** Any other query gets the first listing's full card, whatever address was asked for. */
  lemma DemoPropertyShown(host: Host, address: string)
    ensures var shown := DisplayDemoData(host, Property(address));
      && shown.DemoProperty? && shown.property.PropertyCard?
      && shown.property.address == DemoAddress
      && shown.property.status == DemoListingStatus
  {
    ListingCard(host, DemoAddress, 450000.0, 3.0, 2.0, 1850.0, 2018.0, "Single Family", 425000.0, 5200.0,
                FirstDescription);
  }

  /** Two listings that are neither `null` nor `undefined` give two area cards, in order. */
  lemma TwoAreaCards(host: Host, first: Value, second: Value)
    requires !Nullish(first) && !Nullish(second)
    ensures var view := DisplayNeighborhood(host, Arr([first, second]));
      && view.AreaCards? && |view.cards| == 2
      && view.cards[0] == AreaCardOf(host, first) && view.cards[1] == AreaCardOf(host, second)
  {
    var items := [first, second];
    assert forall i :: 0 <= i < |items| ==> !Nullish(items[i]);
    var view := DisplayNeighborhood(host, Arr(items));
    assert view.AreaCards?;
  }

  /** A listing's card shows its own address and the 'For Sale' status. */
  lemma ListingCard(host: Host, address: string, price: real, bedrooms: real, bathrooms: real,
                    livingArea: real, yearBuilt: real, propertyType: string, taxAssessment: real,
                    propertyTax: real, description: string)
    ensures var view := DisplayProperty(host, Listing(address, price, bedrooms, bathrooms, livingArea,
                                                      yearBuilt, propertyType, taxAssessment, propertyTax, description));
      view.PropertyCard? && view.address == address && view.status == DemoListingStatus
  {
    var listing := Listing(address, price, bedrooms, bathrooms, livingArea, yearBuilt,
                           propertyType, taxAssessment, propertyTax, description);
    assert Get(listing, "address") == Str(address);
    assert Get(listing, "status") == Str(DemoListingStatus);
    assert PlainKey(StatusKeys[0]);
    FirstAliasWins(listing, StatusKeys, [Str(NotAvailable)]);
  }
}
