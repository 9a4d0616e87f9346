/** Importing a listing found through the Realtor search: each field of the
    new property is read from the listing's nested record, and a missing or
    falsy value (absent, empty text, zero) falls back to a default. */
module PropertyService {
  import opened Wrappers

  datatype Coordinate = Coordinate(lat: Option<real>, lon: Option<real>)
  datatype LocationAddress = LocationAddress(coordinate: Option<Coordinate>)
  datatype Location = Location(address: Option<LocationAddress>)

  datatype RealtorAddress = RealtorAddress(
    line: Option<string>, city: Option<string>, stateCode: Option<string>, postalCode: Option<string>)

  datatype RealtorDescription = RealtorDescription(
    beds: Option<real>, baths: Option<real>, sqft: Option<real>, propertyType: Option<string>,
    text: Option<string>, yearBuilt: Option<real>, lotSqft: Option<real>)

  /** The parts of a Realtor listing the import reads. */
  datatype RealtorListing = RealtorListing(
    address: Option<RealtorAddress>, listPrice: Option<real>,
    description: Option<RealtorDescription>, location: Option<Location>)

  /** The `properties` row handed to `createProperty`. */
  datatype PropertyInsert = PropertyInsert(
    listingAgentId: string, address: string, city: string, state: string, zipCode: string,
    price: real, bedrooms: real, bathrooms: real, squareFeet: real, propertyType: string,
    description: string, latitude: real, longitude: real, yearBuilt: Option<real>, lotSize: Option<real>)

  const DefaultType := "single_family"

  /** `text || fallback` */
  function TextOr(text: Option<string>, fallback: string): (r: string)
    ensures text.Some? && text.value != "" ==> r == text.value
    ensures text.None? || text.value == "" ==> r == fallback
  {
    if text.Some? && text.value != "" then text.value else fallback
  }

  /** `n || fallback` */
  function NumberOr(n: Option<real>, fallback: real): (r: real)
    ensures n.Some? && n.value != 0.0 ==> r == n.value
    ensures n.None? || n.value == 0.0 ==> r == fallback
  {
    if n.Some? && n.value != 0.0 then n.value else fallback
  }

  /** `n || null` */
  function NumberOrNull(n: Option<real>): (r: Option<real>)
    ensures r.Some? <==> n.Some? && n.value != 0.0
    ensures r.Some? ==> r == n
  {
    if n.Some? && n.value != 0.0 then n else None
  }

  /** `x?.f` on each optional level, flattened. */
  function Lat(l: Option<Location>): Option<real> {
    if l.Some? && l.value.address.Some? && l.value.address.value.coordinate.Some?
    then l.value.address.value.coordinate.value.lat else None
  }

  function Lon(l: Option<Location>): Option<real> {
    if l.Some? && l.value.address.Some? && l.value.address.value.coordinate.Some?
    then l.value.address.value.coordinate.value.lon else None
  }

  /** The row built by `importPropertyFromRealtorAPI`. */
  function ImportFromRealtor(listing: RealtorListing, agentUserId: string): (p: PropertyInsert)
    ensures p.listingAgentId == agentUserId
    ensures listing.address.None? ==> p.address == "" && p.city == "" && p.state == "" && p.zipCode == ""
    ensures listing.address.Some? ==>
      p.address == TextOr(listing.address.value.line, "") && p.city == TextOr(listing.address.value.city, "")
      && p.state == TextOr(listing.address.value.stateCode, "") && p.zipCode == TextOr(listing.address.value.postalCode, "")
    ensures p.price == NumberOr(listing.listPrice, 0.0)
    ensures listing.description.None? ==>
      p.bedrooms == 0.0 && p.bathrooms == 0.0 && p.squareFeet == 0.0 && p.propertyType == DefaultType
      && p.description == "" && p.yearBuilt.None? && p.lotSize.None?
    ensures listing.description.Some? ==>
      var d := listing.description.value;
      p.bedrooms == NumberOr(d.beds, 0.0) && p.bathrooms == NumberOr(d.baths, 0.0)
      && p.squareFeet == NumberOr(d.sqft, 0.0) && p.propertyType == TextOr(d.propertyType, DefaultType)
      && p.description == TextOr(d.text, "") && p.yearBuilt == NumberOrNull(d.yearBuilt)
      && p.lotSize == NumberOrNull(d.lotSqft)
    ensures p.latitude == NumberOr(Lat(listing.location), 0.0) && p.longitude == NumberOr(Lon(listing.location), 0.0)
  {
    var a := listing.address;
    var d := listing.description;
    PropertyInsert(
      agentUserId,
      TextOr(if a.Some? then a.value.line else None, ""),
      TextOr(if a.Some? then a.value.city else None, ""),
      TextOr(if a.Some? then a.value.stateCode else None, ""),
      TextOr(if a.Some? then a.value.postalCode else None, ""),
      NumberOr(listing.listPrice, 0.0),
      NumberOr(if d.Some? then d.value.beds else None, 0.0),
      NumberOr(if d.Some? then d.value.baths else None, 0.0),
      NumberOr(if d.Some? then d.value.sqft else None, 0.0),
      TextOr(if d.Some? then d.value.propertyType else None, DefaultType),
      TextOr(if d.Some? then d.value.text else None, ""),
      NumberOr(Lat(listing.location), 0.0),
      NumberOr(Lon(listing.location), 0.0),
      NumberOrNull(if d.Some? then d.value.yearBuilt else None),
      NumberOrNull(if d.Some? then d.value.lotSqft else None))
  }

  /** The listing that carries every field of a row. */
  function ListingOf(p: PropertyInsert): RealtorListing {
    RealtorListing(
      Some(RealtorAddress(Some(p.address), Some(p.city), Some(p.state), Some(p.zipCode))),
      Some(p.price),
      Some(RealtorDescription(Some(p.bedrooms), Some(p.bathrooms), Some(p.squareFeet), Some(p.propertyType),
        Some(p.description), p.yearBuilt, p.lotSize)),
      Some(Location(Some(LocationAddress(Some(Coordinate(Some(p.latitude), Some(p.longitude))))))))
  }

  /** A row the import can reproduce: every value is truthy or equal to its
      default, which fails only for an empty type and a zero year or lot. */
  predicate Importable(p: PropertyInsert) {
    p.propertyType != ""
    && (p.yearBuilt.Some? ==> p.yearBuilt.value != 0.0)
    && (p.lotSize.Some? ==> p.lotSize.value != 0.0)
  }

  /** Such a row comes back unchanged from a listing that carries it. */
  lemma ImportListingOf(p: PropertyInsert)
    requires Importable(p)
    ensures ImportFromRealtor(ListingOf(p), p.listingAgentId) == p
  {
  }

  /** An empty listing gives the all-defaults row. */
  lemma ImportEmpty(agentUserId: string)
    ensures ImportFromRealtor(RealtorListing(None, None, None, None), agentUserId) ==
      PropertyInsert(agentUserId, "", "", "", "", 0.0, 0.0, 0.0, 0.0, DefaultType, "", 0.0, 0.0, None, None)
  {
  }
}
