/** The Plot collection's schema (models/Plot.ts). */
module PlotModel {
  import opened Wrappers
  import opened Documents

  const Zonings: seq<string> := ["Residential", "Commercial", "Mixed-Use", "Industrial"]
  const UtilityKinds: seq<string> := ["Water", "Electricity", "Sewer", "Gas"]

  /** Price, size and coordinates are Numbers in the schema; only presence matters here. */
  datatype Plot = Plot(
    id: Id,
    address: Option<string>,
    price: Option<int>,
    size: Option<int>,
    latitude: Option<int>,
    longitude: Option<int>,
    description: Option<string>,
    zoning: Option<string>,
    utilities: seq<string>)

  /** Every listed utility is one of UtilityKinds. */
  predicate UtilitiesOk(us: seq<string>) {
    forall i :: 0 <= i < |us| ==> us[i] in UtilityKinds
  }

  /**
   * PlotSchema: address, price, size, latitude, longitude, description and
   * zoning are required; zoning is one of Zonings; each utility is one of
   * UtilityKinds.
   */
  predicate ValidPlot(p: Plot) {
    && RequiredString(p.address)
    && p.price.Some? && p.size.Some? && p.latitude.Some? && p.longitude.Some?
    && RequiredString(p.description)
    && RequiredString(p.zoning)
    && EnumOk(p.zoning, Zonings)
    && UtilitiesOk(p.utilities)
  }

  /** An array path defaults to the empty list, which has no bad element. */
  lemma EmptyUtilitiesOk()
    ensures UtilitiesOk([])
  {
  }

  /** A plot lacking any required field is not valid. */
  lemma RequiredFields(p: Plot)
    requires ValidPlot(p)
    ensures p.address.Some? && p.price.Some? && p.size.Some? && p.latitude.Some?
    ensures p.longitude.Some? && p.description.Some? && p.zoning.value in Zonings
  {
  }
}
