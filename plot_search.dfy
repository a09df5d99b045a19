/**
 * The plot search page (app/plots/page.tsx): extracting the plot properties
 * from the GeoJSON the page fetches, and the city-or-state search.
 */
module PlotSearch {
  import opened Wrappers
  import opened Seqs
  import opened Text

  /** The properties of one plot feature, as the page reads them. */
  datatype PlotProperties = PlotProperties(
    id: string,
    title: string,
    price: string,
    size: string,
    address: string,
    description: string,
    city: string,
    state: string,
    zipCode: string)

  /** A GeoJSON feature; its geometry is not modelled. */
  datatype Feature = Feature(properties: Option<PlotProperties>)

  /** The fetched document; `features` may be missing. */
  datatype GeoJson = GeoJson(features: Option<seq<Feature>>)

  function HasProperties(f: Feature): bool {
    f.properties.Some?
  }

  function AsFeature(p: PlotProperties): Feature {
    Feature(Some(p))
  }

  /**
   * `features.filter(f => f.properties).map(f => f.properties)`: read back
   * as features, the result is exactly the features that have properties.
   */
  function ExtractProperties(fs: seq<Feature>): (r: seq<PlotProperties>)
    ensures Map(r, AsFeature) == Filter(fs, HasProperties)
    ensures |r| <= |fs|
  {
    if fs == [] then []
    else if fs[0].properties.Some? then [fs[0].properties.value] + ExtractProperties(fs[1..])
    else ExtractProperties(fs[1..])
  }

  /**
   * `loadAllProperties`: nothing happens before the map has loaded; a
   * document without `features` throws, the error is caught and the
   * properties stay as they were; otherwise they are replaced by the
   * extracted ones.
   */
  function LoadAllProperties(current: seq<PlotProperties>, mapReady: bool, data: GeoJson): (r: seq<PlotProperties>)
    ensures !mapReady || data.features.None? ==> r == current
    ensures mapReady && data.features.Some? ==>
              Map(r, AsFeature) == Filter(data.features.value, HasProperties)
  {
    if !mapReady || data.features.None? then current else ExtractProperties(data.features.value)
  }

  /** The lower-cased city or state includes the lower-cased term. */
  function LocationMatches(term: string): (r: PlotProperties -> bool)
    ensures term == "" ==> forall p: PlotProperties :: r(p)
    ensures forall p: PlotProperties :: Contains(Lower(p.city), Lower(term)) ==> r(p)
    ensures forall p: PlotProperties :: Contains(Lower(p.state), Lower(term)) ==> r(p)
    ensures forall p: PlotProperties :: r(p) ==> Contains(Lower(p.city), Lower(term)) || Contains(Lower(p.state), Lower(term))
    ensures forall p: PlotProperties :: r(p) ==> |term| <= |p.city| || |term| <= |p.state|
  {
    (p: PlotProperties) => Contains(Lower(p.city), Lower(term)) || Contains(Lower(p.state), Lower(term))
  }

  /** `properties.filter(...)`: the current properties located by the term, in order. */
  function SearchProperties(current: seq<PlotProperties>, term: string): (r: seq<PlotProperties>)
    ensures Selects(r, current, LocationMatches(term))
    ensures forall i :: 0 <= i < |current| && LocationMatches(term)(current[i]) ==> current[i] in r
    ensures |r| <= |current|
  {
    SubsequenceLength(Filter(current, LocationMatches(term)), current);
    Filter(current, LocationMatches(term))
  }

  /**
   * The search effect: nothing before the map has loaded; an empty term
   * reloads every plot; any other term narrows the current list.
   */
  function OnSearch(current: seq<PlotProperties>, term: string, mapReady: bool, reload: GeoJson): (r: seq<PlotProperties>)
    ensures !mapReady ==> r == current
    ensures mapReady && term == "" ==> r == LoadAllProperties(current, true, reload)
    ensures mapReady && term != "" ==> Selects(r, current, LocationMatches(term))
  {
    if !mapReady then current
    else if term == "" then LoadAllProperties(current, true, reload)
    else SearchProperties(current, term)
  }

  /** Searching again with the same term changes nothing. */
  lemma SearchIdempotent(current: seq<PlotProperties>, term: string)
    ensures SearchProperties(SearchProperties(current, term), term) == SearchProperties(current, term)
  {
    FilterIdempotent(current, LocationMatches(term));
  }

  /** Two successive searches keep only what both terms locate. */
  lemma SearchTwice(current: seq<PlotProperties>, t1: string, t2: string, i: nat)
    requires i < |SearchProperties(SearchProperties(current, t1), t2)|
    ensures var p := SearchProperties(SearchProperties(current, t1), t2)[i];
            p in current && LocationMatches(t1)(p) && LocationMatches(t2)(p)
  {
  }

  /**
   * As written, a second search narrows the result of the first: searching
   * "reno" and then "waco" shows nothing, although a Waco plot was loaded.
   */
  lemma SearchCannotWiden()
    ensures var reno := PlotProperties("1", "Lot", "$1", "1", "A", "D", "Reno", "NV", "1");
            var waco := PlotProperties("2", "Lot", "$1", "1", "A", "D", "Waco", "TX", "2");
            var loaded := [reno, waco];
            && SearchProperties(loaded, "waco") == [waco]
            && SearchProperties(SearchProperties(loaded, "reno"), "waco") == []
  {
    var reno := PlotProperties("1", "Lot", "$1", "1", "A", "D", "Reno", "NV", "1");
    var waco := PlotProperties("2", "Lot", "$1", "1", "A", "D", "Waco", "TX", "2");
    RenoWacoMatches(reno, waco);
    assert [reno, waco][1..] == [waco];
    assert SearchProperties([reno], "waco") == [];
  }

  lemma RenoWacoMatches(reno: PlotProperties, waco: PlotProperties)
    requires reno.city == "Reno" && reno.state == "NV"
    requires waco.city == "Waco" && waco.state == "TX"
    ensures LocationMatches("reno")(reno) && !LocationMatches("reno")(waco)
    ensures !LocationMatches("waco")(reno) && LocationMatches("waco")(waco)
  {
    LowerFourLetters();
    DistinctNames();
  }

  lemma LowerFourLetters()
    ensures Lower("Reno") == "reno" && Lower("Waco") == "waco"
    ensures Lower("NV") == "nv" && Lower("TX") == "tx"
    ensures Lower("waco") == "waco" && Lower("reno") == "reno"
  {
  }

  lemma DistinctNames()
    ensures !Contains("reno", "waco") && !Contains("waco", "reno")
    ensures !Contains("nv", "waco") && !Contains("tx", "reno")
    ensures Contains("waco", "waco") && Contains("reno", "reno")
  {
    assert "reno"[..4][0] != "waco"[0] && "waco"[..4][0] != "reno"[0];
    assert !Contains("reno"[1..], "waco") && !Contains("waco"[1..], "reno");
  }

  /** The page with the loaded list kept apart from the list shown. */
  datatype PlotsPage = PlotsPage(loaded: seq<PlotProperties>, shown: seq<PlotProperties>)

  /**
   * The search as evidently intended: a non-empty term selects from every
   * loaded plot, so the shown list depends only on the loaded list and the
   * term; an empty term reloads both lists.
   */
  function OnSearchFromLoaded(page: PlotsPage, term: string, mapReady: bool, reload: GeoJson): (r: PlotsPage)
    ensures !mapReady ==> r == page
    ensures mapReady && term != "" ==>
              r.loaded == page.loaded && Selects(r.shown, page.loaded, LocationMatches(term))
    ensures mapReady && term == "" ==>
              r.shown == r.loaded && r.loaded == LoadAllProperties(page.loaded, true, reload)
  {
    if !mapReady then page
    else if term == "" then
      var all := LoadAllProperties(page.loaded, true, reload);
      PlotsPage(all, all)
    else page.(shown := SearchProperties(page.loaded, term))
  }

  /** With the corrected search, an earlier term has no effect on a later one. */
  lemma SearchFromLoadedForgetsEarlierTerm(page: PlotsPage, t1: string, t2: string, reload: GeoJson)
    requires t1 != "" && t2 != ""
    ensures OnSearchFromLoaded(OnSearchFromLoaded(page, t1, true, reload), t2, true, reload) ==
            OnSearchFromLoaded(page, t2, true, reload)
  {
  }
}
