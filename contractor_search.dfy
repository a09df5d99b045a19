/**
 * The contractor search page (app/contractors/page.tsx): the fetched list,
 * the list on screen, and the case-insensitive name-or-email search.
 */
module ContractorSearch {
  import opened Wrappers
  import opened Seqs
  import opened Text

  /** A contractor as the page receives it; a record may lack its name. */
  datatype Contractor = Contractor(id: string, name: Option<string>, email: string, userType: string)

  /** What fetching /api/contractors can give the page. */
  datatype FetchOutcome = Status401 | NotOk | Loaded(data: seq<Contractor>)

  /** The page's state: the full list, the list shown, the typed term, an error. */
  datatype Page = Page(
    contractors: seq<Contractor>,
    filtered: seq<Contractor>,
    searchTerm: string,
    error: Option<string>)

  const FetchError: string := "An error occurred while fetching contractors."

  function InitialPage(): Page {
    Page([], [], "", None)
  }

  /** Searching before anything was fetched shows nothing, and changes nothing. */
  lemma InitialSearchShowsNothing()
    ensures HandleSearch(InitialPage()) == InitialPage()
  {
    assert Search([], "") == [];
  }

  /**
   * The result of the fetch: on success both lists become the fetched data;
   * a failed response records the error; a 401 redirects to the login page
   * and leaves the state as it was.
   */
  function OnFetch(p: Page, outcome: FetchOutcome): (r: Page)
    ensures outcome.Loaded? ==> r.contractors == outcome.data && r.filtered == r.contractors
    ensures outcome.Loaded? ==> r.searchTerm == p.searchTerm && r.error == p.error
    ensures outcome.NotOk? ==> r == p.(error := Some(FetchError))
    ensures outcome.Status401? ==> r == p
  {
    match outcome
    case Status401 => p
    case NotOk => p.(error := Some(FetchError))
    case Loaded(data) => p.(contractors := data, filtered := data)
  }

  /**
   * The search predicate: the lower-cased name or email includes the
   * lower-cased term; a contractor without a name can match only by email.
   */
  function Matches(term: string): (r: Contractor -> bool)
    ensures term == "" ==> forall c: Contractor :: r(c)
    ensures forall c: Contractor :: c.name.None? ==> (r(c) <==> Contains(Lower(c.email), Lower(term)))
    ensures forall c: Contractor :: c.name.Some? && Contains(Lower(c.name.value), Lower(term)) ==> r(c)
    ensures forall c: Contractor :: Contains(Lower(c.email), Lower(term)) ==> r(c)
    ensures forall c: Contractor :: r(c) ==> |term| <= |c.email| || (c.name.Some? && |term| <= |c.name.value|)
  {
    (c: Contractor) =>
      (c.name.Some? && Contains(Lower(c.name.value), Lower(term))) ||
      Contains(Lower(c.email), Lower(term))
  }

  /** `contractors.filter(...)`: the matching contractors in list order. */
  function Search(cs: seq<Contractor>, term: string): (r: seq<Contractor>)
    ensures Selects(r, cs, Matches(term))
    ensures forall i :: 0 <= i < |cs| && Matches(term)(cs[i]) ==> cs[i] in r
    ensures forall i :: 0 <= i < |r| ==> r[i] in cs && Matches(term)(r[i])
  {
    SubsequenceElements(Filter(cs, Matches(term)), cs);
    Filter(cs, Matches(term))
  }

  /** `handleSearch`: the shown list is the search of the full list; nothing else changes. */
  function HandleSearch(p: Page): (r: Page)
    ensures r.contractors == p.contractors && r.searchTerm == p.searchTerm && r.error == p.error
    ensures Selects(r.filtered, p.contractors, Matches(p.searchTerm))
  {
    p.(filtered := Search(p.contractors, p.searchTerm))
  }

  /** The search starts from the full list, never from what was shown before. */
  lemma HandleSearchIgnoresShown(p: Page, shown: seq<Contractor>)
    ensures HandleSearch(p.(filtered := shown)) == HandleSearch(p)
  {
  }

  /** An empty term keeps every contractor. */
  lemma EmptyTermKeepsAll(cs: seq<Contractor>)
    ensures Search(cs, "") == cs
  {
    forall i | 0 <= i < |cs| ensures Matches("")(cs[i]) {
      ContainsEmpty(Lower(cs[i].email));
    }
    FilterAll(cs, Matches(""));
  }

  /** A contractor without a name is found exactly when the email matches. */
  lemma NamelessMatchesByEmail(c: Contractor, term: string)
    requires c.name.None?
    ensures Matches(term)(c) <==> Contains(Lower(c.email), Lower(term))
  {
  }

  /** Case does not matter: a term and its lower-cased form find the same contractors. */
  lemma SearchIgnoresCase(cs: seq<Contractor>, term: string)
    ensures Search(cs, Lower(term)) == Search(cs, term)
  {
    LowerIdempotent(term);
    assert Matches(Lower(term)) == Matches(term);
  }

  /** Right after a successful fetch, searching with the empty term changes nothing. */
  lemma FetchThenEmptySearch(p: Page, data: seq<Contractor>)
    requires p.searchTerm == ""
    ensures HandleSearch(OnFetch(p, Loaded(data))) == OnFetch(p, Loaded(data))
  {
    EmptyTermKeepsAll(data);
  }
}
