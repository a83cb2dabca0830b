/** The agency directory page backed by the API: the city and service
    options of its two selectors, and the agencies shown for a search term
    and the two selections. While the list has not arrived (`undefined`),
    everything is empty. */
module ClientAgencies {
  import opened Wrappers
  import opened JsText
  import opened Seqs
  import opened Collation
  import opened Schema

  /** The selector value that means "no restriction". */
  const All := "all"

  /** The page's three filter inputs. */
  datatype Criteria = Criteria(searchTerm: string, selectedCity: string, selectedService: string)

  /** The inputs when the page opens: no search, every city, every service. */
  const Initial := Criteria("", All, All)

  /** The search term is empty, or occurs, ignoring case, in the name or the
      description. The term is not trimmed. */
  predicate MatchesSearch(a: Agency, term: string) {
    || term == ""
    || Contains(ToLower(a.nom), ToLower(term))
    || Contains(ToLower(a.description), ToLower(term))
  }

  predicate MatchesCity(a: Agency, city: string) {
    city == All || a.ville == city
  }

  predicate MatchesService(a: Agency, service: string) {
    service == All || service in a.services
  }

  /** An agency is shown iff it passes all three clauses. */
  predicate Keeps(c: Criteria, a: Agency) {
    MatchesSearch(a, c.searchTerm) && MatchesCity(a, c.selectedCity) && MatchesService(a, c.selectedService)
  }

  /** `Keeps` as a test to filter with. */
  function KeepsTest(c: Criteria): Agency -> bool {
    a => Keeps(c, a)
  }

  function Ville(a: Agency): string { a.ville }
  function ServicesOf(a: Agency): seq<string> { a.services }

  /** `filteredAgencies`: the agencies passing the three clauses, in list
      order; nothing while the list is undefined. */
  function FilteredAgencies(data: Option<seq<Agency>>, c: Criteria): (r: seq<Agency>)
    ensures data.None? ==> r == []
    ensures data.Some? ==> IsSubseq(r, data.value)
    ensures data.Some? ==> forall i :: 0 <= i < |data.value| ==> (data.value[i] in r <==> Keeps(c, data.value[i]))
    ensures forall i :: 0 <= i < |r| ==> Keeps(c, r[i])
  {
    match data
    case None => []
    case Some(xs) =>
      FilterIsSubseq(xs, KeepsTest(c));
      Filter(xs, KeepsTest(c))
  }

  /** `cities`: each city that occurs in the list, once, in sorted order. */
  function Cities(data: Option<seq<Agency>>): (r: seq<string>)
    ensures data.None? ==> r == []
    ensures Sorted(r) && NoDup(r)
    ensures data.Some? ==> forall y :: y in r <==> exists i :: 0 <= i < |data.value| && data.value[i].ville == y
  {
    match data
    case None => []
    case Some(xs) =>
      var r := SortedSet(Map(xs, Ville));
      SortedNoDup(r);
      r
  }

  /** `allServices`: the union of all agencies' service names, gathered into
      a set by two nested loops and then sorted. */
  method AllServices(data: Option<seq<Agency>>) returns (r: seq<string>)
    ensures data.None? ==> r == []
    ensures data.Some? ==> r == SortedSet(Flatten(data.value, ServicesOf))
    ensures Sorted(r) && NoDup(r)
    ensures data.Some? ==> forall y :: y in r <==> exists k :: 0 <= k < |data.value| && y in data.value[k].services
  {
    match data
    case None =>
      r := [];
    case Some(xs) =>
      var found := CollectDistinct(xs, ServicesOf);
      SortSpec(found);
      r := Sort(found);
      SortedNoDup(r);
      assert forall y :: y in r <==> y in Flatten(xs, ServicesOf) by {
        DistinctSpec(Flatten(xs, ServicesOf));
      }
      forall y ensures y in r <==> exists k :: 0 <= k < |xs| && y in xs[k].services {
        FlattenMembers(xs, ServicesOf, y);
      }
  }

  /** The opening inputs show the whole list. */
  lemma InitialShowsAll(xs: seq<Agency>)
    ensures FilteredAgencies(Some(xs), Initial) == xs
  {
    FilterKeepsAll(xs, KeepsTest(Initial));
  }

  /** Filtering the shown agencies again with the same inputs changes nothing. */
  lemma FilterTwice(xs: seq<Agency>, c: Criteria)
    ensures FilteredAgencies(Some(FilteredAgencies(Some(xs), c)), c) == FilteredAgencies(Some(xs), c)
  {
    FilterIdempotent(xs, KeepsTest(c));
  }

  /** Choosing a city, or a service, after "all" only removes agencies. */
  lemma SelectionNarrows(xs: seq<Agency>, c: Criteria, city: string, service: string)
    ensures IsSubseq(FilteredAgencies(Some(xs), Criteria(c.searchTerm, city, service)),
                     FilteredAgencies(Some(xs), Criteria(c.searchTerm, All, All)))
  {
    FilterWeaker(xs, KeepsTest(Criteria(c.searchTerm, city, service)), KeepsTest(Criteria(c.searchTerm, All, All)));
  }

  /** Typing more characters after the search term only removes agencies. */
  lemma LongerSearchNarrows(xs: seq<Agency>, c: Criteria, more: string)
    ensures IsSubseq(FilteredAgencies(Some(xs), c.(searchTerm := c.searchTerm + more)), FilteredAgencies(Some(xs), c))
  {
    var longer := c.(searchTerm := c.searchTerm + more);
    forall a | a in xs && KeepsTest(longer)(a) ensures KeepsTest(c)(a) {
      ToLowerAppend(c.searchTerm, more);
      if c.searchTerm != "" {
        if Contains(ToLower(a.nom), ToLower(c.searchTerm + more)) {
          ContainsPrefixOf(ToLower(a.nom), ToLower(c.searchTerm), ToLower(more));
        } else if Contains(ToLower(a.description), ToLower(c.searchTerm + more)) {
          ContainsPrefixOf(ToLower(a.description), ToLower(c.searchTerm), ToLower(more));
        }
      }
    }
    FilterWeaker(xs, KeepsTest(longer), KeepsTest(c));
  }

  /** Every city the selector offers shows at least one agency. */
  lemma OfferedCityShowsSome(xs: seq<Agency>, city: string)
    requires city in Cities(Some(xs))
    ensures FilteredAgencies(Some(xs), Criteria("", city, All)) != []
  {
    var i :| 0 <= i < |xs| && xs[i].ville == city;
    assert Keeps(Criteria("", city, All), xs[i]);
  }

  /** Every service the selector offers (a service some agency lists) shows
      at least one agency. */
  lemma OfferedServiceShowsSome(xs: seq<Agency>, service: string)
    requires exists k :: 0 <= k < |xs| && service in xs[k].services
    ensures FilteredAgencies(Some(xs), Criteria("", All, service)) != []
  {
    var k :| 0 <= k < |xs| && service in xs[k].services;
    assert Keeps(Criteria("", All, service), xs[k]);
  }
}
