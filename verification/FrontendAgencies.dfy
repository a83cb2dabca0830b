/** The agency directory page of the stand-alone front end. It lists its own
    five mock agencies (used also while the query has no data), searches
    the service names as well as the name and the description, and shows
    integer totals over the list. */
module FrontendAgencies {
  import opened Wrappers
  import opened JsText
  import opened Seqs
  import opened Collation
  import Schema
  import ClientAgencies

  /** The page's agency record: the shared fields plus optional rating
      (in tenths of a star), review count, years of experience and client
      count. */
  datatype Agency = Agency(
    id: int,
    nom: string,
    description: string,
    ville: string,
    services: seq<string>,
    image: string,
    telephone: Option<string>,
    email: Option<string>,
    horaires: Option<string>,
    note: Option<int>,
    nombreAvis: Option<int>,
    anneeExperience: Option<int>,
    nombreClients: Option<int>)

  const ProNet := Agency(1, "ProNet Abidjan",
    "Experts du nettoyage industriel et résidentiel, disponibles 7j/7 pour vos besoins d'entretien. Notre équipe qualifiée utilise des produits écologiques et des méthodes modernes pour garantir un résultat impeccable.",
    "Abidjan", ["Nettoyage", "Désinfection", "Entretien de bureaux", "Nettoyage après travaux"],
    "./Abidjan_agency_storefront_41598fcd.png",
    Some("+225 07 12 34 56 78"), Some("contact@pronet-abidjan.ci"), Some("Lun - Ven: 8h - 18h | Sam: 9h - 15h"),
    Some(48), Some(1245), Some(12), Some(3500))
  const PetitsSoleils := Agency(2, "Garderie Les Petits Soleils",
    "Des nounous expérimentées et bienveillantes pour un accompagnement quotidien à domicile. Nous offrons un service de garde d'enfants de qualité avec des professionnels formés et certifiés.",
    "Yamoussoukro", ["Garde d'enfants", "Aide aux devoirs", "Accompagnement scolaire", "Activités ludiques"],
    "./Childcare_service_photo_e9f137e4.png",
    Some("+225 05 98 76 54 32"), Some("contact@petitssoleils.ci"), Some("Lun - Dim: 6h - 20h"),
    Some(49), Some(892), Some(8), Some(2100))
  const GreenTouch := Agency(3, "Green Touch Services",
    "Paysagistes professionnels pour jardins, terrasses et espaces verts. Nous créons et entretenons vos espaces verts avec passion et expertise. De la conception à la réalisation, notre équipe vous accompagne.",
    "Bouaké", ["Entretien de jardin", "Élagage", "Aménagement paysager", "Tonte de pelouse"],
    "./Gardening_service_photo_0007b568.png",
    Some("+225 01 23 45 67 89"), Some("info@greentouch.ci"), Some("Lun - Sam: 7h - 17h"),
    Some(47), Some(567), Some(15), Some(1800))
  const CleanFresh := Agency(4, "Clean & Fresh",
    "Une équipe moderne et rapide pour redonner éclat et fraîcheur à vos espaces. Service express disponible pour vos urgences. Nous utilisons des techniques de pointe et des produits respectueux de l'environnement.",
    "San Pedro", ["Nettoyage", "Blanchisserie", "Service express", "Nettoyage vitres"],
    "./Childcare_service_photo_e9f137e4.png",
    Some("+225 09 87 65 43 21"), Some("contact@cleanfresh.ci"), Some("Lun - Dim: 24h/24"),
    Some(46), Some(423), Some(6), Some(1200))
  const BabyCare := Agency(5, "BabyCare Pro",
    "Service premium de garde d'enfants à domicile, flexible et sécurisé. Notre agence propose des services de garde haut de gamme avec des professionnels rigoureusement sélectionnés. Chaque intervenant est formé aux premiers secours.",
    "Abidjan", ["Garde d'enfants", "Soins de nourrissons", "Éveil ludique", "Garde de nuit"],
    "./Abidjan_agency_storefront_41598fcd.png",
    Some("+225 07 11 22 33 44"), Some("info@babycarepro.ci"), Some("Lun - Dim: 24h/24"),
    Some(49), Some(678), Some(10), Some(2500))

  /** The page's built-in catalogue. */
  function MockAgencies(): seq<Agency> {
    [ProNet, PetitsSoleils, GreenTouch, CleanFresh, BabyCare]
  }

  /** The mock catalogue has five agencies with the ids 1 to 5 in order. */
  lemma MockIds()
    ensures |MockAgencies()| == 5
    ensures forall i :: 0 <= i < 5 ==> MockAgencies()[i].id == i + 1
  {
  }

  /** The list the page works on: the query's data, or the mock catalogue
      when there is none. */
  function AgencyList(data: Option<seq<Agency>>): (r: seq<Agency>)
    ensures data.None? ==> r == MockAgencies()
    ensures data.Some? ==> r == data.value
  {
    data.GetOr(MockAgencies())
  }

  /** Some service name contains `term`, ignoring case. */
  predicate SomeServiceMentions(services: seq<string>, term: string) {
    exists k :: 0 <= k < |services| && Contains(ToLower(services[k]), ToLower(term))
  }

  /** The search clause: empty, or found ignoring case in the name, the
      description or any service name. */
  predicate MatchesSearch(a: Agency, term: string) {
    || term == ""
    || Contains(ToLower(a.nom), ToLower(term))
    || Contains(ToLower(a.description), ToLower(term))
    || SomeServiceMentions(a.services, term)
  }

  /** An agency is shown iff it passes the search, city and service clauses. */
  predicate Keeps(c: ClientAgencies.Criteria, a: Agency) {
    && MatchesSearch(a, c.searchTerm)
    && (c.selectedCity == ClientAgencies.All || a.ville == c.selectedCity)
    && (c.selectedService == ClientAgencies.All || c.selectedService in a.services)
  }

  function KeepsTest(c: ClientAgencies.Criteria): Agency -> bool {
    a => Keeps(c, a)
  }

  function Ville(a: Agency): string { a.ville }
  function ServicesOf(a: Agency): seq<string> { a.services }

  /** `filteredAgencies`: the agencies of the list passing the three
      clauses, in list order. */
  function FilteredAgencies(data: Option<seq<Agency>>, c: ClientAgencies.Criteria): (r: seq<Agency>)
    ensures IsSubseq(r, AgencyList(data))
    ensures forall i :: 0 <= i < |AgencyList(data)| ==> (AgencyList(data)[i] in r <==> Keeps(c, AgencyList(data)[i]))
    ensures forall i :: 0 <= i < |r| ==> Keeps(c, r[i])
  {
    FilterIsSubseq(AgencyList(data), KeepsTest(c));
    Filter(AgencyList(data), KeepsTest(c))
  }

  /** `cities`: the cities of the list, once each, sorted. */
  function Cities(data: Option<seq<Agency>>): (r: seq<string>)
    ensures Sorted(r) && NoDup(r)
    ensures forall y :: y in r <==> exists i :: 0 <= i < |AgencyList(data)| && AgencyList(data)[i].ville == y
  {
    var r := SortedSet(Map(AgencyList(data), Ville));
    SortedNoDup(r);
    r
  }

  /** `allServices`: the service names of the list gathered into a set by two
      nested loops, then sorted. */
  method AllServices(data: Option<seq<Agency>>) returns (r: seq<string>)
    ensures r == SortedSet(Flatten(AgencyList(data), ServicesOf))
    ensures Sorted(r) && NoDup(r)
    ensures forall y :: y in r <==> exists k :: 0 <= k < |AgencyList(data)| && y in AgencyList(data)[k].services
  {
    var xs := AgencyList(data);
    var found := CollectDistinct(xs, ServicesOf);
    SortSpec(found);
    r := Sort(found);
    SortedNoDup(r);
    assert forall y :: y in r <==> y in Flatten(xs, ServicesOf) by {
      DistinctSpec(Flatten(xs, ServicesOf));
    }
    forall y ensures y in r <==> exists k :: 0 <= k < |xs| && y in xs[k].services {
      FlattenMembers(xs, ServicesOf, y);
    }
  }

  /** The fields this record shares with the API's agency record. */
  function Shared(a: Agency): Schema.Agency {
    Schema.Agency(a.id, a.nom, a.ville, a.services, a.description, a.image, a.horaires, a.telephone, a.email)
  }

  /** The API page's test, read through `Shared`. */
  function ClientTest(c: ClientAgencies.Criteria): Agency -> bool {
    a => ClientAgencies.Keeps(c, Shared(a))
  }

  /** Whatever the API page shows for an agency, this page shows too: its
      search clause only adds the service names. */
  lemma WiderSearch(c: ClientAgencies.Criteria, a: Agency)
    ensures ClientAgencies.Keeps(c, Shared(a)) ==> Keeps(c, a)
  {
  }

  /** For the same list and the same inputs, the API page's result (on the
      shared fields) is a subsequence of this page's result. */
  lemma ShowsAllClientShows(xs: seq<Agency>, c: ClientAgencies.Criteria)
    ensures IsSubseq(ClientAgencies.FilteredAgencies(Some(Map(xs, Shared)), c), Map(FilteredAgencies(Some(xs), c), Shared))
  {
    FilterMap(xs, Shared, ClientAgencies.KeepsTest(c), ClientTest(c));
    FilterWeaker(xs, ClientTest(c), KeepsTest(c));
    MapSubseq(Filter(xs, ClientTest(c)), Filter(xs, KeepsTest(c)), Shared);
  }

  /** The widening is strict: a search for "bla" finds an agency offering
      "Blanchisserie" only through its service name. */
  lemma ServiceNameOnlyMatch()
    ensures Keeps(ClientAgencies.Criteria("bla", "all", "all"), Laundry)
    ensures !ClientAgencies.Keeps(ClientAgencies.Criteria("bla", "all", "all"), Shared(Laundry))
  {
    assert ToLower("bla") == "bla";
    assert ToLower("Blanchisserie")[..3] == "bla";
    assert Contains(ToLower(Laundry.services[0]), ToLower("bla"));
    assert ToLower("Lavage") == "lavage";
    assert ToLower("Linge") == "linge";
    ContainsNeedsChar("lavage", "bla", 0);
    ContainsNeedsChar("linge", "bla", 0);
  }

  const Laundry := Agency(7, "Lavage", "Linge", "Abidjan", ["Blanchisserie"], "",
                          None, None, None, None, None, None, None)

  // ---------------------------------------------------------------------
  // Statistics

  /** The integer totals shown above the list (the average rating is not
      part of this model). */
  datatype Stats = Stats(totalAgencies: nat, totalReviews: int, totalClients: int, totalExperience: int)

  /** `sum + (x || 0)` summed over the list: a missing value counts as 0. */
  function Total(xs: seq<Agency>, field: Agency -> Option<int>): int {
    if xs == [] then 0 else Total(xs[..|xs| - 1], field) + field(xs[|xs| - 1]).GetOr(0)
  }

  function Reviews(a: Agency): Option<int> { a.nombreAvis }
  function Clients(a: Agency): Option<int> { a.nombreClients }
  function Experience(a: Agency): Option<int> { a.anneeExperience }

  /** `stats`: the number of agencies and the three sums. */
  function ComputeStats(xs: seq<Agency>): (r: Stats)
    ensures r.totalAgencies == |xs|
  {
    Stats(|xs|, Total(xs, Reviews), Total(xs, Clients), Total(xs, Experience))
  }

  /** A total over two lists joined is the sum of their totals. */
  lemma {:induction false} TotalAppend(xs: seq<Agency>, ys: seq<Agency>, field: Agency -> Option<int>)
    ensures Total(xs + ys, field) == Total(xs, field) + Total(ys, field)
    decreases |ys|
  {
    if ys != [] {
      assert (xs + ys)[..|xs + ys| - 1] == xs + ys[..|ys| - 1];
      TotalAppend(xs, ys[..|ys| - 1], field);
    } else {
      assert xs + ys == xs;
    }
  }

  /** An agency without the field leaves the total as it was. */
  lemma MissingCountsZero(xs: seq<Agency>, a: Agency, field: Agency -> Option<int>)
    requires field(a).None?
    ensures Total(xs + [a], field) == Total(xs, field)
  {
    TotalAppend(xs, [a], field);
    assert Total([a], field) == Total([], field) + 0;
  }

  /** Adding one agency at the end adds its value, or 0 when it has none. */
  lemma TotalSnoc(xs: seq<Agency>, a: Agency, field: Agency -> Option<int>)
    ensures Total(xs + [a], field) == Total(xs, field) + field(a).GetOr(0)
  {
    assert (xs + [a])[..|xs|] == xs;
  }

  /** A total over the mock catalogue, agency by agency. */
  lemma MockTotal(field: Agency -> Option<int>)
    ensures Total(MockAgencies(), field)
         == field(ProNet).GetOr(0) + field(PetitsSoleils).GetOr(0) + field(GreenTouch).GetOr(0)
          + field(CleanFresh).GetOr(0) + field(BabyCare).GetOr(0)
  {
    var empty: seq<Agency> := [];
    TotalSnoc(empty, ProNet, field);
    assert empty + [ProNet] == [ProNet];
    TotalSnoc([ProNet], PetitsSoleils, field);
    assert [ProNet] + [PetitsSoleils] == [ProNet, PetitsSoleils];
    TotalSnoc([ProNet, PetitsSoleils], GreenTouch, field);
    assert [ProNet, PetitsSoleils] + [GreenTouch] == [ProNet, PetitsSoleils, GreenTouch];
    TotalSnoc([ProNet, PetitsSoleils, GreenTouch], CleanFresh, field);
    assert [ProNet, PetitsSoleils, GreenTouch] + [CleanFresh] == [ProNet, PetitsSoleils, GreenTouch, CleanFresh];
    TotalSnoc([ProNet, PetitsSoleils, GreenTouch, CleanFresh], BabyCare, field);
    assert [ProNet, PetitsSoleils, GreenTouch, CleanFresh] + [BabyCare] == MockAgencies();
  }

  /** The totals of the mock catalogue: 5 agencies, 3805 reviews, 11100
      clients, 51 years of experience. */
  lemma MockStats()
    ensures ComputeStats(MockAgencies()) == Stats(5, 3805, 11100, 51)
  {
    MockTotal(Reviews);
    MockTotal(Clients);
    MockTotal(Experience);
  }

  // ---------------------------------------------------------------------
  // Reset

  /** The "reset the search" button: empty search, every city, every service. */
  function Reset(c: ClientAgencies.Criteria): (r: ClientAgencies.Criteria)
    ensures r.searchTerm == "" && r.selectedCity == ClientAgencies.All && r.selectedService == ClientAgencies.All
  {
    ClientAgencies.Initial
  }

  /** After a reset the whole list is shown again. */
  lemma ResetShowsAll(data: Option<seq<Agency>>, c: ClientAgencies.Criteria)
    ensures FilteredAgencies(data, Reset(c)) == AgencyList(data)
  {
    FilterKeepsAll(AgencyList(data), KeepsTest(Reset(c)));
  }
}
