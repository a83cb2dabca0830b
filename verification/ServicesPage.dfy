/** The service catalogue page of the stand-alone front end: six mock
    services, a text search over name, description and advantages, a
    minimum-rating threshold, and two integer totals. Ratings are written
    in tenths of a star (4.8 is 48), which represents the page's values and
    thresholds exactly. */
module ServicesPage {
  import opened Wrappers
  import opened JsText
  import opened Seqs

  /** A catalogue entry: the service record plus its selling points,
      duration, price text, rating in tenths and review count. */
  datatype Offer = Offer(
    id: int,
    nom: string,
    description: string,
    icone: string,
    avantages: seq<string>,
    duree: string,
    prix: string,
    note: int,
    nombreAvis: int)

  const Residentiel := Offer(1, "Nettoyage résidentiel",
    "Un service complet pour que votre maison brille du sol au plafond. Nos professionnels utilisent des produits écologiques et des techniques éprouvées.",
    "Sparkles",
    ["Aides-ménagères qualifiées et valorisées", "Prestations 100% personnalisables",
     "Aucune gestion administrative", "Produits écologiques certifiés"],
    "2-4 heures", "À partir de 25€/heure", 48, 1245)
  const GardeEnfants := Offer(2, "Garde d'enfants à domicile",
    "Des nounous qualifiées et bienveillantes pour prendre soin de vos petits trésors. Service flexible adapté à vos horaires.",
    "Baby",
    ["Nounous certifiées et expérimentées", "Flexibilité des horaires",
     "Activités d'éveil ludiques", "Suivi personnalisé de l'enfant"],
    "Sur mesure", "À partir de 20€/heure", 49, 892)
  const Jardin := Offer(3, "Entretien de jardin",
    "Confiez vos espaces verts à nos experts pour un jardin toujours éclatant. Taille, tonte, plantation et aménagement.",
    "TreeDeciduous",
    ["Paysagistes professionnels", "Entretien régulier ou ponctuel",
     "Conseils personnalisés", "Matériel professionnel inclus"],
    "1-3 heures", "À partir de 30€/heure", 47, 567)
  const Peinture := Offer(4, "Peinture intérieure",
    "Rafraîchissez votre intérieur avec des finitions modernes et durables. Peintres professionnels pour un résultat impeccable.",
    "Paintbrush",
    ["Peintres certifiés", "Finitions de qualité",
     "Peintures écologiques disponibles", "Protection des meubles incluse"],
    "1-3 jours", "À partir de 35€/m²", 46, 423)
  const Securite := Offer(5, "Sécurité & Surveillance",
    "Protégez votre foyer ou votre entreprise avec nos solutions connectées. Installation et maintenance professionnelles.",
    "Shield",
    ["Systèmes connectés modernes", "Installation professionnelle",
     "Maintenance incluse", "Support 24/7"],
    "Installation 2-4h", "À partir de 150€/mois", 48, 312)
  const Demenagement := Offer(6, "Déménagement facile",
    "Nous prenons soin de vos biens du départ à l'arrivée, sans stress. Équipe expérimentée et matériel adapté.",
    "Truck",
    ["Équipe expérimentée", "Matériel professionnel",
     "Assurance incluse", "Déménagement complet"],
    "1 journée", "À partir de 500€", 49, 678)

  /** The page's catalogue. */
  function MockServices(): seq<Offer> {
    [Residentiel, GardeEnfants, Jardin, Peinture, Securite, Demenagement]
  }

  /** The thresholds the rating buttons offer (4.5, 4.0 and 3.5 stars);
      the fourth button, "Toutes", sets no threshold. */
  const RatingOptions: seq<int> := [45, 40, 35]

  /** The search stage runs only when the query is not blank. */
  predicate SearchApplies(query: string) {
    Trim(query) != ""
  }

  /** Some advantage contains `q` once lower-cased. */
  predicate SomeAdvantageMentions(avantages: seq<string>, q: string) {
    exists k :: 0 <= k < |avantages| && Contains(ToLower(avantages[k]), q)
  }

  /** The lower-cased query `q` occurs in the lower-cased name, description
      or an advantage. */
  predicate MatchesQuery(s: Offer, q: string) {
    || Contains(ToLower(s.nom), q)
    || Contains(ToLower(s.description), q)
    || SomeAdvantageMentions(s.avantages, q)
  }

  predicate MeetsRating(s: Offer, minRating: Option<int>) {
    minRating.None? || s.note >= minRating.value
  }

  /** Whether the page shows an offer: it matches the (untrimmed,
      lower-cased) query whenever the trimmed query is not blank, and it
      meets the threshold whenever one is set. */
  predicate Shown(s: Offer, query: string, minRating: Option<int>) {
    (SearchApplies(query) ==> MatchesQuery(s, ToLower(query))) && MeetsRating(s, minRating)
  }

  function QueryTest(q: string): Offer -> bool {
    s => MatchesQuery(s, q)
  }

  function RatingTest(minRating: Option<int>): Offer -> bool {
    s => MeetsRating(s, minRating)
  }

  function ShownTest(query: string, minRating: Option<int>): Offer -> bool {
    s => Shown(s, query, minRating)
  }

  /** `filteredServices` over a catalogue: the search stage, then the rating
      stage, each keeping list order. The result is exactly the offers
      `Shown` accepts, in catalogue order. */
  function Filtered(services: seq<Offer>, query: string, minRating: Option<int>): (r: seq<Offer>)
    ensures r == Filter(services, ShownTest(query, minRating))
    ensures IsSubseq(r, services)
    ensures forall i :: 0 <= i < |services| ==> (services[i] in r <==> Shown(services[i], query, minRating))
  {
    var searched := if SearchApplies(query) then Filter(services, QueryTest(ToLower(query))) else services;
    var rated := if minRating.Some? then Filter(searched, RatingTest(minRating)) else searched;
    TwoStages(services, query, minRating);
    FilterIsSubseq(services, ShownTest(query, minRating));
    rated
  }

  /** The two stages together keep exactly what `Shown` keeps. */
  lemma TwoStages(services: seq<Offer>, query: string, minRating: Option<int>)
    ensures
      var searched := if SearchApplies(query) then Filter(services, QueryTest(ToLower(query))) else services;
      (if minRating.Some? then Filter(searched, RatingTest(minRating)) else searched)
        == Filter(services, ShownTest(query, minRating))
  {
    if SearchApplies(query) && minRating.Some? {
      FilterFilter(services, QueryTest(ToLower(query)), RatingTest(minRating), ShownTest(query, minRating));
    } else if SearchApplies(query) {
      FilterSameTest(services, QueryTest(ToLower(query)), ShownTest(query, minRating));
    } else if minRating.Some? {
      FilterSameTest(services, RatingTest(minRating), ShownTest(query, minRating));
    } else {
      FilterKeepsAll(services, ShownTest(query, minRating));
    }
  }

  /** The page's result: the catalogue filtered by the current inputs. */
  function FilteredServices(query: string, minRating: Option<int>): (r: seq<Offer>)
    ensures IsSubseq(r, MockServices())
    ensures forall i :: 0 <= i < |MockServices()| ==> (MockServices()[i] in r <==> Shown(MockServices()[i], query, minRating))
  {
    Filtered(MockServices(), query, minRating)
  }

  /** A higher threshold never shows an offer a lower one hides. */
  lemma RatingMonotone(services: seq<Offer>, query: string, lo: int, hi: int)
    requires lo <= hi
    ensures IsSubseq(Filtered(services, query, Some(hi)), Filtered(services, query, Some(lo)))
  {
    FilterWeaker(services, ShownTest(query, Some(hi)), ShownTest(query, Some(lo)));
  }

  /** Setting a threshold never shows more than setting none. */
  lemma ThresholdOnlyRemoves(services: seq<Offer>, query: string, m: int)
    ensures IsSubseq(Filtered(services, query, Some(m)), Filtered(services, query, None))
  {
    FilterWeaker(services, ShownTest(query, Some(m)), ShownTest(query, None));
  }

  /** A blank query with no threshold (also the state after either reset
      button) shows the whole catalogue: all six services. */
  lemma BlankQueryShowsAll(query: string)
    requires Trim(query) == ""
    ensures FilteredServices(query, None) == MockServices()
    ensures |FilteredServices(query, None)| == 6
  {
    FilterKeepsAll(MockServices(), ShownTest(query, None));
  }

  /** The rating buttons from left to right (4.5, 4.0, 3.5 stars) each show a
      subsequence of what the next button shows. */
  lemma RatingButtonsNested(services: seq<Offer>, query: string, i: nat)
    requires i + 1 < |RatingOptions|
    ensures IsSubseq(Filtered(services, query, Some(RatingOptions[i])),
                     Filtered(services, query, Some(RatingOptions[i + 1])))
  {
    RatingMonotone(services, query, RatingOptions[i + 1], RatingOptions[i]);
  }

  /** Filtering the result again with the same inputs changes nothing. */
  lemma FilterTwice(services: seq<Offer>, query: string, minRating: Option<int>)
    ensures Filtered(Filtered(services, query, minRating), query, minRating) == Filtered(services, query, minRating)
  {
    FilterIdempotent(services, ShownTest(query, minRating));
  }

  /** The query is trimmed only to decide whether to search: "jardin " (with
      a trailing space) searches for "jardin " and so misses an offer named
      "Jardin" that "jardin" would find. */
  lemma UntrimmedQueryMatched()
    ensures SearchApplies("jardin ")
    ensures MatchesQuery(Lawn, "jardin") && !Shown(Lawn, "jardin ", None)
  {
    assert LeadingSpaces("jardin ") == 0;
    assert TrailingSpaces("jardin ") == 1;
    assert ToLower("Jardin") == "jardin";
    assert ToLower("jardin ") == "jardin ";
    assert "jardin"[..6] == "jardin";
    ContainsLonger("jardin", "jardin ");
    ContainsLonger("", "jardin ");
  }

  const Lawn := Offer(7, "Jardin", "", "", [], "", "", 40, 0)

  // ---------------------------------------------------------------------
  // Statistics

  function ReviewTotal(xs: seq<Offer>): int {
    if xs == [] then 0 else ReviewTotal(xs[..|xs| - 1]) + xs[|xs| - 1].nombreAvis
  }

  /** The integer statistics: `totalServices` is the catalogue's length and
      `totalReviews` the sum of the review counts, 6 and 4117. */
  lemma CatalogueStats()
    ensures |MockServices()| == 6
    ensures ReviewTotal(MockServices()) == 4117
  {
    var xs := MockServices();
    assert xs[..5] == [Residentiel, GardeEnfants, Jardin, Peinture, Securite];
    assert xs[..5][..4] == [Residentiel, GardeEnfants, Jardin, Peinture];
    assert xs[..5][..4][..3] == [Residentiel, GardeEnfants, Jardin];
    assert xs[..5][..4][..3][..2] == [Residentiel, GardeEnfants];
    assert xs[..5][..4][..3][..2][..1] == [Residentiel];
    assert ReviewTotal([Residentiel]) == 1245;
    assert ReviewTotal([Residentiel, GardeEnfants]) == 2137;
    assert ReviewTotal([Residentiel, GardeEnfants, Jardin]) == 2704;
    assert ReviewTotal([Residentiel, GardeEnfants, Jardin, Peinture]) == 3127;
    assert ReviewTotal([Residentiel, GardeEnfants, Jardin, Peinture, Securite]) == 3439;
  }
}
