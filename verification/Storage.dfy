/** The in-memory data service: a fixed catalogue of services and agencies,
    and an append-only log of quote requests kept in a JavaScript `Map`
    (insertion-ordered, keyed by the request id). */
module Storage {
  import opened Wrappers
  import opened Seqs
  import opened Schema

  const CleaningImage := "/attached_assets/generated_images/Professional_cleaning_service_photo_2a582859.png"
  const GardeningImage := "/attached_assets/generated_images/Gardening_service_photo_0007b568.png"
  const AbidjanImage := "/attached_assets/generated_images/Abidjan_agency_storefront_41598fcd.png"
  const BouakeImage := "/attached_assets/generated_images/Bouaké_agency_storefront_efadb467.png"

  const Service1 := Service(1, "Ménage à domicile",
    "Service complet de ménage et d'entretien régulier ou ponctuel pour votre maison.", "Sparkles")
  const Service2 := Service(2, "Garde d'enfants",
    "Des professionnels de confiance pour la garde d'enfants à domicile en toute sécurité.", "Baby")
  const Service3 := Service(3, "Jardinage",
    "Entretien, taille, tonte et aménagement de vos espaces verts par des experts.", "TreeDeciduous")

  const Agency1 := Agency(1, "Service Pro Abidjan", "Abidjan", ["Ménage", "Repassage", "Garde d'enfants"],
    "Agence de services à domicile de confiance basée à Abidjan. Nous proposons des prestations de qualité avec des professionnels qualifiés et vérifiés.",
    AbidjanImage, Some("Lundi - Samedi : 7h00 - 19h00"), Some("+225 27 20 12 34 56"),
    Some("contact@servicepro-abidjan.ci"))
  const Agency2 := Agency(2, "Maison Plus Bouaké", "Bouaké", ["Ménage", "Jardinage"],
    "Prestataire local spécialisé dans l'entretien des maisons et des jardins. Service rapide et personnalisé pour tous vos besoins.",
    BouakeImage, Some("Lundi - Vendredi : 8h00 - 18h00"), Some("+225 31 63 45 78 90"),
    Some("info@maisonplus-bouake.ci"))
  const Agency3 := Agency(3, "Excellence Services Abidjan", "Abidjan", ["Ménage", "Garde d'enfants", "Jardinage", "Repassage"],
    "L'excellence au service de votre quotidien. Une équipe dédiée pour tous vos besoins domestiques avec un service premium.",
    AbidjanImage, Some("Lundi - Dimanche : 6h00 - 21h00"), Some("+225 27 20 98 76 54"),
    Some("contact@excellence-abidjan.ci"))
  const Agency4 := Agency(4, "Famille & Maison Yamoussoukro", "Yamoussoukro", ["Garde d'enfants", "Ménage"],
    "Services familiaux de qualité pour votre tranquillité d'esprit. Professionnels expérimentés et de confiance.",
    CleaningImage, Some("Lundi - Samedi : 7h00 - 19h00"), Some("+225 30 64 12 34 56"),
    Some("contact@famille-maison.ci"))
  const Agency5 := Agency(5, "Jardin Vert Bouaké", "Bouaké", ["Jardinage"],
    "Spécialistes de l'entretien et de l'aménagement paysager. Votre jardin mérite les meilleurs soins.",
    GardeningImage, Some("Lundi - Samedi : 6h00 - 17h00"), Some("+225 31 63 78 90 12"),
    Some("contact@jardinvert-bouake.ci"))
  const Agency6 := Agency(6, "Confort Home Abidjan", "Abidjan", ["Ménage", "Repassage"],
    "Votre confort est notre priorité. Services de nettoyage et de repassage de haute qualité.",
    CleaningImage, Some("Lundi - Vendredi : 7h00 - 19h00"), Some("+225 27 20 55 44 33"),
    Some("info@confort-home.ci"))

  /** The three services the constructor installs. */
  function BuiltInServices(): seq<Service> {
    [Service1, Service2, Service3]
  }

  /** The six agencies the constructor installs. */
  function BuiltInAgencies(): seq<Agency> {
    [Agency1, Agency2, Agency3, Agency4, Agency5, Agency6]
  }

  /** The built-in services come in constructor order with ids 1, 2, 3. */
  lemma BuiltInServiceIds()
    ensures |BuiltInServices()| == 3
    ensures forall i :: 0 <= i < 3 ==> BuiltInServices()[i].id == i + 1
  {
  }

  /** The built-in agencies carry the ids 1 to 6 in order, so no two share an id. */
  lemma BuiltInAgencyIds()
    ensures |BuiltInAgencies()| == 6
    ensures forall i :: 0 <= i < 6 ==> BuiltInAgencies()[i].id == i + 1
    ensures UniqueIds(BuiltInAgencies())
  {
  }

  /** No two agencies share an id. */
  ghost predicate UniqueIds(xs: seq<Agency>) {
    forall i, j :: 0 <= i < j < |xs| ==> xs[i].id != xs[j].id
  }

  /** `agencies.find(a => a.id === id)`: the first agency with that id. */
  function FindAgency(xs: seq<Agency>, id: int): (r: Option<Agency>)
    ensures r.None? <==> forall i :: 0 <= i < |xs| ==> xs[i].id != id
    ensures r.Some? ==> exists i :: 0 <= i < |xs| && xs[i] == r.value && r.value.id == id
                                    && forall j :: 0 <= j < i ==> xs[j].id != id
  {
    if xs == [] then None
    else if xs[0].id == id then Some(xs[0])
    else
      var r := FindAgency(xs[1..], id);
      assert r.Some? ==> exists i :: 0 <= i < |xs[1..]| && xs[1..][i] == r.value && r.value.id == id
                                    && forall j :: 0 <= j < i ==> xs[1..][j].id != id;
      if r.Some? then
        var i :| 0 <= i < |xs[1..]| && xs[1..][i] == r.value && r.value.id == id
                 && forall j :: 0 <= j < i ==> xs[1..][j].id != id;
        assert xs[i + 1] == r.value;
        assert forall j :: 0 <= j < i + 1 ==> xs[j].id != id by {
          forall j | 0 <= j < i + 1 ensures xs[j].id != id {
            if j > 0 { assert xs[j] == xs[1..][j - 1]; }
          }
        }
        r
      else
        r
  }

  /** With unique ids, the lookup finds the one agency carrying the id. */
  lemma FindUnique(xs: seq<Agency>, k: nat)
    requires UniqueIds(xs) && k < |xs|
    ensures FindAgency(xs, xs[k].id) == Some(xs[k])
  {
    var r := FindAgency(xs, xs[k].id);
    var i :| 0 <= i < |xs| && xs[i] == r.value && r.value.id == xs[k].id
             && forall j :: 0 <= j < i ==> xs[j].id != xs[k].id;
    assert i == k;
  }

  /** The requests in key order: `Array.from(map.values())`. */
  function ValuesInOrder(keys: seq<string>, m: map<string, QuoteRequest>): (r: seq<QuoteRequest>)
    requires forall k :: k in keys ==> k in m
    ensures |r| == |keys|
    ensures forall i :: 0 <= i < |keys| ==> r[i] == m[keys[i]]
  {
    if keys == [] then [] else [m[keys[0]]] + ValuesInOrder(keys[1..], m)
  }

  /** Entries under other keys do not change the listing. */
  lemma ValuesIgnoreOtherKeys(keys: seq<string>, m: map<string, QuoteRequest>, id: string, v: QuoteRequest)
    requires forall k :: k in keys ==> k in m
    requires id !in keys
    ensures ValuesInOrder(keys, m[id := v]) == ValuesInOrder(keys, m)
  {
  }

  /** Storing under a new key at the end of the key order adds the value at
      the end of the listing. */
  lemma ValuesAppend(keys: seq<string>, m: map<string, QuoteRequest>, id: string, v: QuoteRequest)
    requires forall k :: k in keys ==> k in m
    requires id !in keys
    ensures ValuesInOrder(keys + [id], m[id := v]) == ValuesInOrder(keys, m) + [v]
  {
    ValuesIgnoreOtherKeys(keys, m, id, v);
  }

  class MemStorage {
    var services: seq<Service>
    var agencies: seq<Agency>
    /** The keys of the request `Map`, in insertion order. */
    var quoteKeys: seq<string>
    /** The entries of the request `Map`. */
    var quoteRequests: map<string, QuoteRequest>

    /** The catalogues are the built-in ones; the key order lists each key of
        the map once; each request is stored under its own id. */
    ghost predicate Valid()
      reads this
    {
      && services == BuiltInServices()
      && agencies == BuiltInAgencies()
      && NoDup(quoteKeys)
      && (forall k :: k in quoteRequests <==> k in quoteKeys)
      && (forall k :: k in quoteRequests ==> quoteRequests[k].id == k)
    }

    /** A fresh store: the built-in catalogues and no request. */
    constructor ()
      ensures Valid()
      ensures quoteKeys == [] && quoteRequests == map[]
    {
      services := BuiltInServices();
      agencies := BuiltInAgencies();
      quoteKeys := [];
      quoteRequests := map[];
    }

    /** `getServices`: the built-in services, ids 1 to 3 in constructor order. */
    function GetServices(): (r: seq<Service>)
      reads this
      requires Valid()
      ensures r == BuiltInServices()
      ensures |r| == 3 && forall i :: 0 <= i < 3 ==> r[i].id == i + 1
    {
      BuiltInServiceIds();
      services
    }

    /** `getAgencies`: the built-in agencies in constructor order. */
    function GetAgencies(): (r: seq<Agency>)
      reads this
      requires Valid()
      ensures r == BuiltInAgencies()
      ensures |r| == 6 && forall i :: 0 <= i < 6 ==> r[i].id == i + 1
    {
      BuiltInAgencyIds();
      agencies
    }

    /** `getAgencyById`: the unique agency with that id (ids 1 to 6), and
        `undefined` for every other id. */
    function GetAgencyById(id: int): (r: Option<Agency>)
      reads this
      requires Valid()
      ensures 1 <= id <= 6 ==> r == Some(BuiltInAgencies()[id - 1])
      ensures !(1 <= id <= 6) ==> r == None
    {
      BuiltInAgencyIds();
      if 1 <= id <= 6 then
        FindUnique(agencies, id - 1);
        FindAgency(agencies, id)
      else
        FindAgency(agencies, id)
    }

    /** `getQuoteRequests`: the stored requests in insertion order. */
    function GetQuoteRequests(): (r: seq<QuoteRequest>)
      reads this
      requires Valid()
      ensures |r| == |quoteKeys| == |quoteRequests|
      ensures forall i :: 0 <= i < |r| ==> r[i] == quoteRequests[quoteKeys[i]] && r[i].id == quoteKeys[i]
    {
      assert quoteRequests.Keys == set k | k in quoteKeys;
      NoDupCard(quoteKeys);
      ValuesInOrder(quoteKeys, quoteRequests)
    }

    /** `createQuoteRequest`, with `randomUUID()` and the current time given
        as `id` and `createdAt`. The record is the input plus both; it is
        stored under its id with `set`, which overwrites in place when the id
        is already a key. With a fresh id the log grows by exactly that one
        record at its end and every earlier record stays as it was. The
        catalogues are never touched. */
    method CreateQuoteRequest(request: InsertQuoteRequest, id: string, createdAt: string) returns (q: QuoteRequest)
      requires Valid()
      modifies this`quoteKeys, this`quoteRequests
      ensures Valid()
      ensures q == Stamp(request, id, createdAt)
      ensures quoteRequests == old(quoteRequests)[id := q]
      ensures quoteKeys == if id in old(quoteRequests) then old(quoteKeys) else old(quoteKeys) + [id]
      ensures id !in old(quoteRequests) ==> |quoteRequests| == old(|quoteRequests|) + 1
      ensures id !in old(quoteRequests) ==> GetQuoteRequests() == old(GetQuoteRequests()) + [q]
      ensures forall k :: k in old(quoteRequests) && k != id ==> quoteRequests[k] == old(quoteRequests[k])
    {
      q := Stamp(request, id, createdAt);
      if id !in quoteRequests {
        ValuesAppend(quoteKeys, quoteRequests, id, q);
        quoteKeys := quoteKeys + [id];
      }
      quoteRequests := quoteRequests[id := q];
    }
  }

  /** A sequence without repeats has as many elements as its set. */
  lemma {:induction false} NoDupCard(xs: seq<string>)
    requires NoDup(xs)
    ensures |set k | k in xs| == |xs|
  {
    if xs != [] {
      var init := xs[..|xs| - 1];
      assert NoDup(init) by {
        forall i, j | 0 <= i < j < |init| ensures init[i] != init[j] {
          assert init[i] == xs[i] && init[j] == xs[j];
        }
      }
      NoDupCard(init);
      assert xs == init + [xs[|xs| - 1]];
      assert (set k | k in xs) == (set k | k in init) + {xs[|xs| - 1]};
    }
  }
}
