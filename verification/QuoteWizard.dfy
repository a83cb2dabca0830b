/** The seven-step quote request wizard of the stand-alone front end:
    where the client lives, which service, which kind of help and sub-kind,
    which needs, for whom, then the contact form. A step counter and the
    collected answers change with each click; "next" is allowed only when
    the current step's answer is present. */
module QuoteWizard {
  import opened Wrappers
  import opened JsText
  import opened Seqs

  // ---------------------------------------------------------------------
  // Catalogues

  const FranceList: seq<string> :=
    ["Ménage", "Mécanique", "Baby-sitting", "Jardinage", "Peinture", "Plomberie", "Électricité", "Repassage"]
  const IvoryCoastList: seq<string> :=
    ["Ménage", "Garde d'enfants", "Jardinage", "Repassage", "Sécurité", "Déménagement", "Peinture"]
  const BouakeList: seq<string> :=
    ["Ménage", "Garde d'enfants", "Jardinage", "Repassage", "Sécurité", "Déménagement"]
  const SmallCityList: seq<string> :=
    ["Ménage", "Garde d'enfants", "Jardinage", "Repassage", "Sécurité"]
  const DefaultList: seq<string> :=
    ["Ménage", "Garde d'enfants", "Jardinage", "Repassage", "Peinture", "Sécurité"]

  /** The services offered per region key. */
  const ServicesByRegion: map<string, seq<string>> := map[
    "france" := FranceList,
    "côte d'ivoire" := IvoryCoastList,
    "ivory coast" := IvoryCoastList,
    "abidjan" := IvoryCoastList,
    "bouaké" := BouakeList,
    "yamoussoukro" := SmallCityList,
    "san pedro" := SmallCityList,
    "default" := DefaultList]

  /** The kinds of help, each with its list of sub-kinds when it has one. */
  const TypesAide: map<string, Option<seq<string>>> := map[
    "Aide aux personnes âgées" := Some(["Accompagnement du handicap", "Retour d'hospitalisation",
                                        "Maintien à domicile", "Soins à domicile"]),
    "Garde d'enfants" := Some(["Garde régulière", "Baby-sitting ponctuel", "Aide aux devoirs", "Sortie d'école"]),
    "Ménage et entretien" := Some(["Ménage régulier", "Ménage ponctuel", "Repassage", "Nettoyage après travaux"]),
    "Jardinage" := Some(["Entretien régulier", "Aménagement paysager", "Taille et élagage"]),
    "Autre" := None]

  /** `typesAide[t]?.sousTypes` is present: `t` is a kind of help with sub-kinds. */
  predicate HasSousTypes(t: string) {
    t in TypesAide && TypesAide[t].Some?
  }

  // ---------------------------------------------------------------------
  // Region lookup

  /** The region whose list `getServicesForRegion` returns for an already
      lower-cased and trimmed location: the cities first, in the order
      Abidjan, Bouaké, Yamoussoukro, San Pedro, then France and its cities,
      then Côte d'Ivoire (any text containing "ci" counts), then the default. */
  function RegionKey(loc: string): (k: string)
    ensures k in ServicesByRegion
    ensures Contains(loc, "abidjan") ==> k == "abidjan"
    ensures BouakeTier(loc) ==> k == "bouaké"
    ensures YamoussoukroTier(loc) ==> k == "yamoussoukro"
    ensures SanPedroTier(loc) ==> k == "san pedro"
    ensures k == "default" <==> !CityMentioned(loc) && !FranceMentioned(loc) && !IvoryCoastMentioned(loc)
    ensures k == "france" <==> !CityMentioned(loc) && FranceMentioned(loc)
    ensures k == "côte d'ivoire" <==> !CityMentioned(loc) && !FranceMentioned(loc) && IvoryCoastMentioned(loc)
  {
    if Contains(loc, "abidjan") then "abidjan"
    else if Contains(loc, "bouaké") || Contains(loc, "bouake") then "bouaké"
    else if Contains(loc, "yamoussoukro") then "yamoussoukro"
    else if Contains(loc, "san pedro") || Contains(loc, "san-pedro") then "san pedro"
    else if FranceMentioned(loc) then "france"
    else if IvoryCoastMentioned(loc) then "côte d'ivoire"
    else "default"
  }

  /** Bouaké is named (with or without its accent) and Abidjan is not. */
  predicate BouakeTier(loc: string) {
    !Contains(loc, "abidjan") && (Contains(loc, "bouaké") || Contains(loc, "bouake"))
  }

  /** Yamoussoukro is named and neither earlier city is. */
  predicate YamoussoukroTier(loc: string) {
    && !Contains(loc, "abidjan") && !Contains(loc, "bouaké") && !Contains(loc, "bouake")
    && Contains(loc, "yamoussoukro")
  }

  /** San Pedro is named (with a space or a hyphen) and no earlier city is. */
  predicate SanPedroTier(loc: string) {
    && !Contains(loc, "abidjan") && !Contains(loc, "bouaké") && !Contains(loc, "bouake")
    && !Contains(loc, "yamoussoukro")
    && (Contains(loc, "san pedro") || Contains(loc, "san-pedro"))
  }

  /** One of the four Ivorian cities is named. */
  predicate CityMentioned(loc: string) {
    || Contains(loc, "abidjan") || Contains(loc, "bouaké") || Contains(loc, "bouake")
    || Contains(loc, "yamoussoukro") || Contains(loc, "san pedro") || Contains(loc, "san-pedro")
  }

  predicate FranceMentioned(loc: string) {
    Contains(loc, "france") || Contains(loc, "paris") || Contains(loc, "lyon") || Contains(loc, "marseille")
  }

  predicate IvoryCoastMentioned(loc: string) {
    || Contains(loc, "côte d'ivoire") || Contains(loc, "cote d'ivoire")
    || Contains(loc, "ivory coast") || Contains(loc, "ci")
  }

  /** `getServicesForRegion`: the services offered where the client lives. */
  function GetServicesForRegion(localisation: string): (r: seq<string>)
    ensures r in ServicesByRegion.Values
    ensures Contains(Trim(ToLower(localisation)), "abidjan") ==> r == IvoryCoastList
    ensures BouakeTier(Trim(ToLower(localisation))) ==> r == BouakeList
    ensures YamoussoukroTier(Trim(ToLower(localisation))) ==> r == SmallCityList
    ensures SanPedroTier(Trim(ToLower(localisation))) ==> r == SmallCityList
    ensures !CityMentioned(Trim(ToLower(localisation))) && FranceMentioned(Trim(ToLower(localisation))) ==> r == FranceList
    ensures (!CityMentioned(Trim(ToLower(localisation))) && !FranceMentioned(Trim(ToLower(localisation)))
             && IvoryCoastMentioned(Trim(ToLower(localisation)))) ==> r == IvoryCoastList
    ensures (!CityMentioned(Trim(ToLower(localisation))) && !FranceMentioned(Trim(ToLower(localisation)))
             && !IvoryCoastMentioned(Trim(ToLower(localisation)))) ==> r == DefaultList
  {
    ServicesByRegion[RegionKey(Trim(ToLower(localisation)))]
  }

  /** Every region's list offers "Ménage", so its preset is always reachable. */
  lemma MenageEverywhere()
    ensures forall k :: k in ServicesByRegion ==> "Ménage" in ServicesByRegion[k]
  {
    forall k | k in ServicesByRegion ensures "Ménage" in ServicesByRegion[k] {
      assert ServicesByRegion[k][0] == "Ménage";
    }
  }

  /** A location that names no Ivorian city and nothing French but contains
      the letters "ci" anywhere gets the Côte d'Ivoire list. */
  lemma CiAnywhere(localisation: string)
    requires Contains(Trim(ToLower(localisation)), "ci")
    requires !CityMentioned(Trim(ToLower(localisation))) && !FranceMentioned(Trim(ToLower(localisation)))
    ensures GetServicesForRegion(localisation) == IvoryCoastList
  {
  }

  /** So "Sicile" (Sicily) is served the Côte d'Ivoire list. */
  lemma SicilyIsIvorian()
    ensures GetServicesForRegion("Sicile") == IvoryCoastList
  {
    var loc := "sicile";
    assert Trim(ToLower("Sicile")) == loc by {
      assert ToLower("Sicile") == loc;
      assert LeadingSpaces(loc) == 0 && TrailingSpaces(loc) == 0;
    }
    SicileMentions();
    CiAnywhere("Sicile");
  }

  /** "sicile" contains "ci" and none of the city or French keywords. */
  lemma SicileMentions()
    ensures Contains("sicile", "ci")
    ensures !CityMentioned("sicile") && !FranceMentioned("sicile")
  {
    var loc := "sicile";
    assert OccursAt(loc, "ci", 2);
    ContainsSpec(loc, "ci");
    ContainsLonger(loc, "abidjan");
    ContainsNeedsChar(loc, "bouaké", 0);
    ContainsNeedsChar(loc, "bouake", 0);
    ContainsLonger(loc, "yamoussoukro");
    ContainsLonger(loc, "san pedro");
    ContainsLonger(loc, "san-pedro");
    ContainsNeedsChar(loc, "france", 0);
    ContainsNeedsChar(loc, "paris", 0);
    ContainsNeedsChar(loc, "lyon", 1);
    ContainsLonger(loc, "marseille");
  }

  /** A city is looked up before its country: "Abidjan, France" is
      served the Abidjan list, not the French one. */
  lemma CityBeforeCountry(localisation: string)
    requires Contains(Trim(ToLower(localisation)), "abidjan")
    ensures GetServicesForRegion(localisation) == IvoryCoastList
  {
  }

  // ---------------------------------------------------------------------
  // The collected answers

  /** The wizard's answers; `None` is a field never set (`undefined`). */
  datatype Form = Form(
    localisation: Option<string>,
    service: Option<string>,
    typeAide: Option<string>,
    sousTypeAide: Option<string>,
    besoins: seq<string>,
    destinataire: Option<string>)

  /** The answers when the page opens and after a successful submission. */
  const EmptyForm := Form(None, None, None, None, [], None)

  /** A JavaScript string field is truthy: set and not "". */
  predicate Truthy(o: Option<string>) {
    o.Some? && o.value != ""
  }

  /** The services the second step offers: none until a location is typed. */
  function ServiceOptions(f: Form): (r: seq<string>)
    ensures !Truthy(f.localisation) ==> r == []
    ensures Truthy(f.localisation) ==> r in ServicesByRegion.Values
    ensures Truthy(f.localisation) ==> r == GetServicesForRegion(f.localisation.value)
  {
    if Truthy(f.localisation) then GetServicesForRegion(f.localisation.value) else []
  }

  /** `canProceed`: whether "next" is enabled on `step` with answers `f`. */
  function CanProceed(step: int, f: Form): bool {
    match step
    case 1 => Truthy(f.localisation) && |Trim(f.localisation.value)| > 0
    case 2 => Truthy(f.service)
    case 3 => Truthy(f.typeAide)
    case 4 => if Truthy(f.typeAide) && HasSousTypes(f.typeAide.value) then Truthy(f.sousTypeAide) else true
    case 5 => |f.besoins| > 0
    case 6 => Truthy(f.destinataire)
    case 7 => true
    case _ => false
  }

  /** The gate of each step, stated as the page's rules: a non-blank
      location, a service, a kind of help, a sub-kind exactly when the kind
      has sub-kinds, at least one need, a recipient; the contact step is
      always open and no other step is. */
  lemma Gates(f: Form)
    ensures CanProceed(1, f) <==> f.localisation.Some? && exists i :: 0 <= i < |f.localisation.value| && !IsSpace(f.localisation.value[i])
    ensures CanProceed(2, f) <==> Truthy(f.service)
    ensures CanProceed(3, f) <==> Truthy(f.typeAide)
    ensures Truthy(f.typeAide) && HasSousTypes(f.typeAide.value) ==> (CanProceed(4, f) <==> Truthy(f.sousTypeAide))
    ensures !(Truthy(f.typeAide) && HasSousTypes(f.typeAide.value)) ==> CanProceed(4, f)
    ensures CanProceed(5, f) <==> f.besoins != []
    ensures CanProceed(6, f) <==> Truthy(f.destinataire)
    ensures CanProceed(7, f)
    ensures forall step :: !(1 <= step <= 7) ==> !CanProceed(step, f)
  {
    if f.localisation.Some? {
      TrimSpec(f.localisation.value);
    }
  }

  /** "Autre" has no sub-kinds: with it, the fourth step is always open. */
  lemma OtherNeedsNoSousType(f: Form)
    requires f.typeAide == Some("Autre")
    ensures CanProceed(4, f)
  {
    assert !HasSousTypes("Autre");
  }

  // Updates made by the clicks, as functions of the answers.

  function WithLocalisation(f: Form, v: string): Form {
    f.(localisation := Some(v))
  }

  /** A service click sets the service, and for the childcare and cleaning
      services also presets the matching kind of help. The sub-kind is left
      as it was. */
  function WithService(f: Form, s: string): (r: Form)
    ensures r.service == Some(s)
    ensures s == "Garde d'enfants" || s == "Baby-sitting" ==> r.typeAide == Some("Garde d'enfants")
    ensures s == "Ménage" ==> r.typeAide == Some("Ménage et entretien")
    ensures s != "Garde d'enfants" && s != "Baby-sitting" && s != "Ménage" ==> r.typeAide == f.typeAide
    ensures r.localisation == f.localisation && r.sousTypeAide == f.sousTypeAide
    ensures r.besoins == f.besoins && r.destinataire == f.destinataire
  {
    if s == "Garde d'enfants" || s == "Baby-sitting" then f.(service := Some(s), typeAide := Some("Garde d'enfants"))
    else if s == "Ménage" then f.(service := Some(s), typeAide := Some("Ménage et entretien"))
    else f.(service := Some(s))
  }

  /** A kind-of-help click sets the kind and clears the sub-kind. */
  function WithTypeAide(f: Form, t: string): Form {
    f.(typeAide := Some(t), sousTypeAide := None)
  }

  function WithSousType(f: Form, s: string): Form {
    f.(sousTypeAide := Some(s))
  }

  function WithDestinataire(f: Form, d: string): Form {
    f.(destinataire := Some(d))
  }

  /** `toggleBesoin` on the list: a need present is removed (every copy of
      it), a need absent is added at the end. */
  function Toggle(besoins: seq<string>, b: string): (r: seq<string>)
    ensures b in besoins ==> b !in r && IsSubseq(r, besoins)
    ensures b !in besoins ==> r == besoins + [b]
    ensures forall x :: x != b ==> (x in r <==> x in besoins)
  {
    if b in besoins then
      FilterIsSubseq(besoins, NotEqual(b));
      Filter(besoins, NotEqual(b))
    else besoins + [b]
  }

  function NotEqual(b: string): string -> bool {
    x => x != b
  }

  /** Toggling a need keeps the list free of repeats. */
  lemma ToggleNoDup(besoins: seq<string>, b: string)
    requires NoDup(besoins)
    ensures NoDup(Toggle(besoins, b))
  {
    if b in besoins {
      FilterNoDup(besoins, NotEqual(b));
    }
  }

  /** Toggling a need that was not selected twice gives back the list. */
  lemma ToggleTwice(besoins: seq<string>, b: string)
    requires b !in besoins
    ensures Toggle(Toggle(besoins, b), b) == besoins
  {
    FilterAppend(besoins, [b], NotEqual(b));
    FilterKeepsAll(besoins, NotEqual(b));
  }

  /** A selected need toggled twice ends up once, at the end of the list. */
  lemma ToggleSelectedTwice(besoins: seq<string>, b: string)
    requires b in besoins
    ensures Toggle(Toggle(besoins, b), b) == Filter(besoins, NotEqual(b)) + [b]
  {
  }

  function WithToggled(f: Form, b: string): Form {
    f.(besoins := Toggle(f.besoins, b))
  }

  /** A childcare or cleaning service click satisfies the third step's gate. */
  lemma PresetOpensStepThree(f: Form, s: string)
    requires s == "Garde d'enfants" || s == "Baby-sitting" || s == "Ménage"
    ensures CanProceed(3, WithService(f, s))
    ensures HasSousTypes(WithService(f, s).typeAide.value)
  {
  }

  /** After a kind-of-help click the fourth step is open exactly when that
      kind has no sub-kinds. */
  lemma NewTypeAideBlocksStepFour(f: Form, t: string)
    requires t != ""
    ensures CanProceed(4, WithTypeAide(f, t)) <==> !HasSousTypes(t)
  {
  }

  /** A preset does not clear the sub-kind: one chosen for gardening
      survives a later "Ménage" click and still opens the fourth step. */
  lemma PresetKeepsSousType(f: Form)
    requires f.sousTypeAide == Some("Taille et élagage")
    ensures WithService(f, "Ménage").sousTypeAide == Some("Taille et élagage")
    ensures CanProceed(4, WithService(f, "Ménage"))
  {
  }

  // ---------------------------------------------------------------------
  // The wizard state

  class Wizard {
    var currentStep: int
    var formData: Form

    /** The step stays in 1..7 and no need is selected twice. */
    ghost predicate Valid()
      reads this
    {
      1 <= currentStep <= 7 && NoDup(formData.besoins)
    }

    /** The page opens on step 1 with no answer and no need selected. */
    constructor ()
      ensures Valid()
      ensures currentStep == 1 && formData == EmptyForm
    {
      currentStep := 1;
      formData := EmptyForm;
    }

    /** `nextStep`: one step forward, except on the last step. */
    method NextStep()
      requires Valid()
      modifies this`currentStep
      ensures Valid()
      ensures currentStep == if old(currentStep) < 7 then old(currentStep) + 1 else 7
    {
      if currentStep < 7 {
        currentStep := currentStep + 1;
      }
    }

    /** `prevStep`: one step back, except on the first step. */
    method PrevStep()
      requires Valid()
      modifies this`currentStep
      ensures Valid()
      ensures currentStep == if old(currentStep) > 1 then old(currentStep) - 1 else 1
    {
      if currentStep > 1 {
        currentStep := currentStep - 1;
      }
    }

    /** The "next" button: disabled unless the current step's gate is open. */
    method PressNext()
      requires Valid()
      modifies this`currentStep
      ensures Valid()
      ensures CanProceed(old(currentStep), formData) ==> currentStep == if old(currentStep) < 7 then old(currentStep) + 1 else 7
      ensures !CanProceed(old(currentStep), formData) ==> currentStep == old(currentStep)
      ensures currentStep > old(currentStep) ==> CanProceed(old(currentStep), formData)
    {
      if CanProceed(currentStep, formData) {
        NextStep();
      }
    }

    /** Typing in the location field. */
    method SetLocalisation(v: string)
      requires Valid()
      modifies this`formData
      ensures Valid()
      ensures formData == WithLocalisation(old(formData), v)
    {
      formData := WithLocalisation(formData, v);
    }

    /** A click on a service of the second step. */
    method ChooseService(s: string)
      requires Valid()
      modifies this`formData
      ensures Valid()
      ensures formData == WithService(old(formData), s)
    {
      formData := formData.(service := Some(s));
      if s == "Garde d'enfants" || s == "Baby-sitting" {
        formData := formData.(service := Some(s), typeAide := Some("Garde d'enfants"));
      } else if s == "Ménage" {
        formData := formData.(service := Some(s), typeAide := Some("Ménage et entretien"));
      } else {
        formData := formData.(service := Some(s));
      }
    }

    /** A click on a kind of help. */
    method ChooseTypeAide(t: string)
      requires Valid()
      modifies this`formData
      ensures Valid()
      ensures formData == WithTypeAide(old(formData), t)
      ensures formData.sousTypeAide.None?
    {
      formData := WithTypeAide(formData, t);
    }

    /** A click on a sub-kind of help. */
    method ChooseSousType(s: string)
      requires Valid()
      modifies this`formData
      ensures Valid()
      ensures formData == WithSousType(old(formData), s)
    {
      formData := WithSousType(formData, s);
    }

    /** A click on a need: `toggleBesoin`. Every other answer stays. */
    method ToggleBesoin(b: string)
      requires Valid()
      modifies this`formData
      ensures Valid()
      ensures formData == WithToggled(old(formData), b)
      ensures b in formData.besoins <==> b !in old(formData.besoins)
    {
      ToggleNoDup(formData.besoins, b);
      formData := WithToggled(formData, b);
    }

    /** A click on a recipient. */
    method ChooseDestinataire(d: string)
      requires Valid()
      modifies this`formData
      ensures Valid()
      ensures formData == WithDestinataire(old(formData), d)
    {
      formData := WithDestinataire(formData, d);
    }

    /** After the server accepted the request: back to step 1 with no answer. */
    method SubmitSucceeded()
      requires Valid()
      modifies this
      ensures Valid()
      ensures currentStep == 1 && formData == EmptyForm
    {
      formData := EmptyForm;
      currentStep := 1;
    }
  }
}
