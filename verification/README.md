# servicemenager — a verified model of its logical core

servicemenager is a home-services marketing site. Visitors browse a service
catalogue and a directory of partner agencies, and they send quote
requests. Most of the code is presentation. This project models the parts
that decide something, and proves what they promise:

- **the in-memory data service** (`MemStorage`). It holds three built-in
  services and six built-in agencies, looks up an agency by id, and keeps
  the submitted quote requests in a JavaScript `Map`. The model is the
  class `Storage.MemStorage`. The map is a pair of fields: the key order
  (`quoteKeys`) and the entries (`quoteRequests`).
- **the insert schema** for quote requests: name of at least 2 characters,
  an e-mail address, a non-empty service and a message of at least 10
  characters. Every failing member is reported (`Schema.Validate`).
- **the HTTP API**: the status and JSON body of the five handlers, as a pure
  decision over the store, plus a method for the one handler that stores
  something (`Routes`).
- **the two agency directory pages**. The API-backed page (`ClientAgencies`)
  searches name and description. The stand-alone page (`FrontendAgencies`)
  also searches service names and computes integer totals. Both have an
  order-keeping three-clause filter, and sorted, de-duplicated lists of
  cities and services for the selectors.
- **the service catalogue page** (`ServicesPage`): a text search over name,
  description and advantages, then a minimum-rating threshold.
- **the seven-step quote wizard** (`QuoteWizard`). The class
  `QuoteWizard.Wizard` holds the step counter and the collected answers. The
  file also covers the region-to-services lookup, the per-step "next" gate,
  the multi-select of needs and the click updates.

The JavaScript built-ins these pages rely on are modelled in `JsText`:
`trim`, `toLowerCase`, `includes` and `parseInt` (with its `0x` prefix and
trailing-text rules). `Seqs` and `Collation` cover `filter`, `map`, `Set`
de-duplication and the default `sort` order (code-unit order). Generated ids
and clock readings are parameters. Ratings are integer tenths of a star
(4.8 is 48), so the page's values and thresholds are exact.

## Model

Functions that define an operation without a contract of their own are
listed through the lemmas that state their meaning: `JsText.ParseInt`
through `ParseIntLeadingInteger`, `ParseIntRejects` and `Routes.GetAgency`;
`JsText.Contains` through `ContainsSpec`; `JsText.Trim` through `TrimSpec`;
`Schema.IsEmail` through `NoAtNoEmail` and `BadEmailRefused`;
`QuoteWizard.CanProceed` through `Gates`; `Collation.Sort` through
`SortSpec`; `FrontendAgencies.Total` through `TotalAppend`, `TotalSnoc`
and `MockStats`.

| member | source | states |
|---|---|---|
| Schema.Stamp | server/storage.ts:131-135 | the stored record carries exactly the submitted name, e-mail, service and message, plus the generated id and creation time |
| Schema.CheckMember | shared/schema.ts:38-41 | one member yields no issue iff it is a string meeting its rule; otherwise exactly one issue about that member: "Required" when it is absent, a wrong-type issue naming the received type when it is no string, and the rule's own code and message when the string fails the rule |
| Schema.IssuesReportFailures | shared/schema.ts:38-41 | the collected issues mention a member iff that member fails its rule |
| Schema.Validate | shared/schema.ts:34-42 | a body is accepted iff all four rules hold (name ≥ 2, valid e-mail, service ≥ 1, message ≥ 10), and the accepted insert holds the four strings; a refused body lists a non-empty set of issues naming exactly the members that fail |
| Schema.ShortNomRefused | shared/schema.ts:38 | a name shorter than 2 characters is refused with the name's own message, whatever the other members hold |
| Schema.BadEmailRefused | shared/schema.ts:39 | a string that is no e-mail address is refused with "Email invalide", whatever the other members hold |
| Schema.EmptyServiceRefused | shared/schema.ts:40 | an empty service is refused with "Veuillez sélectionner un service" |
| Schema.ShortMessageRefused | shared/schema.ts:41 | a message under 10 characters is refused with the message's own text |
| Schema.MissingMemberRefused | shared/schema.ts:34-42 | a body missing any of the four members is refused with a "Required" issue |
| Schema.NoAtNoEmail | shared/schema.ts:39 | a string without "@" is never accepted as an e-mail address |
| Storage.BuiltInServiceIds | server/storage.ts:24-43 | the catalogue has three services with ids 1, 2, 3 in constructor order |
| Storage.BuiltInAgencyIds | server/storage.ts:45-112 | the directory has six agencies with ids 1 to 6 in order, pairwise distinct |
| Storage.FindAgency | server/storage.ts:125-127 | `find` answers nothing iff no agency has the id, and otherwise the first agency carrying it |
| Storage.FindUnique | server/storage.ts:125-127 | with distinct ids, the lookup of an agency's id yields that agency |
| Storage.ValuesInOrder | server/storage.ts:140-142 | the listing has one entry per key, the entry stored under the key at the same position |
| Storage.ValuesAppend | server/storage.ts:136-141 | storing under a new key at the end of the key order adds that value at the end of the listing and changes nothing before it |
| Storage.MemStorage.constructor | server/storage.ts:114 | a fresh store holds the built-in catalogues and no quote request |
| Storage.MemStorage.GetServices | server/storage.ts:117-119 | the three built-in services, ids 1 to 3, in constructor order |
| Storage.MemStorage.GetAgencies | server/storage.ts:121-123 | the six built-in agencies, ids 1 to 6, in constructor order |
| Storage.MemStorage.GetAgencyById | server/storage.ts:125-127 | for ids 1 to 6 the one agency with that id; for every other id nothing |
| Storage.MemStorage.GetQuoteRequests | server/storage.ts:140-142 | one record per stored key, in insertion order, each record under its own id |
| Storage.MemStorage.CreateQuoteRequest | server/storage.ts:129-138 | the returned record is the input stamped with the given id and time and is stored under that id; other entries and both catalogues stay as they were; with a fresh id the store grows by one and the listing gains the record at its end |
| Storage.NoDupCard | server/storage.ts:140-142 | a key order without repeats has as many keys as the map, so the listing has one entry per stored request |
| Routes.GetServices | server/routes.ts:8-15 | 200 with the store's three services unchanged |
| Routes.GetAgencies | server/routes.ts:17-24 | 200 with the store's six agencies unchanged |
| Routes.GetAgency | server/routes.ts:26-42 | 400 "Invalid agency ID" iff `parseInt` gives NaN (the store is not consulted); 404 "Agency not found" iff the number is not an agency id; otherwise 200 with the agency whose id is the number |
| Routes.GetQuoteRequests | server/routes.ts:57-64 | 200 with the stored requests in insertion order |
| Routes.PostQuoteRequest | server/routes.ts:44-55 | a body the schema refuses gives 400 "Invalid request data" with the issues and leaves the store unchanged; an accepted one is stored and answered with 201 and the stored record; with a fresh id the listing grows by exactly that record |
| Routes.TrailingTextIgnored | server/routes.ts:28 | the segment "3abc" is read as 3 and answers 200 with agency 3 |
| Routes.IdPrefixSelects | server/routes.ts:28-38 | an id written in decimal and followed by any text that does not continue the number selects that id: 200 for 1 to 6, 404 otherwise |
| Routes.HexSegmentSelects | server/routes.ts:28 | the segment "0x2" is read as hexadecimal 2 and answers 200 with agency 2 |
| Routes.WordSegmentRefused | server/routes.ts:28-31 | a segment starting with a letter answers 400, whatever the store holds |
| JsText.TrimSpec | frontend/src/pages/QuoteRequest.tsx:211 | `trim` is empty iff the text is all whitespace; a non-empty trim starts and ends with non-whitespace and occurs inside the text |
| JsText.ToLower | frontend/src/pages/Services.tsx:168 | lower-casing keeps the length and maps each character on its own |
| JsText.ContainsSpec | client/src/pages/Agencies.tsx:38-39 | `includes` holds iff the needle occurs at some position of the text |
| JsText.ContainsNeedsChar | frontend/src/pages/QuoteRequest.tsx:157-171 | a needle with a character absent from the text is not included |
| JsText.ContainsPrefixOf | client/src/pages/Agencies.tsx:38-39 | a text that includes a needle includes every prefix of it |
| JsText.ParseIntLeadingInteger | server/routes.ts:28 | `parseInt` of a decimal number followed by text that does not continue it is that number |
| JsText.ParseIntRejects | server/routes.ts:28-29 | `parseInt` of a text starting with a character that is no digit, sign or whitespace is NaN |
| JsText.DecimalStringValue | server/routes.ts:28 | the decimal notation of a number reads back as that number |
| Seqs.Filter | client/src/pages/Agencies.tsx:35 | `filter` keeps only elements passing the test, and keeps every one that passes |
| Seqs.FilterCounts | client/src/pages/Agencies.tsx:35 | `filter` keeps each passing element exactly as often as it occurs in the input, and no failing element |
| Seqs.FilterIsSubseq | client/src/pages/Agencies.tsx:35-47 | a filtered list is a subsequence of its input: original order is kept |
| Seqs.FilterIdempotent | client/src/pages/Agencies.tsx:35-47 | filtering a filtered list again with the same test changes nothing |
| Seqs.FilterWeaker | frontend/src/pages/Services.tsx:178-180 | a test that passes fewer elements keeps a subsequence of what a more lenient test keeps |
| Seqs.FilterFilter | frontend/src/pages/Services.tsx:169-180 | two filter stages in a row keep exactly what one filter by both tests keeps |
| Seqs.FilterNoDup | frontend/src/pages/QuoteRequest.tsx:197 | filtering a list without repeats leaves it without repeats |
| Seqs.FilterAppend | frontend/src/pages/QuoteRequest.tsx:197-202 | filtering a joined list is joining the filtered parts |
| Seqs.FilterMap | frontend/src/pages/Agencies.tsx:124-133 | filtering projected records is projecting the records that pass the test read through the projection |
| Seqs.DistinctSpec | client/src/pages/Agencies.tsx:20 | building a `Set` from a list keeps each element once, in first-seen order, and loses none |
| Seqs.FlattenMembers | client/src/pages/Agencies.tsx:26-28 | a name is among all agencies' services iff some agency lists it |
| Seqs.CollectDistinct | client/src/pages/Agencies.tsx:25-28 | the nested loops adding every service to a `Set` yield exactly the de-duplicated concatenation of the service lists |
| Collation.BelowTransitive | client/src/pages/Agencies.tsx:20 | the default `sort` order (code-unit order) is transitive |
| Collation.BelowTotal | client/src/pages/Agencies.tsx:20 | any two distinct strings are ordered one way or the other |
| Collation.SortSpec | client/src/pages/Agencies.tsx:29 | sorting a list without repeats gives a sorted list of the same length and the same elements |
| Collation.SortedUnique | client/src/pages/Agencies.tsx:29 | two sorted lists with the same elements are equal, so the sort result does not depend on the input order |
| Collation.SortedSet | client/src/pages/Agencies.tsx:20 | `Array.from(new Set(xs)).sort()` is sorted and has exactly the elements of `xs` |
| ClientAgencies.FilteredAgencies | client/src/pages/Agencies.tsx:32-48 | nothing while the list is undefined; otherwise an order-keeping subsequence that holds an agency iff the search term is empty or found in name or description ignoring case, the city is "all" or equal, and the service is "all" or listed |
| ClientAgencies.Cities | client/src/pages/Agencies.tsx:18-21 | nothing while the list is undefined; otherwise sorted, without repeats, and holding exactly the agencies' cities |
| ClientAgencies.AllServices | client/src/pages/Agencies.tsx:23-30 | nothing while the list is undefined; otherwise sorted, without repeats, and holding exactly the union of the agencies' services |
| ClientAgencies.InitialShowsAll | client/src/pages/Agencies.tsx:35-47 | an empty search with both selectors on "all" shows the whole list |
| ClientAgencies.FilterTwice | client/src/pages/Agencies.tsx:35-47 | filtering the result again with the same inputs changes nothing |
| ClientAgencies.SelectionNarrows | client/src/pages/Agencies.tsx:41-44 | choosing a city or a service instead of "all" only removes agencies |
| ClientAgencies.LongerSearchNarrows | client/src/pages/Agencies.tsx:36-39 | typing more characters after the search term only removes agencies |
| ClientAgencies.OfferedCityShowsSome | client/src/pages/Agencies.tsx:18-21 | every city the selector offers shows at least one agency |
| ClientAgencies.OfferedServiceShowsSome | client/src/pages/Agencies.tsx:23-30 | every service the selector offers shows at least one agency |
| FrontendAgencies.MockIds | frontend/src/pages/Agencies.tsx:28-104 | the built-in list has five agencies with ids 1 to 5 |
| FrontendAgencies.AgencyList | frontend/src/pages/Agencies.tsx:111-114 | the page works on the query's data, or on the built-in list when there is none |
| FrontendAgencies.FilteredAgencies | frontend/src/pages/Agencies.tsx:123-134 | an order-keeping subsequence of the list holding an agency iff the term is empty or found ignoring case in name, description or a service name, and the city and service clauses hold |
| FrontendAgencies.Cities | frontend/src/pages/Agencies.tsx:116 | sorted, without repeats, exactly the list's cities |
| FrontendAgencies.AllServices | frontend/src/pages/Agencies.tsx:117-121 | sorted, without repeats, exactly the union of the list's services |
| FrontendAgencies.WiderSearch | frontend/src/pages/Agencies.tsx:125-129 | whatever the API page's clauses accept, this page's clauses accept too |
| FrontendAgencies.ShowsAllClientShows | frontend/src/pages/Agencies.tsx:124-133 | for the same list and inputs, the API page's result is a subsequence of this page's result |
| FrontendAgencies.ServiceNameOnlyMatch | frontend/src/pages/Agencies.tsx:129 | the widening is strict: "bla" finds an agency offering "Blanchisserie" that the API page would hide |
| FrontendAgencies.ComputeStats | frontend/src/pages/Agencies.tsx:137-144 | the agency count is the length of the list |
| FrontendAgencies.TotalAppend | frontend/src/pages/Agencies.tsx:140-142 | a total over two lists joined is the sum of their totals |
| FrontendAgencies.MissingCountsZero | frontend/src/pages/Agencies.tsx:140-142 | an agency without the value leaves the total unchanged |
| FrontendAgencies.TotalSnoc | frontend/src/pages/Agencies.tsx:140-142 | one more agency adds its value, or 0 when it has none |
| FrontendAgencies.MockStats | frontend/src/pages/Agencies.tsx:137-144 | the built-in list gives 5 agencies, 3805 reviews, 11100 clients and 51 years of experience |
| FrontendAgencies.Reset | frontend/src/pages/Agencies.tsx:342-346 | the reset button sets an empty search and both selectors to "all" |
| FrontendAgencies.ResetShowsAll | frontend/src/pages/Agencies.tsx:342-346 | after a reset the whole list is shown |
| ServicesPage.Filtered | frontend/src/pages/Services.tsx:163-183 | the two stages keep, in catalogue order, exactly the offers matching the untrimmed lower-cased query in name, description or an advantage (when the trimmed query is not blank) and meeting the threshold (when one is set) |
| ServicesPage.TwoStages | frontend/src/pages/Services.tsx:164-182 | the search stage followed by the rating stage keeps exactly what the combined test keeps, in each of the four on/off combinations |
| ServicesPage.FilteredServices | frontend/src/pages/Services.tsx:163-183 | the page's list is a subsequence of the six services holding each one iff it is shown |
| ServicesPage.RatingMonotone | frontend/src/pages/Services.tsx:178-180 | raising the threshold never adds a service |
| ServicesPage.ThresholdOnlyRemoves | frontend/src/pages/Services.tsx:178-180 | setting a threshold never shows more than setting none |
| ServicesPage.BlankQueryShowsAll | frontend/src/pages/Services.tsx:379-386 | a blank query with no threshold shows all six services |
| ServicesPage.RatingButtonsNested | frontend/src/pages/Services.tsx:362-367 | each rating button (4.5, 4.0, 3.5 stars) shows a subsequence of what the next lower button shows |
| ServicesPage.FilterTwice | frontend/src/pages/Services.tsx:163-183 | filtering the result again with the same inputs changes nothing |
| ServicesPage.UntrimmedQueryMatched | frontend/src/pages/Services.tsx:167-168 | the trim only decides whether to search: "jardin " searches with its trailing space and misses a service named "Jardin" |
| ServicesPage.CatalogueStats | frontend/src/pages/Services.tsx:186-192 | the catalogue has 6 services and 4117 reviews in total |
| QuoteWizard.RegionKey | frontend/src/pages/QuoteRequest.tsx:153-176 | the key is always a region of the table; "abidjan" wins over everything, then Bouaké (either spelling), then Yamoussoukro, then San Pedro (space or hyphen), each only when no earlier city is named; France is chosen iff no Ivorian city is named and a French keyword is; Côte d'Ivoire iff neither is and an Ivorian keyword is; the default iff none is |
| QuoteWizard.GetServicesForRegion | frontend/src/pages/QuoteRequest.tsx:153-176 | for the lower-cased and trimmed location: the Côte d'Ivoire list for Abidjan, the Bouaké list for Bouaké, the small-city list for Yamoussoukro or San Pedro (each tier only when no earlier city is named); failing all cities, the French list for a French keyword, else the Côte d'Ivoire list for an Ivorian keyword, else the default list |
| QuoteWizard.MenageEverywhere | frontend/src/pages/QuoteRequest.tsx:40-49 | every region's list offers "Ménage" |
| QuoteWizard.CiAnywhere | frontend/src/pages/QuoteRequest.tsx:168-171 | a location naming no Ivorian city and nothing French but containing "ci" anywhere gets the Côte d'Ivoire list |
| QuoteWizard.SicilyIsIvorian | frontend/src/pages/QuoteRequest.tsx:170-171 | so "Sicile" is served the Côte d'Ivoire list |
| QuoteWizard.CityBeforeCountry | frontend/src/pages/QuoteRequest.tsx:157-169 | a location naming Abidjan gets the Abidjan list even when it also names France |
| QuoteWizard.ServiceOptions | frontend/src/pages/QuoteRequest.tsx:233 | no service is offered until a location is typed; then exactly the list for the typed location |
| QuoteWizard.Gates | frontend/src/pages/QuoteRequest.tsx:208-231 | "next" is enabled on step 1 iff the location has a non-whitespace character, on 2, 3 and 6 iff service, kind of help and recipient are set, on 4 iff a sub-kind is set whenever the kind has sub-kinds, on 5 iff some need is selected, always on 7, and never on any other step |
| QuoteWizard.OtherNeedsNoSousType | frontend/src/pages/QuoteRequest.tsx:70-71 | with the kind "Autre" the fourth step is always open |
| QuoteWizard.WithService | frontend/src/pages/QuoteRequest.tsx:363-372 | a service click sets the service; "Garde d'enfants" and "Baby-sitting" preset the childcare kind, "Ménage" presets the cleaning kind, any other keeps the kind; every other answer stays |
| QuoteWizard.Toggle | frontend/src/pages/QuoteRequest.tsx:192-205 | a present need is removed (every copy) and the rest keep their order; an absent need is appended; no other need changes membership |
| QuoteWizard.ToggleNoDup | frontend/src/pages/QuoteRequest.tsx:192-205 | toggling keeps the needs free of repeats |
| QuoteWizard.ToggleTwice | frontend/src/pages/QuoteRequest.tsx:192-205 | toggling an unselected need twice gives back the list |
| QuoteWizard.ToggleSelectedTwice | frontend/src/pages/QuoteRequest.tsx:192-205 | toggling a selected need twice moves it to the end of the list |
| QuoteWizard.PresetOpensStepThree | frontend/src/pages/QuoteRequest.tsx:363-372 | a childcare or cleaning service click opens the third step with a kind that has sub-kinds |
| QuoteWizard.NewTypeAideBlocksStepFour | frontend/src/pages/QuoteRequest.tsx:405 | after choosing a kind of help, the fourth step is open iff that kind has no sub-kinds |
| QuoteWizard.PresetKeepsSousType | frontend/src/pages/QuoteRequest.tsx:363-372 | a preset does not clear an earlier sub-kind, which then still opens the fourth step |
| QuoteWizard.Wizard.constructor | frontend/src/pages/QuoteRequest.tsx:96-99 | the wizard opens on step 1 with no answer and no need |
| QuoteWizard.Wizard.NextStep | frontend/src/pages/QuoteRequest.tsx:179-183 | one step forward below step 7, none on step 7; the step stays in 1..7 |
| QuoteWizard.Wizard.PrevStep | frontend/src/pages/QuoteRequest.tsx:185-189 | one step back above step 1, none on step 1; the step stays in 1..7 |
| QuoteWizard.Wizard.PressNext | frontend/src/pages/QuoteRequest.tsx:629-632 | the step moves forward only when the current step's gate is open, and otherwise stays |
| QuoteWizard.Wizard.SetLocalisation | frontend/src/pages/QuoteRequest.tsx:325 | only the location changes |
| QuoteWizard.Wizard.ChooseService | frontend/src/pages/QuoteRequest.tsx:363-372 | the two successive updates of the click leave the answers as the service click prescribes |
| QuoteWizard.Wizard.ChooseTypeAide | frontend/src/pages/QuoteRequest.tsx:405 | the kind of help is set and the sub-kind cleared |
| QuoteWizard.Wizard.ChooseSousType | frontend/src/pages/QuoteRequest.tsx:434 | only the sub-kind changes |
| QuoteWizard.Wizard.ToggleBesoin | frontend/src/pages/QuoteRequest.tsx:192-205 | the need flips between selected and unselected, the needs stay free of repeats and every other answer stays |
| QuoteWizard.Wizard.ChooseDestinataire | frontend/src/pages/QuoteRequest.tsx:495 | only the recipient changes |
| QuoteWizard.Wizard.SubmitSucceeded | frontend/src/pages/QuoteRequest.tsx:127-134 | after a successful submission the wizard is back on step 1 with no answer and no need |

## Left out

- Express, `createServer`, react-query (`useQuery`, `useMutation`), toasts, navigation timers and the `async`/`Promise` wrappers are not modelled. Each handler and storage call is one synchronous step.
- The 500 answers are not modelled: the in-memory store never throws.
- `randomUUID()` and `new Date().toISOString()` are parameters (`id`, `createdAt`). Nothing in the model ensures that an id is fresh. The fresh-id facts are stated under that hypothesis, and reusing an id overwrites the entry in place, as `Map.set` does.
- Floating point: the average ratings and `toFixed` on both pages are not modelled. Ratings and thresholds are integer tenths.
- Routes.GetAgency: `parseInt` is modelled on unbounded integers. Digit strings beyond the precision of a JavaScript number are not rounded.
- JsText.ToLower: lower-cases ASCII and the Latin-1 capitals only. Other scripts and the multi-character mappings of `toLowerCase` are left as they are.
- Strings are sequences of characters. UTF-16 surrogate pairs and their effect on `sort` order and `length` are not modelled.
- Schema.Validate: the request body is a record of four members. A body that is not a JSON object, zod's messages for it, and unknown members (which are dropped) are not modelled. The e-mail rule follows the shape of zod's e-mail pattern (local part, "@", dot-separated labels, a top-level domain of at least two letters, no ".."). Its exact character classes depend on a zod version that the sources do not pin.
- QuoteWizard.HasSousTypes: the lookup `typesAide[t]?.sousTypes` is modelled over the five listed kinds. Keys inherited from the JavaScript object prototype are not modelled.
- The contact form of the seventh step (react-hook-form and its own validation) is not modelled. Only the reset after a successful submission is.
- FrontendAgencies.ComputeStats: states the agency count only. The three sums are proved separately (TotalAppend, MissingCountsZero, MockStats), and the average rating is not modelled.
- The agency detail pages are not modelled; their lookup repeats `getAgencyById`. Home pages, cards, the navigation bar, the contact page and all styling are not modelled either.
- The Django backend (`backend/`) is not part of this model.
