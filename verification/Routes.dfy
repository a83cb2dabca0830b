/** The HTTP API over the data service: which status and which JSON body
    each of the five handlers answers with. The GET handlers only read the
    store; the POST handler validates the body and then stores it. */
module Routes {
  import opened Wrappers
  import opened JsText
  import opened Schema
  import opened Storage

  /** The JSON payloads the handlers send. */
  datatype Json =
    | ServiceList(services: seq<Service>)
    | AgencyList(agencies: seq<Agency>)
    | AgencyRecord(agency: Agency)
    | QuoteRecord(quote: QuoteRequest)
    | QuoteList(quotes: seq<QuoteRequest>)
    | ErrorBody(error: string)
    | ValidationErrorBody(error: string, details: seq<Issue>)

  datatype Response = Response(status: nat, body: Json)

  const Ok: nat := 200
  const Created: nat := 201
  const BadRequest: nat := 400
  const NotFound: nat := 404

  const InvalidAgencyId := "Invalid agency ID"
  const AgencyNotFound := "Agency not found"
  const InvalidRequestData := "Invalid request data"

  /** GET /api/services: 200 with the catalogue exactly as the store lists it. */
  function GetServices(s: MemStorage): (r: Response)
    reads s
    requires s.Valid()
    ensures r.status == Ok && r.body.ServiceList?
    ensures r.body.services == BuiltInServices() && |r.body.services| == 3
  {
    Response(Ok, ServiceList(s.GetServices()))
  }

  /** GET /api/agencies: 200 with the six agencies exactly as the store lists them. */
  function GetAgencies(s: MemStorage): (r: Response)
    reads s
    requires s.Valid()
    ensures r.status == Ok && r.body.AgencyList?
    ensures r.body.agencies == BuiltInAgencies() && |r.body.agencies| == 6
  {
    Response(Ok, AgencyList(s.GetAgencies()))
  }

  /** GET /api/agencies/:id. A segment `parseInt` cannot read answers 400
      whatever the store holds; a number no agency carries answers 404; the
      ids 1 to 6 answer 200 with that agency's record. */
  function GetAgency(s: MemStorage, segment: string): (r: Response)
    reads s
    requires s.Valid()
    ensures r.status in {Ok, BadRequest, NotFound}
    ensures r.status == BadRequest <==> ParseInt(segment).None?
    ensures r.status == BadRequest ==> r.body == ErrorBody(InvalidAgencyId)
    ensures r.status == NotFound <==> ParseInt(segment).Some? && !(1 <= ParseInt(segment).value <= 6)
    ensures r.status == NotFound ==> r.body == ErrorBody(AgencyNotFound)
    ensures r.status == Ok ==> r.body == AgencyRecord(BuiltInAgencies()[ParseInt(segment).value - 1])
    ensures r.status == Ok ==> r.body.agency.id == ParseInt(segment).value
  {
    BuiltInAgencyIds();
    match ParseInt(segment)
    case None => Response(BadRequest, ErrorBody(InvalidAgencyId))
    case Some(id) =>
      match s.GetAgencyById(id)
      case None => Response(NotFound, ErrorBody(AgencyNotFound))
      case Some(agency) => Response(Ok, AgencyRecord(agency))
  }

  /** GET /api/quote-requests: 200 with the stored requests, oldest first. */
  function GetQuoteRequests(s: MemStorage): (r: Response)
    reads s
    requires s.Valid()
    ensures r.status == Ok && r.body.QuoteList?
    ensures |r.body.quotes| == |s.quoteKeys| == |s.quoteRequests|
    ensures forall i :: 0 <= i < |r.body.quotes| ==> r.body.quotes[i] == s.quoteRequests[s.quoteKeys[i]]
  {
    Response(Ok, QuoteList(s.GetQuoteRequests()))
  }

  /** POST /api/quote-requests with a JSON object body, the generated id and
      the current time. A body the insert schema refuses answers 400 with
      every issue and leaves the store as it was; an accepted one is stored
      and answered with 201 and the stored record. */
  method PostQuoteRequest(s: MemStorage, body: RequestBody, id: string, createdAt: string) returns (r: Response)
    requires s.Valid()
    modifies s`quoteKeys, s`quoteRequests
    ensures s.Valid()
    ensures r.status in {Created, BadRequest}
    ensures r.status == BadRequest <==> Validate(body).Failure?
    ensures Validate(body).Failure? ==>
      && r.body == ValidationErrorBody(InvalidRequestData, Validate(body).error)
      && s.quoteKeys == old(s.quoteKeys) && s.quoteRequests == old(s.quoteRequests)
    ensures Validate(body).Success? ==>
      && r.body == QuoteRecord(Stamp(Validate(body).value, id, createdAt))
      && s.quoteRequests == old(s.quoteRequests)[id := r.body.quote]
    ensures Validate(body).Success? && id !in old(s.quoteRequests) ==>
      s.GetQuoteRequests() == old(s.GetQuoteRequests()) + [r.body.quote]
  {
    match Validate(body)
    case Failure(issues) =>
      r := Response(BadRequest, ValidationErrorBody(InvalidRequestData, issues));
    case Success(request) =>
      var q := s.CreateQuoteRequest(request, id, createdAt);
      r := Response(Created, QuoteRecord(q));
  }

  /** `parseInt` reads only the leading integer: "3abc" is agency 3. */
  lemma TrailingTextIgnored(s: MemStorage)
    requires s.Valid()
    ensures GetAgency(s, "3abc") == Response(Ok, AgencyRecord(Agency3))
  {
    assert DecimalString(3) == "3";
    ParseIntLeadingInteger(3, "abc");
    assert DecimalString(3) + "abc" == "3abc";
  }

  /** More generally, the decimal notation of an id followed by anything
      that does not continue the number selects that id. */
  lemma IdPrefixSelects(s: MemStorage, n: nat, rest: string)
    requires s.Valid()
    requires rest == [] || DigitValue(rest[0]) >= 10
    requires n == 0 && rest != [] ==> rest[0] != 'x' && rest[0] != 'X'
    ensures 1 <= n <= 6 ==> GetAgency(s, DecimalString(n) + rest) == Response(Ok, AgencyRecord(BuiltInAgencies()[n - 1]))
    ensures !(1 <= n <= 6) ==> GetAgency(s, DecimalString(n) + rest) == Response(NotFound, ErrorBody(AgencyNotFound))
  {
    ParseIntLeadingInteger(n, rest);
  }

  /** "0x2" is read as hexadecimal 2, so it selects agency 2. */
  lemma HexSegmentSelects(s: MemStorage)
    requires s.Valid()
    ensures GetAgency(s, "0x2") == Response(Ok, AgencyRecord(Agency2))
  {
    assert LeadingSpaces("0x2") == 0;
    assert DigitPrefix("2", 16) == "2";
    assert ParseInt("0x2") == Some(2);
  }

  /** A segment starting with a letter ("abc", "new") is not a number: 400,
      whatever the store holds. */
  lemma WordSegmentRefused(s: MemStorage, segment: string)
    requires s.Valid()
    requires segment != [] && IsAsciiLetter(segment[0])
    ensures GetAgency(s, segment) == Response(BadRequest, ErrorBody(InvalidAgencyId))
  {
    ParseIntRejects(segment);
  }
}
