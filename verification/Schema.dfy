/** The shared record shapes (services, agencies, quote requests) and the
    rules a submitted quote request must meet before it is stored. */
module Schema {
  import opened Wrappers

  /** A home-service category of the catalogue. */
  datatype Service = Service(id: int, nom: string, description: string, icone: string)

  /** A partner agency; opening hours, phone and e-mail may be absent. */
  datatype Agency = Agency(
    id: int,
    nom: string,
    ville: string,
    services: seq<string>,
    description: string,
    image: string,
    horaires: Option<string>,
    telephone: Option<string>,
    email: Option<string>)

  /** What a client submits: a quote request without id and timestamp. */
  datatype InsertQuoteRequest = InsertQuoteRequest(nom: string, email: string, service: string, message: string)

  /** A stored quote request. */
  datatype QuoteRequest = QuoteRequest(id: string, nom: string, email: string, service: string, message: string, createdAt: string) {
    /** The submitted part of the record. */
    function Submitted(): InsertQuoteRequest {
      InsertQuoteRequest(nom, email, service, message)
    }
  }

  /** The stored form of a submission: its fields plus the generated id and
      creation time. */
  function Stamp(input: InsertQuoteRequest, id: string, createdAt: string): (r: QuoteRequest)
    ensures r.Submitted() == input
    ensures r.id == id && r.createdAt == createdAt
  {
    QuoteRequest(id, input.nom, input.email, input.service, input.message, createdAt)
  }

  // ---------------------------------------------------------------------
  // Validation of a submitted body

  /** One member of the JSON body: missing, a string, or a value of another
      JSON type (named by `received`, as in "number" or "null"). */
  datatype BodyValue = Missing | Str(s: string) | NotString(received: string)

  /** The four members of the JSON body the insert schema reads; any other
      member is dropped. */
  datatype RequestBody = RequestBody(nom: BodyValue, email: BodyValue, service: BodyValue, message: BodyValue)

  /** The member an issue is about. */
  datatype Field = NomField | EmailField | ServiceField | MessageField

  datatype IssueCode = Required | InvalidType | TooSmall(minimum: nat) | InvalidEmail

  /** One validation failure, as listed in the 400 answer's details. */
  datatype Issue = Issue(path: Field, code: IssueCode, message: string)

  const NomMin: nat := 2
  const ServiceMin: nat := 1
  const MessageMin: nat := 10

  const NomTooShort := "Le nom doit contenir au moins 2 caractères"
  const EmailInvalid := "Email invalide"
  const ServiceMissing := "Veuillez sélectionner un service"
  const MessageTooShort := "Le message doit contenir au moins 10 caractères"

  predicate NomOk(s: string) { |s| >= NomMin }
  predicate ServiceOk(s: string) { |s| >= ServiceMin }
  predicate MessageOk(s: string) { |s| >= MessageMin }

  predicate IsAsciiLetter(c: char) { 'a' <= c <= 'z' || 'A' <= c <= 'Z' }
  predicate IsAsciiAlnum(c: char) { IsAsciiLetter(c) || '0' <= c <= '9' }

  /** The position of the first `c` in `s`. */
  function IndexOf(s: string, c: char): (k: nat)
    requires c in s
    ensures k < |s| && s[k] == c && c !in s[..k]
  {
    if s[0] == c then 0 else 1 + IndexOf(s[1..], c)
  }

  /** A character allowed in the part before the "@". */
  predicate IsLocalChar(c: char) {
    IsAsciiAlnum(c) || c == '_' || c == '\'' || c == '+' || c == '-' || c == '.'
  }

  /** Local part: letters, digits and _ ' + - . only, not starting with a
      dot, and ending with a letter, a digit, _, + or -. */
  predicate LocalPartOk(l: string) {
    && |l| >= 1
    && l[0] != '.'
    && (forall i :: 0 <= i < |l| ==> IsLocalChar(l[i]))
    && l[|l| - 1] != '.' && l[|l| - 1] != '\''
  }

  /** A domain label: a letter or digit followed by letters, digits and hyphens. */
  predicate LabelOk(l: string) {
    |l| >= 1 && IsAsciiAlnum(l[0]) && forall i :: 0 <= i < |l| ==> IsAsciiAlnum(l[i]) || l[i] == '-'
  }

  /** The top-level domain: at least two letters. */
  predicate TldOk(t: string) {
    |t| >= 2 && forall i :: 0 <= i < |t| ==> IsAsciiLetter(t[i])
  }

  /** One or more labels, each followed by a dot, then the top-level domain. */
  predicate DomainOk(d: string)
    decreases |d|
  {
    '.' in d &&
    var k := IndexOf(d, '.');
    LabelOk(d[..k]) && (TldOk(d[k + 1..]) || DomainOk(d[k + 1..]))
  }

  predicate HasDoubleDot(s: string) {
    exists i :: 0 <= i < |s| - 1 && s[i] == '.' && s[i + 1] == '.'
  }

  /** The e-mail syntax check of zod's `string().email()`:
      local part "@" domain, case-insensitive, ASCII only, no ".." anywhere. */
  predicate IsEmail(s: string) {
    && '@' in s
    && LocalPartOk(s[..IndexOf(s, '@')])
    && DomainOk(s[IndexOf(s, '@') + 1..])
    && !HasDoubleDot(s)
  }

  /** The member is a string that satisfies `ok`. */
  predicate Accepts(v: BodyValue, ok: string -> bool) {
    v.Str? && ok(v.s)
  }

  /** The issues of one member: a missing member is "Required", a non-string
      has the wrong type, and a string that fails its rule gets the rule's
      own code and message. */
  function CheckMember(path: Field, v: BodyValue, ok: string -> bool, code: IssueCode, message: string): (r: seq<Issue>)
    ensures r == [] <==> Accepts(v, ok)
    ensures |r| <= 1 && forall k :: 0 <= k < |r| ==> r[k].path == path
    ensures v.Missing? ==> r == [Issue(path, Required, "Required")]
    ensures v.NotString? ==> r == [Issue(path, InvalidType, "Expected string, received " + v.received)]
    ensures v.Str? && !ok(v.s) ==> r == [Issue(path, code, message)]
  {
    match v
    case Missing => [Issue(path, Required, "Required")]
    case NotString(t) => [Issue(path, InvalidType, "Expected string, received " + t)]
    case Str(s) => if ok(s) then [] else [Issue(path, code, message)]
  }

  /** Whether the body's member for `f` satisfies that member's rule. */
  predicate FieldAccepted(body: RequestBody, f: Field) {
    match f
    case NomField => Accepts(body.nom, NomOk)
    case EmailField => Accepts(body.email, IsEmail)
    case ServiceField => Accepts(body.service, ServiceOk)
    case MessageField => Accepts(body.message, MessageOk)
  }

  /** Some issue in the list is about `f`. */
  predicate Reported(issues: seq<Issue>, f: Field) {
    exists k :: 0 <= k < |issues| && issues[k].path == f
  }

  /** An issue about `f` occurs in two lists joined iff it occurs in one of them. */
  lemma ReportedConcat(xs: seq<Issue>, ys: seq<Issue>, f: Field)
    ensures Reported(xs + ys, f) <==> Reported(xs, f) || Reported(ys, f)
  {
    if Reported(xs + ys, f) {
      var k :| 0 <= k < |xs + ys| && (xs + ys)[k].path == f;
      if k < |xs| {
        assert xs[k] == (xs + ys)[k];
      } else {
        assert ys[k - |xs|] == (xs + ys)[k];
      }
    }
    if Reported(xs, f) {
      var k :| 0 <= k < |xs| && xs[k].path == f;
      assert (xs + ys)[k] == xs[k];
    }
    if Reported(ys, f) {
      var k :| 0 <= k < |ys| && ys[k].path == f;
      assert (xs + ys)[|xs| + k] == ys[k];
    }
  }

  /** The issues of one member are about that member, and only when it fails. */
  lemma CheckMemberReports(path: Field, v: BodyValue, ok: string -> bool, code: IssueCode, message: string, f: Field)
    ensures Reported(CheckMember(path, v, ok, code, message), f) <==> f == path && !Accepts(v, ok)
  {
    var r := CheckMember(path, v, ok, code, message);
    if !Accepts(v, ok) && f == path {
      assert r[0].path == f;
    }
  }

  /** All issues of a body, in the order nom, email, service, message. */
  function Issues(body: RequestBody): seq<Issue> {
    CheckMember(NomField, body.nom, NomOk, TooSmall(NomMin), NomTooShort)
    + CheckMember(EmailField, body.email, IsEmail, InvalidEmail, EmailInvalid)
    + CheckMember(ServiceField, body.service, ServiceOk, TooSmall(ServiceMin), ServiceMissing)
    + CheckMember(MessageField, body.message, MessageOk, TooSmall(MessageMin), MessageTooShort)
  }

  /** Some issue of the body is about `f` iff the member `f` fails its rule. */
  lemma IssuesReportFailures(body: RequestBody, f: Field)
    ensures Reported(Issues(body), f) <==> !FieldAccepted(body, f)
  {
    var a := CheckMember(NomField, body.nom, NomOk, TooSmall(NomMin), NomTooShort);
    var b := CheckMember(EmailField, body.email, IsEmail, InvalidEmail, EmailInvalid);
    var c := CheckMember(ServiceField, body.service, ServiceOk, TooSmall(ServiceMin), ServiceMissing);
    var d := CheckMember(MessageField, body.message, MessageOk, TooSmall(MessageMin), MessageTooShort);
    ReportedConcat(a + b + c, d, f);
    ReportedConcat(a + b, c, f);
    ReportedConcat(a, b, f);
    CheckMemberReports(NomField, body.nom, NomOk, TooSmall(NomMin), NomTooShort, f);
    CheckMemberReports(EmailField, body.email, IsEmail, InvalidEmail, EmailInvalid, f);
    CheckMemberReports(ServiceField, body.service, ServiceOk, TooSmall(ServiceMin), ServiceMissing, f);
    CheckMemberReports(MessageField, body.message, MessageOk, TooSmall(MessageMin), MessageTooShort, f);
  }

  /** `insertQuoteRequestSchema.parse(body)`: every member is checked and every
      failure is reported, in the order nom, email, service, message. */
  function Validate(body: RequestBody): (r: Result<InsertQuoteRequest, seq<Issue>>)
    ensures r.Success? <==>
      && Accepts(body.nom, NomOk) && Accepts(body.email, IsEmail)
      && Accepts(body.service, ServiceOk) && Accepts(body.message, MessageOk)
    ensures r.Success? ==> r.value == InsertQuoteRequest(body.nom.s, body.email.s, body.service.s, body.message.s)
    ensures r.Failure? ==> r.error != [] && forall f :: Reported(r.error, f) <==> !FieldAccepted(body, f)
  {
    var issues := Issues(body);
    assert forall f :: Reported(issues, f) <==> !FieldAccepted(body, f) by {
      forall f ensures Reported(issues, f) <==> !FieldAccepted(body, f) {
        IssuesReportFailures(body, f);
      }
    }
    if issues == [] then
      assert FieldAccepted(body, NomField) && FieldAccepted(body, EmailField);
      assert FieldAccepted(body, ServiceField) && FieldAccepted(body, MessageField);
      Success(InsertQuoteRequest(body.nom.s, body.email.s, body.service.s, body.message.s))
    else
      assert Reported(issues, issues[0].path);
      Failure(issues)
  }

  /** Each rule on its own decides its member: a too-short name is refused
      with the name's message, whatever the other members hold. */
  lemma ShortNomRefused(body: RequestBody)
    requires body.nom.Str? && |body.nom.s| < NomMin
    ensures Validate(body).Failure?
    ensures Issue(NomField, TooSmall(2), NomTooShort) in Validate(body).error
  {
  }

  /** An e-mail member that is a string but no address is refused with the
      e-mail message, whatever the other members hold. */
  lemma BadEmailRefused(body: RequestBody)
    requires body.email.Str? && !IsEmail(body.email.s)
    ensures Validate(body).Failure?
    ensures Issue(EmailField, InvalidEmail, EmailInvalid) in Validate(body).error
  {
  }

  /** An empty service is refused with the service message. */
  lemma EmptyServiceRefused(body: RequestBody)
    requires body.service == Str("")
    ensures Validate(body).Failure?
    ensures Issue(ServiceField, TooSmall(1), ServiceMissing) in Validate(body).error
  {
  }

  /** A message shorter than 10 characters is refused with the message's own text. */
  lemma ShortMessageRefused(body: RequestBody)
    requires body.message.Str? && |body.message.s| < MessageMin
    ensures Validate(body).Failure?
    ensures Issue(MessageField, TooSmall(10), MessageTooShort) in Validate(body).error
  {
  }

  /** A member that is absent is refused as "Required". */
  lemma MissingMemberRefused(body: RequestBody)
    requires body.nom.Missing? || body.email.Missing? || body.service.Missing? || body.message.Missing?
    ensures Validate(body).Failure?
    ensures exists k :: 0 <= k < |Validate(body).error| && Validate(body).error[k].code == Required
  {
    var a := CheckMember(NomField, body.nom, NomOk, TooSmall(NomMin), NomTooShort);
    var b := CheckMember(EmailField, body.email, IsEmail, InvalidEmail, EmailInvalid);
    var c := CheckMember(ServiceField, body.service, ServiceOk, TooSmall(ServiceMin), ServiceMissing);
    var e := Validate(body).error;
    assert e == Issues(body);
    var k := if body.nom.Missing? then 0
             else if body.email.Missing? then |a|
             else if body.service.Missing? then |a| + |b|
             else |a| + |b| + |c|;
    assert e[k].code == Required;
  }

  /** A string without "@" is no e-mail address. */
  lemma NoAtNoEmail(s: string)
    requires '@' !in s
    ensures !IsEmail(s)
  {
  }
}
