/** api/submit-form.js: the serverless form handler. It gates on the HTTP
    method, checks the form type's required fields, builds the lead record,
    hands it to `insertLead` and picks the response from what came back. */
module SubmitForm {
  import opened JsRuntime

  // ---------------------------------------------------------------------------
  // The parsed JSON body

  /** A JSON value of the request body, as far as truthiness and property
      lookup can tell values apart. */
  datatype Val = VStr(s: string) | VNum(n: int) | VBool(b: bool) | VNull | VArray(items: seq<Val>) | VObject

  /** JavaScript truthiness of a JSON value. */
  predicate Truthy(v: Val) {
    match v
    case VStr(s) => s != ""
    case VNum(n) => n != 0
    case VBool(b) => b
    case VNull => false
    case _ => true
  }

  /** The body's own properties. */
  type FormData = map<string, Val>

  /** `!!formData[field]`: the field is there and truthy. */
  predicate Present(data: FormData, field: string) {
    field in data && Truthy(data[field])
  }

  /** `req.method` (here `verb`) and `req.body`; None stands for a `null` body. */
  datatype Request = Request(verb: string, body: Option<FormData>)

  /** `formData.formType || 'contact'` */
  function FormTypeOf(data: FormData): (formType: Val)
    ensures Truthy(formType)
    ensures Present(data, "formType") ==> formType == data["formType"]
    ensures !Present(data, "formType") ==> formType == VStr("contact")
  {
    if Present(data, "formType") then data["formType"] else VStr("contact")
  }

  // ---------------------------------------------------------------------------
  // Required fields

  const SignupFields: seq<string> := ["email", "company", "companySize"]
  const DemoFields: seq<string> := ["firstName", "lastName", "email", "company"]
  const ContactFields: seq<string> := ["firstName", "lastName", "email", "company", "message"]

  /** The list a form type must fill in, looked up among the table's OWN
      properties only; any other form type uses the `contact` list. */
  function RequiredFor(formType: Val): (required: seq<string>)
    ensures formType == VStr("signup") ==> required == SignupFields
    ensures formType == VStr("demo") ==> required == DemoFields
    ensures formType != VStr("signup") && formType != VStr("demo") ==> required == ContactFields
    ensures "email" in required && "company" in required
  {
    if formType == VStr("signup") then SignupFields
    else if formType == VStr("demo") then DemoFields
    else ContactFields
  }

  /** `a` is `b` with some elements dropped, the rest kept in order. */
  ghost predicate SubsequenceOf(a: seq<string>, b: seq<string>)
    decreases |b|
  {
    if a == [] then true
    else if b == [] then false
    else (a[0] == b[0] && SubsequenceOf(a[1..], b[1..])) || SubsequenceOf(a, b[1..])
  }

  /** `required.filter(field => !formData[field])` */
  function MissingFields(required: seq<string>, data: FormData): (missing: seq<string>)
    ensures forall f :: f in missing <==> f in required && !Present(data, f)
    ensures SubsequenceOf(missing, required)
  {
    if required == [] then
      []
    else
      var rest := MissingFields(required[1..], data);
      assert forall f :: f in required <==> f == required[0] || f in required[1..];
      if Present(data, required[0]) then
        assert rest != [] ==> SubsequenceOf(rest, required[1..]);
        rest
      else
        assert ([required[0]] + rest)[1..] == rest;
        [required[0]] + rest
  }

  // ---------------------------------------------------------------------------
  // The lead record

  /** The optional columns of `leadData` and the form field each is copied from. */
  const OptionalColumns: map<string, string> :=
    map["first_name" := "firstName", "last_name" := "lastName", "company_size" := "companySize",
        "job_title" := "jobTitle", "phone" := "phone", "message" := "message",
        "ai_usage" := "aiUsage", "concerns" := "concerns", "timeline" := "timeline",
        "budget" := "budget", "challenges" := "challenges"]

  /** `leadData`: `email` and `company` are copied as they are (None where the
      body has no such property), the optional columns by `|| null`, the whole
      body goes in as `metadata`. `createdAt` is the ISO timestamp of the clock. */
  datatype LeadData = LeadData(
    formType: Val,
    email: Option<Val>,
    company: Option<Val>,
    optional: map<string, Val>,
    metadata: FormData,
    source: string,
    createdAt: string)

  function Property(data: FormData, field: string): (v: Option<Val>)
    ensures v.Some? <==> field in data
    ensures v.Some? ==> v.value == data[field]
  {
    if field in data then Some(data[field]) else None
  }

  function BuildLead(formType: Val, data: FormData, createdAt: string): (lead: LeadData)
    ensures lead.formType == formType && lead.source == "website"
    ensures lead.metadata == data && lead.createdAt == createdAt
    ensures lead.email == Property(data, "email") && lead.company == Property(data, "company")
    ensures lead.optional.Keys == OptionalColumns.Keys
    ensures forall c :: c in OptionalColumns ==>
              if Present(data, OptionalColumns[c]) then lead.optional[c] == data[OptionalColumns[c]]
              else lead.optional[c] == VNull
    ensures forall c :: c in lead.optional ==> lead.optional[c] == VNull || Truthy(lead.optional[c])
  {
    LeadData(
      formType,
      Property(data, "email"),
      Property(data, "company"),
      map c | c in OptionalColumns :: if Present(data, OptionalColumns[c]) then data[OptionalColumns[c]] else VNull,
      data,
      "website",
      createdAt)
  }

  /** A body that passed validation yields a lead whose `email` and `company`
      are both given and truthy. */
  lemma ValidatedLeadHasContact(formType: Val, data: FormData, createdAt: string)
    requires MissingFields(RequiredFor(formType), data) == []
    ensures var lead := BuildLead(formType, data, createdAt);
            lead.email.Some? && Truthy(lead.email.value) && lead.company.Some? && Truthy(lead.company.value)
  {
    var required := RequiredFor(formType);
    assert "email" !in MissingFields(required, data);
    assert "company" !in MissingFields(required, data);
  }

  // ---------------------------------------------------------------------------
  // The database answer and the response

  /** The inserted row, as far as the handler looks at it: its `id`. */
  datatype LeadRow = LeadRow(id: Option<Val>)

  /** What `insertLead` resolves to: `{ data, error, warning }`, each None when
      null or absent. */
  datatype InsertResult = InsertResult(data: Option<LeadRow>, error: Option<string>, warning: Option<string>)

  predicate TruthyText(t: Option<string>) {
    t.Some? && t.value != ""
  }

  const SubmittedMessage := "Form submitted successfully"
  const PendingMessage := "Form submitted successfully (pending database setup)"

  /** The body of the response; a None `warning` or `leadId` is a key the JSON
      object does not have. */
  datatype Body =
    | NoContent
    | MethodNotAllowed
    | MissingRequired(fields: seq<string>)
    | Submitted(message: string, formType: Val, warning: Option<string>, leadId: Option<Val>)

  datatype Response = Response(status: int, body: Body)

  /** The response and the lead id `createAssessment` is called with, if any. */
  datatype Outcome = Outcome(response: Response, assessmentFor: Option<Val>)

  /** The response that `catch` sends, with the form type it recovered. */
  function Recovered(formType: Val): Outcome {
    Outcome(Response(200, Submitted(SubmittedMessage, formType, None, None)), None)
  }

  /** What the handler does with `insertLead`'s answer. */
  function AfterInsert(formType: Val, inserted: InsertResult): (out: Outcome)
    ensures out.response.status == 200 && out.response.body.Submitted?
    ensures out.response.body.formType == formType
    ensures out.response.body.warning == (if TruthyText(inserted.warning) then inserted.warning else None)
    ensures out.response.body.message == (if TruthyText(inserted.warning) then PendingMessage else SubmittedMessage)
    ensures !TruthyText(inserted.warning) && !TruthyText(inserted.error) ==>
              out.response.body.leadId == (if inserted.data.Some? then inserted.data.value.id else None)
    ensures out.response.body.leadId.Some? ==> !TruthyText(inserted.warning) && !TruthyText(inserted.error)
    ensures out.assessmentFor.Some? <==>
              && !TruthyText(inserted.warning) && !TruthyText(inserted.error)
              && formType == VStr("signup")
              && inserted.data.Some? && inserted.data.value.id.Some? && Truthy(inserted.data.value.id.value)
    ensures out.assessmentFor.Some? ==> inserted.data == Some(LeadRow(out.assessmentFor))
  {
    if TruthyText(inserted.warning) then
      Outcome(Response(200, Submitted(PendingMessage, formType, inserted.warning, None)), None)
    else if TruthyText(inserted.error) then
      Recovered(formType)
    else
      var leadId := if inserted.data.Some? then inserted.data.value.id else None;
      var assess := if formType == VStr("signup") && leadId.Some? && Truthy(leadId.value) then leadId else None;
      Outcome(Response(200, Submitted(SubmittedMessage, formType, None, leadId)), assess)
  }

  /** Validation against `required`, then the insert and its answer. */
  function Validated(formType: Val, data: FormData, required: seq<string>, createdAt: string,
                     insertLead: LeadData -> InsertResult): (out: Outcome)
    ensures out.response.status == 400 <==> exists f :: f in required && !Present(data, f)
    ensures out.response.status == 400 ==>
              && out.assessmentFor.None?
              && out.response.body.MissingRequired?
              && (forall f :: f in out.response.body.fields <==> f in required && !Present(data, f))
    ensures (forall f :: f in required ==> Present(data, f)) ==>
              out == AfterInsert(formType, insertLead(BuildLead(formType, data, createdAt)))
  {
    var missing := MissingFields(required, data);
    if missing != [] then
      assert missing[0] in missing;
      Outcome(Response(400, MissingRequired(missing)), None)
    else
      AfterInsert(formType, insertLead(BuildLead(formType, data, createdAt)))
  }

  /** The handler with the two defects corrected: the form type is looked up
      among the table's own properties, and a `null` body is answered the way
      the `catch` block means to (form type `contact`). `insertLead` is the
      database call; `createdAt` the clock. */
  function Handle(req: Request, createdAt: string, insertLead: LeadData -> InsertResult): (out: Outcome)
    ensures req.verb == "OPTIONS" ==> out == Outcome(Response(200, NoContent), None)
    ensures req.verb != "OPTIONS" && req.verb != "POST" ==> out == Outcome(Response(405, MethodNotAllowed), None)
    ensures out.response.status in {200, 400, 405}
    ensures out.response.status == 400 <==>
              req.verb == "POST" && req.body.Some? &&
              MissingFields(RequiredFor(FormTypeOf(req.body.value)), req.body.value) != []
    ensures out.response.status == 400 ==>
              out.response.body == MissingRequired(MissingFields(RequiredFor(FormTypeOf(req.body.value)), req.body.value))
    ensures req.verb == "POST" && out.response.status != 400 ==>
              out.response.status == 200 && out.response.body.Submitted?
    ensures out.assessmentFor.Some? ==>
              req.verb == "POST" && req.body.Some? && FormTypeOf(req.body.value) == VStr("signup") &&
              Truthy(out.assessmentFor.value)
    ensures out.response.body.Submitted? && out.response.body.leadId.Some? ==> req.verb == "POST" && req.body.Some?
  {
    if req.verb == "OPTIONS" then
      Outcome(Response(200, NoContent), None)
    else if req.verb != "POST" then
      Outcome(Response(405, MethodNotAllowed), None)
    else if req.body.None? then
      Recovered(VStr("contact"))
    else
      var data := req.body.value;
      var formType := FormTypeOf(data);
      Validated(formType, data, RequiredFor(formType), createdAt, insertLead)
  }

  /** A body that fills in every field its form type requires is never refused. */
  lemma CompletePayloadIsAccepted(req: Request, createdAt: string, insertLead: LeadData -> InsertResult)
    requires req.verb == "POST" && req.body.Some?
    requires forall f :: f in RequiredFor(FormTypeOf(req.body.value)) ==> Present(req.body.value, f)
    ensures Handle(req, createdAt, insertLead).response.status == 200
  {
    var data := req.body.value;
    var missing := MissingFields(RequiredFor(FormTypeOf(data)), data);
    assert forall i :: 0 <= i < |missing| ==> missing[i] in missing;
  }

  /** A `signup` without `companySize` is refused, naming just that field. */
  lemma SignupWithoutCompanySize(createdAt: string, insertLead: LeadData -> InsertResult)
    ensures var data := map["formType" := VStr("signup"), "email" := VStr("a@b.co"), "company" := VStr("Acme")];
            Handle(Request("POST", Some(data)), createdAt, insertLead).response ==
              Response(400, MissingRequired(["companySize"]))
  {
    var data := map["formType" := VStr("signup"), "email" := VStr("a@b.co"), "company" := VStr("Acme")];
    assert FormTypeOf(data) == VStr("signup");
    assert MissingFields(["companySize"], data) == ["companySize"];
    assert SignupFields[1..] == ["company", "companySize"];
    assert MissingFields(SignupFields[1..][1..], data) == ["companySize"];
  }

  /** `createAssessment` is called exactly for a `signup` whose insert went
      through and returned a row with a truthy id, and then with that id. */
  lemma AssessmentCondition(req: Request, createdAt: string, insertLead: LeadData -> InsertResult)
    requires req.verb == "POST" && req.body.Some?
    requires MissingFields(RequiredFor(FormTypeOf(req.body.value)), req.body.value) == []
    ensures var inserted := insertLead(BuildLead(FormTypeOf(req.body.value), req.body.value, createdAt));
            var out := Handle(req, createdAt, insertLead);
            (out.assessmentFor.Some? <==>
               && FormTypeOf(req.body.value) == VStr("signup")
               && !TruthyText(inserted.warning) && !TruthyText(inserted.error)
               && inserted.data.Some? && inserted.data.value.id.Some? && Truthy(inserted.data.value.id.value))
            && (out.assessmentFor.Some? ==> inserted.data == Some(LeadRow(out.assessmentFor)))
  {
  }

  // ---------------------------------------------------------------------------
  // The handler as written

  /** The table lookup `requiredFields[formType]` as written: an ordinary
      object, so a form type that names an `Object.prototype` member finds a
      function there. */
  datatype Lookup = OwnList(fields: seq<string>) | Inherited | Undefined

  function LookupAsWritten(formType: Val): (found: Lookup)
    ensures found.Inherited? <==> formType.VStr? && formType.s in ObjectPrototypeMembers
    ensures found.OwnList? <==> formType in {VStr("signup"), VStr("demo"), VStr("contact")}
    ensures found.OwnList? ==> found.fields == RequiredFor(formType)
  {
    if formType == VStr("signup") then OwnList(SignupFields)
    else if formType == VStr("demo") then OwnList(DemoFields)
    else if formType == VStr("contact") then OwnList(ContactFields)
    else if formType.VStr? && formType.s in ObjectPrototypeMembers then Inherited
    else Undefined
  }

  /** Either an answer, or a rejected promise: the `catch` block itself threw. */
  datatype AsWritten = Answered(out: Outcome) | Rejected

  function HandleAsWritten(req: Request, createdAt: string, insertLead: LeadData -> InsertResult): (r: AsWritten)
    ensures r.Rejected? <==> req.verb == "POST" && req.body.None?
  {
    if req.verb == "OPTIONS" then
      Answered(Outcome(Response(200, NoContent), None))
    else if req.verb != "POST" then
      Answered(Outcome(Response(405, MethodNotAllowed), None))
    else if req.body.None? then
      // `formData.formType` throws, and so does `req.body.formType` in `catch`
      Rejected
    else
      var data := req.body.value;
      var formType := FormTypeOf(data);
      match LookupAsWritten(formType)
      case OwnList(required) => Answered(Validated(formType, data, required, createdAt, insertLead))
      case Undefined => Answered(Validated(formType, data, ContactFields, createdAt, insertLead))
      // a function is truthy, has no `filter`, and the call throws into `catch`
      case Inherited => Answered(Recovered(formType))
  }

  /** Away from the two defects the handler as written and the corrected one agree. */
  lemma AsWrittenAgreesOffPrototype(req: Request, createdAt: string, insertLead: LeadData -> InsertResult)
    requires req.verb == "POST" ==>
               req.body.Some? && !LookupAsWritten(FormTypeOf(req.body.value)).Inherited?
    ensures HandleAsWritten(req, createdAt, insertLead) == Answered(Handle(req, createdAt, insertLead))
  {
  }

  /** A `formType` of `toString` skips validation: an empty form is accepted
      as submitted, where the `contact` list would refuse it. */
  lemma InheritedFormTypeSkipsValidation(createdAt: string, insertLead: LeadData -> InsertResult)
    ensures var req := Request("POST", Some(map["formType" := VStr("toString")]));
            && HandleAsWritten(req, createdAt, insertLead) ==
                 Answered(Outcome(Response(200, Submitted(SubmittedMessage, VStr("toString"), None, None)), None))
            && Handle(req, createdAt, insertLead).response == Response(400, MissingRequired(ContactFields))
  {
    var data := map["formType" := VStr("toString")];
    assert FormTypeOf(data) == VStr("toString");
    assert MissingFields(ContactFields, data) == ContactFields by {
      assert forall k :: 0 <= k <= |ContactFields| ==>
        MissingFields(ContactFields[k..], data) == ContactFields[k..] by {
        forall k | 0 <= k <= |ContactFields|
          ensures MissingFields(ContactFields[k..], data) == ContactFields[k..]
        {
          MissingAllWhenAbsent(ContactFields[k..], data);
        }
      }
      assert ContactFields[0..] == ContactFields;
    }
  }

  /** Every field of a list the body does not carry is reported, in order. */
  lemma {:induction false} MissingAllWhenAbsent(required: seq<string>, data: FormData)
    requires forall f :: f in required ==> !Present(data, f)
    ensures MissingFields(required, data) == required
    decreases |required|
  {
    if required != [] {
      assert required[0] in required;
      assert forall f :: f in required[1..] ==> f in required;
      MissingAllWhenAbsent(required[1..], data);
      assert [required[0]] + required[1..] == required;
    }
  }

  /** A POST with a `null` body gets no answer at all as written; corrected,
      it is recovered as a `contact` submission. */
  lemma NullBodyRejects(createdAt: string, insertLead: LeadData -> InsertResult)
    ensures HandleAsWritten(Request("POST", None), createdAt, insertLead) == Rejected
    ensures Handle(Request("POST", None), createdAt, insertLead) ==
              Outcome(Response(200, Submitted(SubmittedMessage, VStr("contact"), None, None)), None)
  {
  }

  // ---------------------------------------------------------------------------
  // The imperative handler on the response object

  const CorsHeaders: map<string, string> :=
    map["Access-Control-Allow-Credentials" := "true",
        "Access-Control-Allow-Origin" := "*",
        "Access-Control-Allow-Methods" := "GET,OPTIONS,PATCH,DELETE,POST,PUT",
        "Access-Control-Allow-Headers" :=
          "X-CSRF-Token, X-Requested-With, Accept, Accept-Version, Content-Length, Content-MD5, Content-Type, Date, X-Api-Version"]

  /** The response object `res`: headers, status and the body sent by
      `json(...)` or `end()`. */
  class ServerResponse {
    var headers: map<string, string>
    var statusCode: int
    var sent: Option<Body>

    constructor ()
      ensures headers == map[] && statusCode == 200 && sent == None
    {
      headers := map[];
      statusCode := 200;
      sent := None;
    }

    method SetHeader(name: string, value: string)
      modifies this`headers
      ensures headers == old(headers)[name := value]
    {
      headers := headers[name := value];
    }

    /** `status(code)` followed by `json(body)` or `end()`. */
    method Send(code: int, body: Body)
      modifies this`statusCode, this`sent
      ensures statusCode == code && sent == Some(body)
    {
      statusCode := code;
      sent := Some(body);
    }
  }

  /** `handler(req, res)` with the corrected lookup and recovery: sets the CORS
      headers on every request and sends exactly the response `Handle` picks;
      the result is the lead id `createAssessment` is awaited with. */
  method Handler(req: Request, createdAt: string, insertLead: LeadData -> InsertResult, res: ServerResponse)
    returns (assessmentFor: Option<Val>)
    modifies res
    ensures res.headers == old(res.headers) + CorsHeaders
    ensures res.statusCode == Handle(req, createdAt, insertLead).response.status
    ensures res.sent == Some(Handle(req, createdAt, insertLead).response.body)
    ensures assessmentFor == Handle(req, createdAt, insertLead).assessmentFor
  {
    SetCorsHeaders(res);
    assessmentFor := None;
    if req.verb == "OPTIONS" {
      res.Send(200, NoContent);
    } else if req.verb != "POST" {
      res.Send(405, MethodNotAllowed);
    } else if req.body.None? {
      res.Send(200, Submitted(SubmittedMessage, VStr("contact"), None, None));
    } else {
      var data := req.body.value;
      var formType := FormTypeOf(data);
      assessmentFor := SendValidated(formType, data, RequiredFor(formType), createdAt, insertLead, res);
    }
  }

  /** The four `setHeader` calls every request gets. */
  method SetCorsHeaders(res: ServerResponse)
    modifies res`headers
    ensures res.headers == old(res.headers) + CorsHeaders
  {
    res.SetHeader("Access-Control-Allow-Credentials", "true");
    res.SetHeader("Access-Control-Allow-Origin", "*");
    res.SetHeader("Access-Control-Allow-Methods", "GET,OPTIONS,PATCH,DELETE,POST,PUT");
    res.SetHeader("Access-Control-Allow-Headers",
      "X-CSRF-Token, X-Requested-With, Accept, Accept-Version, Content-Length, Content-MD5, Content-Type, Date, X-Api-Version");
  }

  /** The part of `handler` after the form type is known. */
  method SendValidated(formType: Val, data: FormData, required: seq<string>, createdAt: string,
                       insertLead: LeadData -> InsertResult, res: ServerResponse)
    returns (assessmentFor: Option<Val>)
    modifies res`statusCode, res`sent
    ensures res.statusCode == Validated(formType, data, required, createdAt, insertLead).response.status
    ensures res.sent == Some(Validated(formType, data, required, createdAt, insertLead).response.body)
    ensures assessmentFor == Validated(formType, data, required, createdAt, insertLead).assessmentFor
  {
    var missing := MissingFields(required, data);
    if |missing| > 0 {
      res.Send(400, MissingRequired(missing));
      return None;
    }
    var lead := BuildLead(formType, data, createdAt);
    var inserted := insertLead(lead);
    assessmentFor := SendInsertAnswer(formType, inserted, res);
  }

  /** The three answers to what `insertLead` resolved to. */
  method SendInsertAnswer(formType: Val, inserted: InsertResult, res: ServerResponse)
    returns (assessmentFor: Option<Val>)
    modifies res`statusCode, res`sent
    ensures res.statusCode == AfterInsert(formType, inserted).response.status
    ensures res.sent == Some(AfterInsert(formType, inserted).response.body)
    ensures assessmentFor == AfterInsert(formType, inserted).assessmentFor
  {
    assessmentFor := None;
    if TruthyText(inserted.warning) {
      res.Send(200, Submitted(PendingMessage, formType, inserted.warning, None));
    } else if TruthyText(inserted.error) {
      res.Send(200, Submitted(SubmittedMessage, formType, None, None));
    } else {
      var leadId := if inserted.data.Some? then inserted.data.value.id else None;
      if formType == VStr("signup") && leadId.Some? && Truthy(leadId.value) {
        assessmentFor := leadId;
      }
      res.Send(200, Submitted(SubmittedMessage, formType, None, leadId));
    }
  }
}
