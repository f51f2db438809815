/** The request handler `getOpenAIResponse`: it fetches the fifteen
    sections one after the other, assembles them into the product analysis
    document, validates the document as a whole and answers with it, with
    the validator's errors, or with an error status. */
module Controller {
  import opened JsonValues
  import opened Validation
  import opened Registry
  import opened Fetcher

  /** The fifteen section values, as the fetcher returned them. */
  datatype Sections = Sections(
    businessCase: Json, swotAnalysis: Json, businessModelCanvas: Json,
    longTermStrategy: Json, discoveryWorkshops: Json,
    coreFeatures: Json, userStories: Json,
    architecture: Json, techStackRecommendations: Json,
    regulatoryCompliance: Json, riskAssessment: Json,
    integrationAndInteroperability: Json, scalabilityAndPerformance: Json, securityConsiderations: Json,
    refinedConcept: Json)
  {
    /** The sections in fetch order. */
    function List(): seq<Json> {
      [businessCase, swotAnalysis, businessModelCanvas,
       longTermStrategy, discoveryWorkshops,
       coreFeatures, userStories,
       architecture, techStackRecommendations,
       regulatoryCompliance, riskAssessment,
       integrationAndInteroperability, scalabilityAndPerformance, securityConsiderations,
       refinedConcept]
    }

    // The parent objects the sections are combined into.

    function BusinessAnalysis(): Json {
      JObj(map["businessCase" := businessCase, "swotAnalysis" := swotAnalysis,
               "businessModelCanvas" := businessModelCanvas])
    }

    function StrategyAndPlanning(): Json {
      JObj(map["longTermStrategy" := longTermStrategy, "discoveryWorkshops" := discoveryWorkshops])
    }

    function ProductDefinition(): Json {
      JObj(map["coreFeatures" := coreFeatures, "userStories" := userStories])
    }

    function TechnicalArchitecture(): Json {
      JObj(map["architecture" := architecture, "techStackRecommendations" := techStackRecommendations])
    }

    function ComplianceAndRisk(): Json {
      JObj(map["regulatoryCompliance" := regulatoryCompliance, "riskAssessment" := riskAssessment])
    }

    function SystemDesign(): Json {
      JObj(map["integrationAndInteroperability" := integrationAndInteroperability,
               "scalabilityAndPerformance" := scalabilityAndPerformance,
               "securityConsiderations" := securityConsiderations])
    }
  }

  /** The section names, in fetch order; the handler fetches section `i`
      by `SectionNames[i]` against `SectionSchemas[i]`. */
  const SectionNames: seq<string> := [
    "businessCase", "swotAnalysis", "businessModelCanvas",
    "longTermStrategy", "discoveryWorkshops",
    "coreFeatures", "userStories",
    "architecture", "techStackRecommendations",
    "regulatoryCompliance", "riskAssessment",
    "integrationAndInteroperability", "scalabilityAndPerformance", "securityConsiderations",
    "refinedConcept"
  ]

  /** The product analysis document: the product idea and the sections,
      combined into their parent objects first. */
  function Assemble(productIdea: string, s: Sections): Json {
    JObj(map[
      "productIdea" := JStr(productIdea),
      "businessAnalysis" := s.BusinessAnalysis(),
      "strategyAndPlanning" := s.StrategyAndPlanning(),
      "productDefinition" := s.ProductDefinition(),
      "technicalArchitecture" := s.TechnicalArchitecture(),
      "complianceAndRisk" := s.ComplianceAndRisk(),
      "systemDesign" := s.SystemDesign(),
      "refinedConcept" := s.refinedConcept])
  }

  /** What is sent back: `{ content: document }` as JSON, `{ errors }` as
      JSON, or a plain text body. */
  datatype Body = Content(document: Json) | Errors(errors: seq<string>) | Text(text: string)

  datatype HttpResponse = HttpResponse(status: int, body: Body)

  /** The answer for an assembled document: the document is serialized and
      checked against the document schema; 400 with the errors when that
      fails, 200 with the document otherwise. */
  function FinalResponse(codec: JsonCodec, document: Json): (r: HttpResponse)
    ensures r.status == 200 || r.status == 400
    ensures r.status == 200 <==> ValidateResponse(codec, codec.stringify(document), ProductAnalysisSchema).valid
    ensures r.status == 200 ==> r.body == Content(document)
    ensures r.status == 400 ==>
              r.body == Errors(ValidateResponse(codec, codec.stringify(document), ProductAnalysisSchema).errors.value)
              && |r.body.errors| > 0
  {
    var validation := ValidateResponse(codec, codec.stringify(document), ProductAnalysisSchema);
    if !validation.valid then HttpResponse(400, Errors(validation.errors.value))
    else HttpResponse(200, Content(document))
  }

  /** `s.includes(sub)`. */
  predicate Contains(s: string, sub: string) {
    exists i :: 0 <= i <= |s| && sub <= s[i..]
  }

  /** A text that contains a non-empty one contains its first character. */
  lemma ContainsFirst(s: string, sub: string)
    requires |sub| > 0
    ensures Contains(s, sub) ==> sub[0] in s
  {
    if Contains(s, sub) {
      var i :| 0 <= i <= |s| && sub <= s[i..];
      assert s[i..][0] == s[i];
    }
  }

  /** The answer when fetching threw: 429 with the message when it
      mentions a rate limit, 500 with "Error: " and the message otherwise. */
  function ErrorResponse(message: string): (r: HttpResponse)
    ensures r.status == 429 <==> Contains(message, "Rate limit")
    ensures r.status == 429 || r.status == 500
    ensures r.status == 429 ==> r.body == Text(message)
    ensures r.status == 500 ==> r.body == Text("Error: " + message)
  {
    if Contains(message, "Rate limit") then HttpResponse(429, Text(message))
    else HttpResponse(500, Text("Error: " + message))
  }

  /** Every request of the trace starts with this prompt. */
  predicate Prompted(t: seq<Event>, sectionPrompt: string) {
    forall i :: 0 <= i < |t| && t[i].Call? ==> t[i].request.sectionPrompt == sectionPrompt
  }

  /** What a fetch returns when it does not throw: `{}` or a conforming value. */
  ghost predicate FetchedAs(v: Json, schema: Schema) {
    v == EmptyObject || Conforms(v, schema)
  }

  /** Each section is `{}` or conforms to its schema. */
  ghost predicate SectionsFetched(s: Sections) {
    forall k :: 0 <= k < |SectionSchemas| ==> FetchedAs(s.List()[k], SectionSchemas[k])
  }

  /** Every section conforms to the schema at its position in `ss`. */
  ghost predicate ConformTo(s: Sections, ss: seq<Schema>)
    requires |ss| == 15
  {
    && Conforms(s.businessCase, ss[0])
    && Conforms(s.swotAnalysis, ss[1])
    && Conforms(s.businessModelCanvas, ss[2])
    && Conforms(s.longTermStrategy, ss[3])
    && Conforms(s.discoveryWorkshops, ss[4])
    && Conforms(s.coreFeatures, ss[5])
    && Conforms(s.userStories, ss[6])
    && Conforms(s.architecture, ss[7])
    && Conforms(s.techStackRecommendations, ss[8])
    && Conforms(s.regulatoryCompliance, ss[9])
    && Conforms(s.riskAssessment, ss[10])
    && Conforms(s.integrationAndInteroperability, ss[11])
    && Conforms(s.scalabilityAndPerformance, ss[12])
    && Conforms(s.securityConsiderations, ss[13])
    && Conforms(s.refinedConcept, ss[14])
  }

  /** Every section conforms to its schema. */
  ghost predicate SectionsConform(s: Sections) {
    ConformTo(s, SectionSchemas)
  }

  /** Conformance of the sections is conformance of each list entry. */
  lemma ConformToAt(s: Sections, ss: seq<Schema>, i: nat)
    requires |ss| == 15 && i < 15
    ensures ConformTo(s, ss) ==> Conforms(s.List()[i], ss[i])
  {
    match i { case 0 => case 1 => case 2 => case 3 => case 4 => case 5 => case 6 => case 7 => case 8 => case 9 => case 10 => case 11 => case 12 => case 13 => case 14 => }
  }

  // ---------------------------------------------------------------------
  // The handler

  /** What one more fetch with the default budget adds to a trace in which
      no call failed and every request carries `sectionPrompt`. */
  lemma FetchStep(codec: JsonCodec, provider: Provider, trace: seq<Event>, sectionPrompt: string, i: nat)
    requires i < |SectionSchemas| && NoFailure(trace) && Prompted(trace, sectionPrompt)
    ensures var o := FetchLoop(codec, provider, CallCount(trace), sectionPrompt, SectionNames[i], SectionSchemas[i],
                               DefaultRetries, DefaultBackoffDelay, "");
            var trace' := trace + o.trace;
            && CallCount(trace') <= CallCount(trace) + 3
            && Prompted(trace', sectionPrompt)
            && (o.result.Thrown? ==>
                  && o.result.message == FetchErrorMessage
                  && !NoFailure(trace') && Last(trace').Call? && Last(trace').answer.Failed?)
            && (o.result.Fetched? ==> NoFailure(trace') && FetchedAs(o.result.value, SectionSchemas[i]))
  {
    var o := FetchLoop(codec, provider, CallCount(trace), sectionPrompt, SectionNames[i], SectionSchemas[i],
                       DefaultRetries, DefaultBackoffDelay, "");
    var t := o.trace;
    var trace' := trace + t;
    DefaultFetch(codec, provider, CallCount(trace), sectionPrompt, SectionNames[i], SectionSchemas[i]);
    CallCountAppend(trace, t);
    PrefixNoFailure(trace, t);
    PrefixTrace(trace, t);
    forall k | 0 <= k < |trace'| && trace'[k].Call? ensures trace'[k].request.sectionPrompt == sectionPrompt {
      if k >= |trace| {
        assert trace'[k] == t[k - |trace|];
      } else {
        assert trace'[k] == trace[k];
      }
    }
    if o.result.Thrown? {
      var j := |trace'| - 1;
      assert trace'[j].Call? && trace'[j].answer.Failed?;
    }
  }

  /** `await fetchSection(sectionPrompt, sectionName, schema)` with the
      default budget, as the handler's next fetch: its calls follow those
      already in the trace, and the rest of the fetch phase goes on from
      the new trace (`values` are the sections fetched before it). */
  method FetchNext(codec: JsonCodec, provider: Provider, trace: seq<Event>, sectionPrompt: string, i: nat,
                   ghost values: seq<Json>)
    returns (r: FetchResult, trace': seq<Event>)
    requires i < |SectionSchemas|
    ensures var o := FetchLoop(codec, provider, CallCount(trace), sectionPrompt, SectionNames[i], SectionSchemas[i],
                               DefaultRetries, DefaultBackoffDelay, "");
            r == o.result && trace' == trace + o.trace
    ensures r.Thrown? ==>
              FetchPhase(codec, provider, sectionPrompt, i, values, trace) == Phase(values, Some(r.message), trace')
    ensures r.Fetched? ==>
              FetchPhase(codec, provider, sectionPrompt, i, values, trace) ==
              FetchPhase(codec, provider, sectionPrompt, i + 1, values + [r.value], trace')
  {
    var sectionName, schema := SectionNames[i], SectionSchemas[i];
    var t;
    r, t := FetchSection(codec, provider, CallCount(trace), sectionPrompt, sectionName, schema,
                         DefaultRetries, DefaultBackoffDelay);
    trace' := trace + t;
  }

  /** Where the fetch phase ends: the sections fetched, the message of the
      fetch that threw if one did, and the trace of all calls and waits. */
  datatype Phase = Phase(values: seq<Json>, thrown: Option<string>, trace: seq<Event>)

  /** The handler's fetches from section `i` on, given the sections
      `values` fetched before it and the trace so far: each one with the
      default budget, its calls numbered after those already made, until
      all fifteen are done or one throws. */
  function FetchPhase(codec: JsonCodec, provider: Provider, sectionPrompt: string, i: nat,
                      values: seq<Json>, trace: seq<Event>): Phase
    requires i <= |SectionSchemas|
    decreases |SectionSchemas| - i
  {
    if i == |SectionSchemas| then Phase(values, None, trace)
    else
      var o := FetchLoop(codec, provider, CallCount(trace), sectionPrompt, SectionNames[i], SectionSchemas[i],
                         DefaultRetries, DefaultBackoffDelay, "");
      match o.result
      case Thrown(message) => Phase(values, Some(message), trace + o.trace)
      case Fetched(v) => FetchPhase(codec, provider, sectionPrompt, i + 1, values + [v], trace + o.trace)
  }

  /** The fetch phase stops with the fetch error exactly when a call
      failed, and then the failed call is the last event. Each fetch adds
      at most three calls, all with the handler's prompt. */
  lemma {:induction false} FetchPhaseFacts(codec: JsonCodec, provider: Provider, sectionPrompt: string, i: nat,
                                           values: seq<Json>, trace: seq<Event>)
    requires i <= |SectionSchemas| && |values| == i
    requires NoFailure(trace) && Prompted(trace, sectionPrompt) && CallCount(trace) <= 3 * i
    ensures var p := FetchPhase(codec, provider, sectionPrompt, i, values, trace);
            && (p.thrown.Some? <==> !NoFailure(p.trace))
            && (p.thrown.Some? ==>
                  && p.thrown.value == FetchErrorMessage
                  && p.trace != [] && Last(p.trace).Call? && Last(p.trace).answer.Failed?)
            && CallCount(p.trace) <= 3 * |SectionSchemas|
            && Prompted(p.trace, sectionPrompt)
    decreases |SectionSchemas| - i
  {
    if i < |SectionSchemas| {
      var o := FetchLoop(codec, provider, CallCount(trace), sectionPrompt, SectionNames[i], SectionSchemas[i],
                         DefaultRetries, DefaultBackoffDelay, "");
      FetchStep(codec, provider, trace, sectionPrompt, i);
      if o.result.Fetched? {
        FetchPhaseFacts(codec, provider, sectionPrompt, i + 1, values + [o.result.value], trace + o.trace);
      }
    }
  }

  /** When no fetch throws, the phase ends with fifteen sections, each `{}`
      or conforming to its schema. */
  lemma {:induction false} FetchPhaseSections(codec: JsonCodec, provider: Provider, sectionPrompt: string, i: nat,
                                              values: seq<Json>, trace: seq<Event>)
    requires i <= |SectionSchemas| && |values| == i
    requires forall k :: 0 <= k < i ==> FetchedAs(values[k], SectionSchemas[k])
    ensures var p := FetchPhase(codec, provider, sectionPrompt, i, values, trace);
            p.thrown.None? ==>
              && |p.values| == |SectionSchemas|
              && forall k :: 0 <= k < |SectionSchemas| ==> FetchedAs(p.values[k], SectionSchemas[k])
    decreases |SectionSchemas| - i
  {
    if i < |SectionSchemas| {
      var o := FetchLoop(codec, provider, CallCount(trace), sectionPrompt, SectionNames[i], SectionSchemas[i],
                         DefaultRetries, DefaultBackoffDelay, "");
      DefaultFetch(codec, provider, CallCount(trace), sectionPrompt, SectionNames[i], SectionSchemas[i]);
      if o.result.Fetched? {
        FetchedAppend(values, o.result.value);
        FetchPhaseSections(codec, provider, sectionPrompt, i + 1, values + [o.result.value], trace + o.trace);
      }
    }
  }

  /** Appending the next section's value keeps every value fetched as its
      section's schema demands. */
  lemma FetchedAppend(values: seq<Json>, v: Json)
    requires |values| < |SectionSchemas|
    requires forall k :: 0 <= k < |values| ==> FetchedAs(values[k], SectionSchemas[k])
    requires FetchedAs(v, SectionSchemas[|values|])
    ensures forall k :: 0 <= k < |values + [v]| ==> FetchedAs((values + [v])[k], SectionSchemas[k])
  {
    forall k | 0 <= k < |values + [v]| ensures FetchedAs((values + [v])[k], SectionSchemas[k]) {
      if k < |values| { assert (values + [v])[k] == values[k]; }
    }
  }

  /** A provider whose first call fails ends the fetch phase at that call. */
  lemma FirstFailureEndsPhase(codec: JsonCodec, provider: Provider, sectionPrompt: string)
    requires provider(0).Failed?
    ensures var p := FetchPhase(codec, provider, sectionPrompt, 0, [], []);
            && p.thrown == Some(FetchErrorMessage) && p.values == []
            && p.trace == [Call(Request(sectionPrompt, "", SectionNames[0]), Failed)]
  {
  }

  /** What the fetch phase of the handler ends with: all fifteen sections,
      or the message of the first fetch that threw. */
  datatype Fetching = Done(sections: Sections) | Threw(message: string)

  /** The sections appended one by one in fetch order are their list. */
  lemma AppendedInOrder(s: Sections)
    ensures [] + [s.businessCase] + [s.swotAnalysis] + [s.businessModelCanvas]
            + [s.longTermStrategy] + [s.discoveryWorkshops] + [s.coreFeatures]
            + [s.userStories] + [s.architecture] + [s.techStackRecommendations]
            + [s.regulatoryCompliance] + [s.riskAssessment] + [s.integrationAndInteroperability]
            + [s.scalabilityAndPerformance] + [s.securityConsiderations] + [s.refinedConcept]
            == s.List()
  {
  }

  /** The fifteen `await fetchSection(...)` of the handler, in order; the
      first one that throws ends the phase. */
  method FetchAll(codec: JsonCodec, provider: Provider, sectionPrompt: string)
    returns (f: Fetching, trace: seq<Event>)
    ensures var p := FetchPhase(codec, provider, sectionPrompt, 0, [], []);
            && trace == p.trace
            && (f.Threw? <==> p.thrown.Some?)
            && (f.Threw? ==> f.message == p.thrown.value)
            && (f.Done? ==> f.sections.List() == p.values)
    ensures f.Threw? <==> !NoFailure(trace)
    ensures f.Threw? ==>
              && f.message == FetchErrorMessage
              && trace != [] && Last(trace).Call? && Last(trace).answer.Failed?
    ensures f.Done? ==> SectionsFetched(f.sections)
    ensures CallCount(trace) <= 45
    ensures Prompted(trace, sectionPrompt)
  {
    FetchPhaseFacts(codec, provider, sectionPrompt, 0, [], []);
    ghost var values: seq<Json> := [];
    trace := [];
    var businessCase, swotAnalysis, businessModelCanvas, longTermStrategy, discoveryWorkshops;
    var coreFeatures, userStories, architecture, techStackRecommendations, regulatoryCompliance;
    var riskAssessment, integrationAndInteroperability, scalabilityAndPerformance, securityConsiderations;
    var refinedConcept;

    businessCase, trace := FetchNext(codec, provider, trace, sectionPrompt, 0, values);  // businessCase, BusinessCaseSchema
    if businessCase.Thrown? { f := Threw(businessCase.message); return; }
    values := values + [businessCase.value];
    swotAnalysis, trace := FetchNext(codec, provider, trace, sectionPrompt, 1, values);  // swotAnalysis, SWOTAnalysisSchema
    if swotAnalysis.Thrown? { f := Threw(swotAnalysis.message); return; }
    values := values + [swotAnalysis.value];
    businessModelCanvas, trace := FetchNext(codec, provider, trace, sectionPrompt, 2, values);  // businessModelCanvas, BusinessModelCanvasSchema
    if businessModelCanvas.Thrown? { f := Threw(businessModelCanvas.message); return; }
    values := values + [businessModelCanvas.value];
    longTermStrategy, trace := FetchNext(codec, provider, trace, sectionPrompt, 3, values);  // longTermStrategy, LongTermStrategySchema
    if longTermStrategy.Thrown? { f := Threw(longTermStrategy.message); return; }
    values := values + [longTermStrategy.value];
    discoveryWorkshops, trace := FetchNext(codec, provider, trace, sectionPrompt, 4, values);  // discoveryWorkshops, DiscoveryWorkshopsSchema
    if discoveryWorkshops.Thrown? { f := Threw(discoveryWorkshops.message); return; }
    values := values + [discoveryWorkshops.value];
    coreFeatures, trace := FetchNext(codec, provider, trace, sectionPrompt, 5, values);  // coreFeatures, CoreFeatureSchema
    if coreFeatures.Thrown? { f := Threw(coreFeatures.message); return; }
    values := values + [coreFeatures.value];
    userStories, trace := FetchNext(codec, provider, trace, sectionPrompt, 6, values);  // userStories, UserStorySchema
    if userStories.Thrown? { f := Threw(userStories.message); return; }
    values := values + [userStories.value];
    architecture, trace := FetchNext(codec, provider, trace, sectionPrompt, 7, values);  // architecture, ArchitectureSchema
    if architecture.Thrown? { f := Threw(architecture.message); return; }
    values := values + [architecture.value];
    techStackRecommendations, trace := FetchNext(codec, provider, trace, sectionPrompt, 8, values);  // techStackRecommendations, TechStackRecommendationSchema
    if techStackRecommendations.Thrown? { f := Threw(techStackRecommendations.message); return; }
    values := values + [techStackRecommendations.value];
    regulatoryCompliance, trace := FetchNext(codec, provider, trace, sectionPrompt, 9, values);  // regulatoryCompliance, RegulatoryComplianceSchema
    if regulatoryCompliance.Thrown? { f := Threw(regulatoryCompliance.message); return; }
    values := values + [regulatoryCompliance.value];
    riskAssessment, trace := FetchNext(codec, provider, trace, sectionPrompt, 10, values);  // riskAssessment, RiskAssessmentSchema
    if riskAssessment.Thrown? { f := Threw(riskAssessment.message); return; }
    values := values + [riskAssessment.value];
    integrationAndInteroperability, trace := FetchNext(codec, provider, trace, sectionPrompt, 11, values);  // integrationAndInteroperability, IntegrationAndInteroperabilitySchema
    if integrationAndInteroperability.Thrown? { f := Threw(integrationAndInteroperability.message); return; }
    values := values + [integrationAndInteroperability.value];
    scalabilityAndPerformance, trace := FetchNext(codec, provider, trace, sectionPrompt, 12, values);  // scalabilityAndPerformance, ScalabilityAndPerformanceSchema
    if scalabilityAndPerformance.Thrown? { f := Threw(scalabilityAndPerformance.message); return; }
    values := values + [scalabilityAndPerformance.value];
    securityConsiderations, trace := FetchNext(codec, provider, trace, sectionPrompt, 13, values);  // securityConsiderations, SecurityConsiderationsSchema
    if securityConsiderations.Thrown? { f := Threw(securityConsiderations.message); return; }
    values := values + [securityConsiderations.value];
    refinedConcept, trace := FetchNext(codec, provider, trace, sectionPrompt, 14, values);  // refinedConcept, RefinedConceptSchema
    if refinedConcept.Thrown? { f := Threw(refinedConcept.message); return; }
    values := values + [refinedConcept.value];

    var fetched := Sections(
      businessCase.value, swotAnalysis.value, businessModelCanvas.value,
      longTermStrategy.value, discoveryWorkshops.value,
      coreFeatures.value, userStories.value,
      architecture.value, techStackRecommendations.value,
      regulatoryCompliance.value, riskAssessment.value,
      integrationAndInteroperability.value, scalabilityAndPerformance.value, securityConsiderations.value,
      refinedConcept.value);
    AppendedInOrder(fetched);
    FetchPhaseSections(codec, provider, sectionPrompt, 0, [], []);
    f := Done(fetched);
  }

  /** `getOpenAIResponse` for a request whose body carries `prompt`;
      `basePrompt` is the handler's fixed instruction text. The provider
      gives the outcome of each call in turn and the trace records the
      calls and waits. When no fetch throws, the sections are assembled
      into the document, which is validated as a whole; a throw is caught
      and mapped to an error status. */
  method GetOpenAIResponse(codec: JsonCodec, provider: Provider, basePrompt: string, prompt: string)
    returns (response: HttpResponse, trace: seq<Event>, ghost sections: Sections)
    ensures var p := FetchPhase(codec, provider, basePrompt + prompt, 0, [], []);
            && trace == p.trace
            && (p.thrown.Some? ==> response == ErrorResponse(p.thrown.value))
            && (p.thrown.None? ==> && sections.List() == p.values
                                   && response == FinalResponse(codec, Assemble(prompt, sections)))
    ensures response.status == 200 || response.status == 400 || response.status == 500
    ensures response.status == 500 <==> !NoFailure(trace)
    ensures response.status == 500 ==>
              && response.body == Text("Error: " + FetchErrorMessage)
              && trace != [] && Last(trace).Call? && Last(trace).answer.Failed?
    ensures response.status != 500 ==>
              && response == FinalResponse(codec, Assemble(prompt, sections))
              && SectionsFetched(sections)
    ensures CallCount(trace) <= 45
    ensures Prompted(trace, basePrompt + prompt)
  {
    var fetching;
    fetching, trace := FetchAll(codec, provider, basePrompt + prompt);
    match fetching {
      case Threw(message) =>
        FetchErrorIsServerError();
        response := ErrorResponse(message);
        sections := Sections(EmptyObject, EmptyObject, EmptyObject, EmptyObject, EmptyObject,
                             EmptyObject, EmptyObject, EmptyObject, EmptyObject, EmptyObject,
                             EmptyObject, EmptyObject, EmptyObject, EmptyObject, EmptyObject);
      case Done(fetched) =>
        sections := fetched;
        var productAnalysis := Assemble(prompt, fetched);
        response := FinalResponse(codec, productAnalysis);
    }
  }

  // ---------------------------------------------------------------------
  // What the handler promises

  /** The only message fetching throws is answered with 500: it does not
      mention a rate limit, so the 429 branch is never taken. */
  lemma FetchErrorIsServerError()
    ensures ErrorResponse(FetchErrorMessage) == HttpResponse(500, Text("Error: " + FetchErrorMessage))
  {
    ContainsFirst(FetchErrorMessage, "Rate limit");
    assert 'R' !in FetchErrorMessage;
  }

  /** The document has exactly the eight top-level keys. */
  lemma AssembleKeys(productIdea: string, s: Sections)
    ensures Assemble(productIdea, s).fields.Keys ==
            {"productIdea", "businessAnalysis", "strategyAndPlanning", "productDefinition",
             "technicalArchitecture", "complianceAndRisk", "systemDesign", "refinedConcept"}
  {
  }

  /** Each section sits at its path in the document, and the product idea
      at `productIdea`. */
  lemma AssemblePlacement(productIdea: string, s: Sections, d: Option<Json>)
    requires d == Some(Assemble(productIdea, s))
    ensures At(d, ["productIdea"]) == Some(JStr(productIdea))
    ensures At(d, ["businessAnalysis", "businessCase"]) == Some(s.businessCase)
    ensures At(d, ["businessAnalysis", "swotAnalysis"]) == Some(s.swotAnalysis)
    ensures At(d, ["businessAnalysis", "businessModelCanvas"]) == Some(s.businessModelCanvas)
    ensures At(d, ["strategyAndPlanning", "longTermStrategy"]) == Some(s.longTermStrategy)
    ensures At(d, ["strategyAndPlanning", "discoveryWorkshops"]) == Some(s.discoveryWorkshops)
    ensures At(d, ["productDefinition", "coreFeatures"]) == Some(s.coreFeatures)
    ensures At(d, ["productDefinition", "userStories"]) == Some(s.userStories)
    ensures At(d, ["technicalArchitecture", "architecture"]) == Some(s.architecture)
    ensures At(d, ["technicalArchitecture", "techStackRecommendations"]) == Some(s.techStackRecommendations)
    ensures At(d, ["complianceAndRisk", "regulatoryCompliance"]) == Some(s.regulatoryCompliance)
    ensures At(d, ["complianceAndRisk", "riskAssessment"]) == Some(s.riskAssessment)
    ensures At(d, ["systemDesign", "integrationAndInteroperability"]) == Some(s.integrationAndInteroperability)
    ensures At(d, ["systemDesign", "scalabilityAndPerformance"]) == Some(s.scalabilityAndPerformance)
    ensures At(d, ["systemDesign", "securityConsiderations"]) == Some(s.securityConsiderations)
    ensures At(d, ["refinedConcept"]) == Some(s.refinedConcept)
  {
    AssembleMembers(productIdea, s);
    AtOne(d, "productIdea");
    AtOne(d, "refinedConcept");
    FirstGroupsPlacement(d, s);
    LastGroupsPlacement(d, s);
  }

  /** The sections of the first three groups, at their two-key paths. */
  lemma FirstGroupsPlacement(d: Option<Json>, s: Sections)
    requires Get(d, "businessAnalysis") == Some(s.BusinessAnalysis())
    requires Get(d, "strategyAndPlanning") == Some(s.StrategyAndPlanning())
    requires Get(d, "productDefinition") == Some(s.ProductDefinition())
    ensures At(d, ["businessAnalysis", "businessCase"]) == Some(s.businessCase)
    ensures At(d, ["businessAnalysis", "swotAnalysis"]) == Some(s.swotAnalysis)
    ensures At(d, ["businessAnalysis", "businessModelCanvas"]) == Some(s.businessModelCanvas)
    ensures At(d, ["strategyAndPlanning", "longTermStrategy"]) == Some(s.longTermStrategy)
    ensures At(d, ["strategyAndPlanning", "discoveryWorkshops"]) == Some(s.discoveryWorkshops)
    ensures At(d, ["productDefinition", "coreFeatures"]) == Some(s.coreFeatures)
    ensures At(d, ["productDefinition", "userStories"]) == Some(s.userStories)
  {
    AtTwo(d, "businessAnalysis", "businessCase");
    AtTwo(d, "businessAnalysis", "swotAnalysis");
    AtTwo(d, "businessAnalysis", "businessModelCanvas");
    AtTwo(d, "strategyAndPlanning", "longTermStrategy");
    AtTwo(d, "strategyAndPlanning", "discoveryWorkshops");
    AtTwo(d, "productDefinition", "coreFeatures");
    AtTwo(d, "productDefinition", "userStories");
  }

  /** The sections of the last three groups, at their two-key paths. */
  lemma LastGroupsPlacement(d: Option<Json>, s: Sections)
    requires Get(d, "technicalArchitecture") == Some(s.TechnicalArchitecture())
    requires Get(d, "complianceAndRisk") == Some(s.ComplianceAndRisk())
    requires Get(d, "systemDesign") == Some(s.SystemDesign())
    ensures At(d, ["technicalArchitecture", "architecture"]) == Some(s.architecture)
    ensures At(d, ["technicalArchitecture", "techStackRecommendations"]) == Some(s.techStackRecommendations)
    ensures At(d, ["complianceAndRisk", "regulatoryCompliance"]) == Some(s.regulatoryCompliance)
    ensures At(d, ["complianceAndRisk", "riskAssessment"]) == Some(s.riskAssessment)
    ensures At(d, ["systemDesign", "integrationAndInteroperability"]) == Some(s.integrationAndInteroperability)
    ensures At(d, ["systemDesign", "scalabilityAndPerformance"]) == Some(s.scalabilityAndPerformance)
    ensures At(d, ["systemDesign", "securityConsiderations"]) == Some(s.securityConsiderations)
  {
    AtTwo(d, "technicalArchitecture", "architecture");
    AtTwo(d, "technicalArchitecture", "techStackRecommendations");
    AtTwo(d, "complianceAndRisk", "regulatoryCompliance");
    AtTwo(d, "complianceAndRisk", "riskAssessment");
    AtTwo(d, "systemDesign", "integrationAndInteroperability");
    AtTwo(d, "systemDesign", "scalabilityAndPerformance");
    AtTwo(d, "systemDesign", "securityConsiderations");
  }

  /** An object conforms to an eight-field schema exactly when each of
      the eight members is present and conforms. */
  lemma EightFieldsConform(m: map<string, Json>, top: seq<Field>)
    requires |top| == 8
    ensures Conforms(JObj(m), SObject(top)) <==>
            && top[0].name in m && Conforms(m[top[0].name], top[0].schema)
            && top[1].name in m && Conforms(m[top[1].name], top[1].schema)
            && top[2].name in m && Conforms(m[top[2].name], top[2].schema)
            && top[3].name in m && Conforms(m[top[3].name], top[3].schema)
            && top[4].name in m && Conforms(m[top[4].name], top[4].schema)
            && top[5].name in m && Conforms(m[top[5].name], top[5].schema)
            && top[6].name in m && Conforms(m[top[6].name], top[6].schema)
            && top[7].name in m && Conforms(m[top[7].name], top[7].schema)
  {
    ObjectConformsIff(m, top);
    if top[0].name in m && Conforms(m[top[0].name], top[0].schema)
       && top[1].name in m && Conforms(m[top[1].name], top[1].schema)
       && top[2].name in m && Conforms(m[top[2].name], top[2].schema)
       && top[3].name in m && Conforms(m[top[3].name], top[3].schema)
       && top[4].name in m && Conforms(m[top[4].name], top[4].schema)
       && top[5].name in m && Conforms(m[top[5].name], top[5].schema)
       && top[6].name in m && Conforms(m[top[6].name], top[6].schema)
       && top[7].name in m && Conforms(m[top[7].name], top[7].schema) {
      forall k | 0 <= k < 8 ensures top[k].name in m && Conforms(m[top[k].name], top[k].schema) {
        match k
        case 0 =>
        case 1 =>
        case 2 =>
        case 3 =>
        case 4 =>
        case 5 =>
        case 6 =>
        case 7 =>
      }
    }
  }

  /** The document conforms to the document schema exactly when every
      section conforms to its own schema. */
  lemma AssembledConforms(productIdea: string, s: Sections)
    ensures Conforms(Assemble(productIdea, s), ProductAnalysisSchema) <==> SectionsConform(s)
  {
    ProductAnalysisShape();
    DocumentConformsIff(productIdea, s, ProductAnalysisSchema.fields, SectionSchemas,
                        BusinessAnalysisSchema, StrategyAndPlanningSchema, ProductDefinitionSchema,
                        TechnicalArchitectureSchema, ComplianceAndRiskSchema, SystemDesignSchema);
  }

  /** The members of the assembled document. */
  lemma AssembleMembers(productIdea: string, s: Sections)
    ensures var m := Assemble(productIdea, s).fields;
            && "productIdea" in m && m["productIdea"] == JStr(productIdea)
            && "businessAnalysis" in m && m["businessAnalysis"] == s.BusinessAnalysis()
            && "strategyAndPlanning" in m && m["strategyAndPlanning"] == s.StrategyAndPlanning()
            && "productDefinition" in m && m["productDefinition"] == s.ProductDefinition()
            && "technicalArchitecture" in m && m["technicalArchitecture"] == s.TechnicalArchitecture()
            && "complianceAndRisk" in m && m["complianceAndRisk"] == s.ComplianceAndRisk()
            && "systemDesign" in m && m["systemDesign"] == s.SystemDesign()
            && "refinedConcept" in m && m["refinedConcept"] == s.refinedConcept
  {
  }

  /** The document's shape against any schemas laid out like the
      document schema: the product idea is a string, so the document
      conforms exactly when every section conforms to its schema. */
  lemma DocumentConformsIff(productIdea: string, s: Sections, top: seq<Field>, ss: seq<Schema>,
                            ba: Schema, sp: Schema, pd: Schema, ta: Schema, cr: Schema, sd: Schema)
    requires |ss| == 15 && |top| == 8
    requires top[0] == Field("productIdea", SString) && top[1] == Field("businessAnalysis", ba)
    requires top[2] == Field("strategyAndPlanning", sp) && top[3] == Field("productDefinition", pd)
    requires top[4] == Field("technicalArchitecture", ta) && top[5] == Field("complianceAndRisk", cr)
    requires top[6] == Field("systemDesign", sd) && top[7] == Field("refinedConcept", ss[14])
    requires ba == SObject([Field("businessCase", ss[0]), Field("swotAnalysis", ss[1]),
                            Field("businessModelCanvas", ss[2])])
    requires sp == SObject([Field("longTermStrategy", ss[3]), Field("discoveryWorkshops", ss[4])])
    requires pd == SObject([Field("coreFeatures", ss[5]), Field("userStories", ss[6])])
    requires ta == SObject([Field("architecture", ss[7]), Field("techStackRecommendations", ss[8])])
    requires cr == SObject([Field("regulatoryCompliance", ss[9]), Field("riskAssessment", ss[10])])
    requires sd == SObject([Field("integrationAndInteroperability", ss[11]),
                            Field("scalabilityAndPerformance", ss[12]),
                            Field("securityConsiderations", ss[13])])
    ensures Conforms(Assemble(productIdea, s), SObject(top)) <==> ConformTo(s, ss)
  {
    AssembleMembers(productIdea, s);
    EightFieldsConform(Assemble(productIdea, s).fields, top);
    TripleConforms("businessCase", s.businessCase, ss[0],
                   "swotAnalysis", s.swotAnalysis, ss[1],
                   "businessModelCanvas", s.businessModelCanvas, ss[2]);
    PairConforms("longTermStrategy", s.longTermStrategy, ss[3],
                 "discoveryWorkshops", s.discoveryWorkshops, ss[4]);
    PairConforms("coreFeatures", s.coreFeatures, ss[5], "userStories", s.userStories, ss[6]);
    PairConforms("architecture", s.architecture, ss[7],
                 "techStackRecommendations", s.techStackRecommendations, ss[8]);
    PairConforms("regulatoryCompliance", s.regulatoryCompliance, ss[9],
                 "riskAssessment", s.riskAssessment, ss[10]);
    TripleConforms("integrationAndInteroperability", s.integrationAndInteroperability, ss[11],
                   "scalabilityAndPerformance", s.scalabilityAndPerformance, ss[12],
                   "securityConsiderations", s.securityConsiderations, ss[13]);
  }

  /** A section that degraded to `{}` makes the document fail validation. */
  lemma DegradedSectionRejected(productIdea: string, s: Sections, i: nat)
    requires i < |SectionSchemas| && s.List()[i] == EmptyObject
    ensures !Conforms(Assemble(productIdea, s), ProductAnalysisSchema)
  {
    EmptyObjectRejectedBySections(i);
    AssembledConforms(productIdea, s);
    ConformToAt(s, SectionSchemas, i);
  }

  /** With a codec that round-trips, the final answer is 200 with the
      document exactly when it conforms; otherwise 400 with one error per
      validation issue of the document, in order. */
  lemma FinalResponseOutcome(codec: JsonCodec, document: Json)
    requires RoundTrips(codec)
    ensures Conforms(document, ProductAnalysisSchema) ==>
              FinalResponse(codec, document) == HttpResponse(200, Content(document))
    ensures !Conforms(document, ProductAnalysisSchema) ==>
              FinalResponse(codec, document)
              == HttpResponse(400, Errors(RenderAll(Validate(Some(document), ProductAnalysisSchema, []))))
  {
    assert codec.parse(codec.stringify(document)) == Some(document);
    ValidateIffConforms(document, ProductAnalysisSchema, []);
  }

  /** For what the handler guarantees (its 500 case and its final
      response), with a codec that round-trips: the answer is 200, with the
      assembled document, exactly when no call failed and every section
      conformed. */
  lemma HandlerOutcome(codec: JsonCodec, response: HttpResponse, trace: seq<Event>, prompt: string, s: Sections)
    requires RoundTrips(codec)
    requires response.status == 500 <==> !NoFailure(trace)
    requires response.status != 500 ==> response == FinalResponse(codec, Assemble(prompt, s))
    ensures response.status == 200 <==> NoFailure(trace) && SectionsConform(s)
    ensures response.status == 200 ==> response.body == Content(Assemble(prompt, s))
  {
    FinalResponseOutcome(codec, Assemble(prompt, s));
    AssembledConforms(prompt, s);
  }
}
