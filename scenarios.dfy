/** The error strings the document validator produces for documents like
    those of the validator's tests: a missing member is reported as
    `Required` at its full path, a member of the wrong kind as `Expected
    <kind>, received <kind>` at its own path, and every such issue is
    reported, whatever else the document holds. */
module ValidationScenarios {
  import opened JsonValues
  import opened Validation
  import opened Registry

  /** The errors of the validation of a serialized document against the
      document schema; empty when the document is valid. */
  function DocumentErrors(codec: JsonCodec, document: Json): seq<string> {
    ValidateResponse(codec, codec.stringify(document), ProductAnalysisSchema).errors.GetOr([])
  }

  /** Every issue of a document against the document schema shows up, as
      its rendered string, among the errors, and the document is invalid. */
  lemma IssueReported(codec: JsonCodec, document: Json, iss: Issue, text: string)
    requires RoundTrips(codec)
    requires iss in Validate(Some(document), ProductAnalysisSchema, []) && Render(iss) == text
    ensures !ValidateResponse(codec, codec.stringify(document), ProductAnalysisSchema).valid
    ensures text in DocumentErrors(codec, document)
  {
    var issues := Validate(Some(document), ProductAnalysisSchema, []);
    assert codec.parse(codec.stringify(document)) == Some(document);
    var k :| 0 <= k < |issues| && issues[k] == iss;
    assert RenderAll(issues)[k] == Render(iss);
  }

  /** An issue of a present member is an issue of the object holding it. */
  lemma FieldStep(fields: seq<Field>, m: map<string, Json>, path: Path, k: nat, iss: Issue)
    requires k < |fields| && fields[k].name in m
    requires iss in Validate(Some(m[fields[k].name]), fields[k].schema, path + [Key(fields[k].name)])
    ensures iss in Validate(Some(JObj(m)), SObject(fields), path)
  {
    FieldIssuesCollected(fields, m, path, k);
  }

  /** An issue of an array item is an issue of the array. */
  lemma ItemStep(items: seq<Json>, item: Schema, path: Path, k: nat, iss: Issue)
    requires k < |items|
    requires iss in Validate(Some(items[k]), item, path + [Index(k)])
    ensures iss in Validate(Some(JArr(items)), SArray(item), path)
  {
    ItemIssuesCollected(items, item, path, k);
  }

  // ---------------------------------------------------------------------
  // Missing members

  /** A document without `productIdea` raises Required there. */
  lemma ProductIdeaMissingIssue(m: map<string, Json>)
    requires "productIdea" !in m
    ensures Issue([Key("productIdea")], Required) in Validate(Some(JObj(m)), ProductAnalysisSchema, [])
  {
    var top := ProductAnalysisSchema.fields;
    assert top[0].name == "productIdea";
    assert [] + [Key(top[0].name)] == [Key("productIdea")];
    MissingFieldRequired(top, m, [], 0);
  }

  /** The members of `businessAnalysis`, in schema order. */
  const BusinessAnalysisMembers: seq<string> := ["businessCase", "swotAnalysis", "businessModelCanvas"]

  /** A `businessAnalysis` object without its k-th member raises Required
      at `businessAnalysis.<member>`, even though `businessAnalysis` itself
      is present. */
  lemma BusinessAnalysisMemberMissingIssue(m: map<string, Json>, ba: map<string, Json>, k: nat)
    requires "businessAnalysis" in m && m["businessAnalysis"] == JObj(ba)
    requires k < 3 && BusinessAnalysisMembers[k] !in ba
    ensures Issue([Key("businessAnalysis"), Key(BusinessAnalysisMembers[k])], Required)
            in Validate(Some(JObj(m)), ProductAnalysisSchema, [])
  {
    var top := ProductAnalysisSchema.fields;
    assert top[1] == Field("businessAnalysis", BusinessAnalysisSchema);
    var fields := BusinessAnalysisSchema.fields;
    assert fields[k].name == BusinessAnalysisMembers[k];
    var above := [Key("businessAnalysis")];
    assert [] + [Key(top[1].name)] == above;
    MissingFieldRequired(fields, ba, above, k);
    assert above + [Key(fields[k].name)] == [Key("businessAnalysis"), Key(BusinessAnalysisMembers[k])];
    FieldStep(top, m, [], 1, Issue(above + [Key(fields[k].name)], Required));
  }

  // The two lemmas below are steps of MissingFieldsExample, not properties:
  // one proves the joined member texts, the other the joined paths, each on
  // its own so that no proof compares long string literals in a large context.

  lemma MissingMemberTexts()
    ensures "businessAnalysis" + "." + "businessCase" == "businessAnalysis.businessCase"
    ensures "businessAnalysis" + "." + "swotAnalysis" == "businessAnalysis.swotAnalysis"
    ensures "businessAnalysis" + "." + "businessModelCanvas" == "businessAnalysis.businessModelCanvas"
  {
  }

  /** The path of the k-th member of `businessAnalysis`, joined. */
  lemma MissingMemberPath(k: nat)
    requires k < 3
    ensures JoinPath([Key("businessAnalysis"), Key(BusinessAnalysisMembers[k])])
            == "businessAnalysis" + "." + BusinessAnalysisMembers[k]
  {
    var member := BusinessAnalysisMembers[k];
    assert JoinPath([Key(member)]) == member;
    JoinedAs(Key("businessAnalysis"), [Key(member)], "businessAnalysis", member);
    assert [Key("businessAnalysis")] + [Key(member)] == [Key("businessAnalysis"), Key(member)];
  }

  /** The document with nothing but an empty `businessAnalysis`: the
      missing `productIdea` and the three missing members of
      `businessAnalysis` are all reported, each at its full path. */
  lemma MissingFieldsExample(codec: JsonCodec)
    requires RoundTrips(codec)
    ensures var errors := DocumentErrors(codec, JObj(map["businessAnalysis" := EmptyObject]));
            && ErrorAt("productIdea", "Required") in errors
            && ErrorAt("businessAnalysis.businessCase", "Required") in errors
            && ErrorAt("businessAnalysis.swotAnalysis", "Required") in errors
            && ErrorAt("businessAnalysis.businessModelCanvas", "Required") in errors
  {
    var m := map["businessAnalysis" := EmptyObject];
    var d := JObj(m);
    MissingMemberTexts();
    MissingMemberPath(0);
    MissingMemberPath(1);
    MissingMemberPath(2);
    RenderedAs([Key("productIdea")], Required, "productIdea", "Required");
    RenderedAs([Key("businessAnalysis"), Key("businessCase")], Required, "businessAnalysis.businessCase", "Required");
    RenderedAs([Key("businessAnalysis"), Key("swotAnalysis")], Required, "businessAnalysis.swotAnalysis", "Required");
    RenderedAs([Key("businessAnalysis"), Key("businessModelCanvas")], Required,
               "businessAnalysis.businessModelCanvas", "Required");
    ProductIdeaMissingIssue(m);
    IssueReported(codec, d, Issue([Key("productIdea")], Required), ErrorAt("productIdea", "Required"));
    BusinessAnalysisMemberMissingIssue(m, map[], 0);
    IssueReported(codec, d, Issue([Key("businessAnalysis"), Key("businessCase")], Required),
                  ErrorAt("businessAnalysis.businessCase", "Required"));
    BusinessAnalysisMemberMissingIssue(m, map[], 1);
    IssueReported(codec, d, Issue([Key("businessAnalysis"), Key("swotAnalysis")], Required),
                  ErrorAt("businessAnalysis.swotAnalysis", "Required"));
    BusinessAnalysisMemberMissingIssue(m, map[], 2);
    IssueReported(codec, d, Issue([Key("businessAnalysis"), Key("businessModelCanvas")], Required),
                  ErrorAt("businessAnalysis.businessModelCanvas", "Required"));
  }

  // ---------------------------------------------------------------------
  // Members of the wrong kind

  /** A numeric `productIdea` raises a string-expected issue there. */
  lemma ProductIdeaKindIssue(m: map<string, Json>, n: real)
    requires "productIdea" in m && m["productIdea"] == JNum(n)
    ensures Issue([Key("productIdea")], InvalidType("string", KNumber))
            in Validate(Some(JObj(m)), ProductAnalysisSchema, [])
  {
    var top := ProductAnalysisSchema.fields;
    assert top[0] == Field("productIdea", SString);
    var path: Path := [Key("productIdea")];
    assert [] + [Key(top[0].name)] == path;
    LeafMismatch(JNum(n), SString, path);
    FieldStep(top, m, [], 0, Issue(path, InvalidType("string", KNumber)));
  }

  /** A string in place of the business case's `realWorldExamples` list
      raises an array-expected issue at its three-key path. */
  lemma RealWorldExamplesKindIssue(m: map<string, Json>, ba: map<string, Json>, bc: map<string, Json>, s: string)
    requires "businessAnalysis" in m && m["businessAnalysis"] == JObj(ba)
    requires "businessCase" in ba && ba["businessCase"] == JObj(bc)
    requires "realWorldExamples" in bc && bc["realWorldExamples"] == JStr(s)
    ensures Issue([Key("businessAnalysis"), Key("businessCase"), Key("realWorldExamples")], InvalidType("array", KString))
            in Validate(Some(JObj(m)), ProductAnalysisSchema, [])
  {
    var top := ProductAnalysisSchema.fields;
    assert top[1] == Field("businessAnalysis", BusinessAnalysisSchema);
    assert BusinessAnalysisSchema.fields[0] == Field("businessCase", BusinessCaseSchema);
    assert BusinessCaseSchema.fields[0] == Field("realWorldExamples", StringList);
    var p1 := [Key("businessAnalysis")];
    var p2 := p1 + [Key("businessCase")];
    var p3 := p2 + [Key("realWorldExamples")];
    assert [] + p1 == p1;
    assert p3 == [Key("businessAnalysis"), Key("businessCase"), Key("realWorldExamples")];
    var iss := Issue(p3, InvalidType("array", KString));
    assert Validate(Some(JStr(s)), StringList, p3) == [iss];
    FieldStep(BusinessCaseSchema.fields, bc, p2, 0, iss);
    FieldStep(BusinessAnalysisSchema.fields, ba, p1, 0, iss);
    FieldStep(top, m, [], 1, iss);
  }

  /** A string `priority` in the first core feature raises a
      number-expected issue at a path that names the array index. */
  lemma CoreFeaturePriorityKindIssue(m: map<string, Json>, pd: map<string, Json>, items: seq<Json>,
                                     feature: map<string, Json>, s: string)
    requires "productDefinition" in m && m["productDefinition"] == JObj(pd)
    requires "coreFeatures" in pd && pd["coreFeatures"] == JArr(items)
    requires |items| > 0 && items[0] == JObj(feature)
    requires "priority" in feature && feature["priority"] == JStr(s)
    ensures Issue([Key("productDefinition"), Key("coreFeatures"), Index(0), Key("priority")], InvalidType("number", KString))
            in Validate(Some(JObj(m)), ProductAnalysisSchema, [])
  {
    var top := ProductAnalysisSchema.fields;
    var pdSchema := SObject([Field("coreFeatures", CoreFeatureSchema), Field("userStories", UserStorySchema)]);
    assert top[3] == Field("productDefinition", pdSchema);
    var item := CoreFeatureSchema.item;
    assert item.fields[1] == Field("priority", SNumber);
    var p1 := [Key("productDefinition")];
    var p2 := p1 + [Key("coreFeatures")];
    var p3 := p2 + [Index(0)];
    var p4 := p3 + [Key("priority")];
    assert [] + p1 == p1;
    assert p4 == [Key("productDefinition"), Key("coreFeatures"), Index(0), Key("priority")];
    LeafMismatch(JStr(s), SNumber, p4);
    var iss := Issue(p4, InvalidType("number", KString));
    FieldStep(item.fields, feature, p3, 1, iss);
    ItemStep(items, item, p2, 0, iss);
    FieldStep(pdSchema.fields, pd, p1, 0, iss);
    FieldStep(top, m, [], 3, iss);
  }

  /** A string `impact` in the first risk raises a number-expected issue
      at its five-step path. */
  lemma RiskImpactKindIssue(m: map<string, Json>, cr: map<string, Json>, ra: map<string, Json>,
                            risks: seq<Json>, risk: map<string, Json>, s: string)
    requires "complianceAndRisk" in m && m["complianceAndRisk"] == JObj(cr)
    requires "riskAssessment" in cr && cr["riskAssessment"] == JObj(ra)
    requires "risks" in ra && ra["risks"] == JArr(risks)
    requires |risks| > 0 && risks[0] == JObj(risk)
    requires "impact" in risk && risk["impact"] == JStr(s)
    ensures Issue([Key("complianceAndRisk"), Key("riskAssessment"), Key("risks"), Index(0), Key("impact")],
                  InvalidType("number", KString))
            in Validate(Some(JObj(m)), ProductAnalysisSchema, [])
  {
    var top := ProductAnalysisSchema.fields;
    assert top[5] == Field("complianceAndRisk", ComplianceAndRiskSchema);
    assert ComplianceAndRiskSchema.fields[1] == Field("riskAssessment", RiskAssessmentSchema);
    assert RiskAssessmentSchema.fields[0] == Field("risks", SArray(RiskSchema));
    assert RiskSchema.fields[1] == Field("impact", SNumber);
    var p1 := [Key("complianceAndRisk")];
    var p2 := p1 + [Key("riskAssessment")];
    var p3 := p2 + [Key("risks")];
    var p4 := p3 + [Index(0)];
    var p5 := p4 + [Key("impact")];
    assert [] + p1 == p1;
    assert p5 == [Key("complianceAndRisk"), Key("riskAssessment"), Key("risks"), Index(0), Key("impact")];
    LeafMismatch(JStr(s), SNumber, p5);
    var iss := Issue(p5, InvalidType("number", KString));
    FieldStep(RiskSchema.fields, risk, p4, 1, iss);
    ItemStep(risks, RiskSchema, p3, 0, iss);
    FieldStep(RiskAssessmentSchema.fields, ra, p2, 0, iss);
    FieldStep(ComplianceAndRiskSchema.fields, cr, p1, 1, iss);
    FieldStep(top, m, [], 5, iss);
  }

  /** An issue renders as `ErrorAt` of its joined path and its message
      text whenever the path joins to a non-empty string. */
  lemma RenderedAs(p: Path, m: Message, path: string, message: string)
    requires path != "" && JoinPath(p) == path && MessageText(m) == message
    ensures Render(Issue(p, m)) == ErrorAt(path, message)
  {
  }

  // ---------------------------------------------------------------------
  // Joined paths and message texts
  //
  // The lemmas from here to InvalidTypesExample are steps of that example,
  // not properties of the validator. Each one proves a single joined path or
  // message text, or one step of one, so that no proof compares long string
  // literals in a large context.

  lemma RealWorldExamplesTailText()
    ensures "businessCase" + "." + "realWorldExamples" == "businessCase.realWorldExamples"
  {
  }

  lemma RealWorldExamplesText()
    ensures "businessAnalysis" + "." + "businessCase.realWorldExamples"
            == "businessAnalysis.businessCase.realWorldExamples"
  {
  }

  lemma RealWorldExamplesPath()
    ensures JoinPath([Key("businessAnalysis"), Key("businessCase"), Key("realWorldExamples")])
            == "businessAnalysis.businessCase.realWorldExamples"
  {
    RealWorldExamplesTailText();
    RealWorldExamplesText();
    assert JoinPath([Key("realWorldExamples")]) == "realWorldExamples";
    JoinedAs(Key("businessCase"), [Key("realWorldExamples")], "businessCase", "realWorldExamples");
    assert [Key("businessCase")] + [Key("realWorldExamples")] == [Key("businessCase"), Key("realWorldExamples")];
    JoinedAs(Key("businessAnalysis"), [Key("businessCase"), Key("realWorldExamples")],
             "businessAnalysis", "businessCase.realWorldExamples");
    assert [Key("businessAnalysis")] + [Key("businessCase"), Key("realWorldExamples")]
        == [Key("businessAnalysis"), Key("businessCase"), Key("realWorldExamples")];
  }

  /** Joining a path one segment longer puts the segment and a dot in
      front. */
  lemma JoinedAs(seg: Segment, rest: Path, head: string, tail: string)
    requires rest != [] && SegmentText(seg) == head && JoinPath(rest) == tail
    ensures JoinPath([seg] + rest) == head + "." + tail
  {
    assert ([seg] + rest)[1..] == rest;
  }

  lemma PriorityTailPath()
    ensures JoinPath([Key("coreFeatures"), Index(0), Key("priority")]) == "coreFeatures.0.priority"
  {
    var p: Path := [Key("coreFeatures"), Index(0), Key("priority")];
    assert p[1..] == [Index(0), Key("priority")];
    assert p[1..][1..] == [Key("priority")];
    assert Numeral(0) == "0";
  }

  lemma PriorityPathText()
    ensures "productDefinition" + "." + "coreFeatures.0.priority" == "productDefinition.coreFeatures.0.priority"
  {
  }

  lemma CoreFeaturePriorityPath()
    ensures JoinPath([Key("productDefinition"), Key("coreFeatures"), Index(0), Key("priority")])
            == "productDefinition.coreFeatures.0.priority"
  {
    PriorityTailPath();
    JoinedAs(Key("productDefinition"), [Key("coreFeatures"), Index(0), Key("priority")],
             "productDefinition", "coreFeatures.0.priority");
    assert [Key("productDefinition")] + [Key("coreFeatures"), Index(0), Key("priority")]
        == [Key("productDefinition"), Key("coreFeatures"), Index(0), Key("priority")];
    PriorityPathText();
  }

  lemma ImpactTailPath()
    ensures JoinPath([Key("risks"), Index(0), Key("impact")]) == "risks.0.impact"
  {
    var p: Path := [Key("risks"), Index(0), Key("impact")];
    assert p[1..] == [Index(0), Key("impact")];
    assert p[1..][1..] == [Key("impact")];
    assert Numeral(0) == "0";
  }

  lemma ImpactMiddleText()
    ensures "riskAssessment" + "." + "risks.0.impact" == "riskAssessment.risks.0.impact"
  {
  }

  lemma ImpactMiddlePath()
    ensures JoinPath([Key("riskAssessment"), Key("risks"), Index(0), Key("impact")])
            == "riskAssessment.risks.0.impact"
  {
    ImpactTailPath();
    JoinedAs(Key("riskAssessment"), [Key("risks"), Index(0), Key("impact")], "riskAssessment", "risks.0.impact");
    assert [Key("riskAssessment")] + [Key("risks"), Index(0), Key("impact")]
        == [Key("riskAssessment"), Key("risks"), Index(0), Key("impact")];
    ImpactMiddleText();
  }

  lemma ImpactPathText()
    ensures "complianceAndRisk" + "." + "riskAssessment.risks.0.impact" == "complianceAndRisk.riskAssessment.risks.0.impact"
  {
  }

  lemma RiskImpactPath()
    ensures JoinPath([Key("complianceAndRisk"), Key("riskAssessment"), Key("risks"), Index(0), Key("impact")])
            == "complianceAndRisk.riskAssessment.risks.0.impact"
  {
    ImpactMiddlePath();
    JoinedAs(Key("complianceAndRisk"), [Key("riskAssessment"), Key("risks"), Index(0), Key("impact")],
             "complianceAndRisk", "riskAssessment.risks.0.impact");
    assert [Key("complianceAndRisk")] + [Key("riskAssessment"), Key("risks"), Index(0), Key("impact")]
        == [Key("complianceAndRisk"), Key("riskAssessment"), Key("risks"), Index(0), Key("impact")];
    ImpactPathText();
  }

  lemma StringForNumberText()
    ensures MessageText(InvalidType("string", KNumber)) == "Expected string, received number"
  {
  }

  lemma ArrayForStringText()
    ensures MessageText(InvalidType("array", KString)) == "Expected array, received string"
  {
  }

  lemma NumberForStringText()
    ensures MessageText(InvalidType("number", KString)) == "Expected number, received string"
  {
  }

  /** A document with the four kind mismatches of the invalid-types
      example, and anything else: each mismatch is reported, at its own
      path, so the validator does not stop at the first. */
  lemma InvalidTypesExample(codec: JsonCodec, m: map<string, Json>, n: real,
                            ba: map<string, Json>, bc: map<string, Json>, examples: string,
                            pd: map<string, Json>, features: seq<Json>, feature: map<string, Json>, priority: string,
                            cr: map<string, Json>, ra: map<string, Json>, risks: seq<Json>, risk: map<string, Json>,
                            impact: string)
    requires RoundTrips(codec)
    requires "productIdea" in m && m["productIdea"] == JNum(n)
    requires "businessAnalysis" in m && m["businessAnalysis"] == JObj(ba)
    requires "businessCase" in ba && ba["businessCase"] == JObj(bc)
    requires "realWorldExamples" in bc && bc["realWorldExamples"] == JStr(examples)
    requires "productDefinition" in m && m["productDefinition"] == JObj(pd)
    requires "coreFeatures" in pd && pd["coreFeatures"] == JArr(features)
    requires |features| > 0 && features[0] == JObj(feature)
    requires "priority" in feature && feature["priority"] == JStr(priority)
    requires "complianceAndRisk" in m && m["complianceAndRisk"] == JObj(cr)
    requires "riskAssessment" in cr && cr["riskAssessment"] == JObj(ra)
    requires "risks" in ra && ra["risks"] == JArr(risks)
    requires |risks| > 0 && risks[0] == JObj(risk)
    requires "impact" in risk && risk["impact"] == JStr(impact)
    ensures var errors := DocumentErrors(codec, JObj(m));
            && ErrorAt("productIdea", "Expected string, received number") in errors
            && ErrorAt("businessAnalysis.businessCase.realWorldExamples", "Expected array, received string") in errors
            && ErrorAt("productDefinition.coreFeatures.0.priority", "Expected number, received string") in errors
            && ErrorAt("complianceAndRisk.riskAssessment.risks.0.impact", "Expected number, received string") in errors
  {
    var d := JObj(m);
    StringForNumberText();
    ArrayForStringText();
    NumberForStringText();
    RealWorldExamplesPath();
    CoreFeaturePriorityPath();
    RiskImpactPath();
    RenderedAs([Key("productIdea")], InvalidType("string", KNumber),
               "productIdea", "Expected string, received number");
    RenderedAs([Key("businessAnalysis"), Key("businessCase"), Key("realWorldExamples")], InvalidType("array", KString),
               "businessAnalysis.businessCase.realWorldExamples", "Expected array, received string");
    RenderedAs([Key("productDefinition"), Key("coreFeatures"), Index(0), Key("priority")], InvalidType("number", KString),
               "productDefinition.coreFeatures.0.priority", "Expected number, received string");
    RenderedAs([Key("complianceAndRisk"), Key("riskAssessment"), Key("risks"), Index(0), Key("impact")],
               InvalidType("number", KString),
               "complianceAndRisk.riskAssessment.risks.0.impact", "Expected number, received string");
    ProductIdeaKindIssue(m, n);
    IssueReported(codec, d, Issue([Key("productIdea")], InvalidType("string", KNumber)),
                  ErrorAt("productIdea", "Expected string, received number"));
    RealWorldExamplesKindIssue(m, ba, bc, examples);
    IssueReported(codec, d, Issue([Key("businessAnalysis"), Key("businessCase"), Key("realWorldExamples")],
                                  InvalidType("array", KString)),
                  ErrorAt("businessAnalysis.businessCase.realWorldExamples", "Expected array, received string"));
    CoreFeaturePriorityKindIssue(m, pd, features, feature, priority);
    IssueReported(codec, d, Issue([Key("productDefinition"), Key("coreFeatures"), Index(0), Key("priority")],
                                  InvalidType("number", KString)),
                  ErrorAt("productDefinition.coreFeatures.0.priority", "Expected number, received string"));
    RiskImpactKindIssue(m, cr, ra, risks, risk, impact);
    IssueReported(codec, d, Issue([Key("complianceAndRisk"), Key("riskAssessment"), Key("risks"), Index(0), Key("impact")],
                                  InvalidType("number", KString)),
                  ErrorAt("complianceAndRisk.riskAssessment.risks.0.impact", "Expected number, received string"));
  }
}
