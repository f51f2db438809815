/** The hand-written presence validator that came before the schema
    registry: a fixed sequence of truthiness checks, each of which appends
    a "Missing field" message to a growing error list. No types are
    checked. */
module LegacyValidator {
  import opened JsonValues
  import opened Validation
  import Registry

  /** `{ valid: true }` carries no `errors`; `{ valid: false, errors }` does. */
  datatype LegacyResult = LegacyResult(valid: bool, errors: Option<seq<string>>)

  // ---------------------------------------------------------------------
  // The messages, one per check

  const MissingProductIdea: string := "Missing field: productIdea"
  const MissingBusinessAnalysis: string := "Missing field: businessAnalysis"
  const MissingBusinessCase: string := "Missing field: businessCase in businessAnalysis"
  const MissingRealWorldExamples: string := "Missing field: realWorldExamples in businessCase"
  const MissingMarketTrends: string := "Missing field: marketTrends in businessCase"
  const MissingCompetitorAnalysis: string := "Missing field: competitorAnalysis in businessCase"
  const MissingCustomerSegments: string := "Missing field: customerSegments in businessCase"
  const MissingFinancialProjections: string := "Missing field: financialProjections in businessCase"
  const MissingSwotAnalysis: string := "Missing field: swotAnalysis in businessAnalysis"
  const MissingBusinessModelCanvas: string := "Missing field: businessModelCanvas in businessAnalysis"
  const MissingStrategyAndPlanning: string := "Missing field: strategyAndPlanning"
  const MissingProductDefinition: string := "Missing field: productDefinition"
  const MissingTechnicalArchitecture: string := "Missing field: technicalArchitecture"
  const MissingComplianceAndRisk: string := "Missing field: complianceAndRisk"
  const MissingSystemDesign: string := "Missing field: systemDesign"
  const MissingRefinedConcept: string := "Missing field: refinedConcept"

  // ---------------------------------------------------------------------
  // The validator, as the source writes it

  /** `if (!v[key]) errors.push(message)`. */
  function Push(errors: seq<string>, v: Option<Json>, key: string, message: string): seq<string> {
    if Truthy(Get(v, key)) then errors else errors + [message]
  }

  /** The five checks on a present `businessCase`. */
  function CheckBusinessCase(errors: seq<string>, businessCase: Option<Json>): seq<string> {
    var e0 := Push(errors, businessCase, "realWorldExamples", MissingRealWorldExamples);
    var e1 := Push(e0, businessCase, "marketTrends", MissingMarketTrends);
    var e2 := Push(e1, businessCase, "competitorAnalysis", MissingCompetitorAnalysis);
    var e3 := Push(e2, businessCase, "customerSegments", MissingCustomerSegments);
    Push(e3, businessCase, "financialProjections", MissingFinancialProjections)
  }

  /** The `businessAnalysis` block: one message when it is missing, and
      otherwise the checks on its three members, descending into
      `businessCase` only when that is present. */
  function CheckBusinessAnalysis(errors: seq<string>, businessAnalysis: Option<Json>): seq<string> {
    if !Truthy(businessAnalysis) then errors + [MissingBusinessAnalysis]
    else
      var businessCase := Get(businessAnalysis, "businessCase");
      var e0 := if !Truthy(businessCase) then errors + [MissingBusinessCase]
                else CheckBusinessCase(errors, businessCase);
      var e1 := Push(e0, businessAnalysis, "swotAnalysis", MissingSwotAnalysis);
      Push(e1, businessAnalysis, "businessModelCanvas", MissingBusinessModelCanvas)
  }

  /** The six top-level checks after `businessAnalysis`. */
  function CheckTopLevel(errors: seq<string>, v: Option<Json>): seq<string> {
    var e0 := Push(errors, v, "strategyAndPlanning", MissingStrategyAndPlanning);
    var e1 := Push(e0, v, "productDefinition", MissingProductDefinition);
    var e2 := Push(e1, v, "technicalArchitecture", MissingTechnicalArchitecture);
    var e3 := Push(e2, v, "complianceAndRisk", MissingComplianceAndRisk);
    var e4 := Push(e3, v, "systemDesign", MissingSystemDesign);
    Push(e4, v, "refinedConcept", MissingRefinedConcept)
  }

  /** The messages the validator collects for a parsed value other than
      null. */
  function LegacyErrors(root: Json): seq<string> {
    var v := Some(root);
    var e0 := Push([], v, "productIdea", MissingProductIdea);
    CheckTopLevel(CheckBusinessAnalysis(e0, Get(v, "businessAnalysis")), v)
  }

  /** `validateResponse(response)`, step by step: the checks append to
      `errors` in the source's order. Text that does not parse, or parses
      to null (whose property access throws), gives the single "Invalid
      JSON format" error; otherwise the result is valid exactly when no
      check fired, and carries the messages when one did. */
  method LegacyValidate(codec: JsonCodec, response: string) returns (r: LegacyResult)
    ensures codec.parse(response).None? || codec.parse(response) == Some(JNull) ==>
              r == LegacyResult(false, Some([InvalidJsonFormat]))
    ensures codec.parse(response).Some? && codec.parse(response) != Some(JNull) ==>
              var errors := LegacyErrors(codec.parse(response).value);
              && (r.valid <==> errors == [])
              && (r.valid ==> r.errors.None?)
              && (!r.valid ==> r.errors == Some(errors))
  {
    var parsed := codec.parse(response);
    if parsed.None? || parsed.value.JNull? {
      return LegacyResult(false, Some([InvalidJsonFormat]));
    }
    var v := parsed;
    var errors: seq<string> := [];
    ghost var e0 := errors;
    if !Truthy(Get(v, "productIdea")) {
      errors := errors + [MissingProductIdea];
    }
    assert errors == Push(e0, v, "productIdea", MissingProductIdea);
    errors := CollectBusinessAnalysis(errors, Get(v, "businessAnalysis"));
    errors := CollectTopLevel(errors, v);
    assert errors == LegacyErrors(parsed.value);
    if |errors| > 0 {
      return LegacyResult(false, Some(errors));
    }
    return LegacyResult(true, None);
  }

  /** The `businessAnalysis` block of `validateResponse`, appending to
      `errors`. */
  method CollectBusinessAnalysis(errors0: seq<string>, businessAnalysis: Option<Json>) returns (errors: seq<string>)
    ensures errors == CheckBusinessAnalysis(errors0, businessAnalysis)
  {
    errors := errors0;
    if !Truthy(businessAnalysis) {
      errors := errors + [MissingBusinessAnalysis];
    } else {
      var businessCase := Get(businessAnalysis, "businessCase");
      var swotAnalysis := Get(businessAnalysis, "swotAnalysis");
      var businessModelCanvas := Get(businessAnalysis, "businessModelCanvas");
      if !Truthy(businessCase) {
        errors := errors + [MissingBusinessCase];
      } else {
        ghost var e0 := errors;
        if !Truthy(Get(businessCase, "realWorldExamples")) {
          errors := errors + [MissingRealWorldExamples];
        }
        assert errors == Push(e0, businessCase, "realWorldExamples", MissingRealWorldExamples);
        ghost var e1 := errors;
        if !Truthy(Get(businessCase, "marketTrends")) {
          errors := errors + [MissingMarketTrends];
        }
        assert errors == Push(e1, businessCase, "marketTrends", MissingMarketTrends);
        ghost var e2 := errors;
        if !Truthy(Get(businessCase, "competitorAnalysis")) {
          errors := errors + [MissingCompetitorAnalysis];
        }
        assert errors == Push(e2, businessCase, "competitorAnalysis", MissingCompetitorAnalysis);
        ghost var e3 := errors;
        if !Truthy(Get(businessCase, "customerSegments")) {
          errors := errors + [MissingCustomerSegments];
        }
        assert errors == Push(e3, businessCase, "customerSegments", MissingCustomerSegments);
        ghost var e4 := errors;
        if !Truthy(Get(businessCase, "financialProjections")) {
          errors := errors + [MissingFinancialProjections];
        }
        assert errors == Push(e4, businessCase, "financialProjections", MissingFinancialProjections);
        assert errors == CheckBusinessCase(e0, businessCase);
      }
      ghost var e5 := errors;
      if !Truthy(swotAnalysis) {
        errors := errors + [MissingSwotAnalysis];
      }
      assert errors == Push(e5, businessAnalysis, "swotAnalysis", MissingSwotAnalysis);
      ghost var e6 := errors;
      if !Truthy(businessModelCanvas) {
        errors := errors + [MissingBusinessModelCanvas];
      }
      assert errors == Push(e6, businessAnalysis, "businessModelCanvas", MissingBusinessModelCanvas);
    }
  }

  /** The six top-level checks of `validateResponse`, appending to
      `errors`. */
  method CollectTopLevel(errors0: seq<string>, v: Option<Json>) returns (errors: seq<string>)
    ensures errors == CheckTopLevel(errors0, v)
  {
    errors := errors0;
    ghost var e0 := errors;
    if !Truthy(Get(v, "strategyAndPlanning")) {
      errors := errors + [MissingStrategyAndPlanning];
    }
    assert errors == Push(e0, v, "strategyAndPlanning", MissingStrategyAndPlanning);
    ghost var e1 := errors;
    if !Truthy(Get(v, "productDefinition")) {
      errors := errors + [MissingProductDefinition];
    }
    assert errors == Push(e1, v, "productDefinition", MissingProductDefinition);
    ghost var e2 := errors;
    if !Truthy(Get(v, "technicalArchitecture")) {
      errors := errors + [MissingTechnicalArchitecture];
    }
    assert errors == Push(e2, v, "technicalArchitecture", MissingTechnicalArchitecture);
    ghost var e3 := errors;
    if !Truthy(Get(v, "complianceAndRisk")) {
      errors := errors + [MissingComplianceAndRisk];
    }
    assert errors == Push(e3, v, "complianceAndRisk", MissingComplianceAndRisk);
    ghost var e4 := errors;
    if !Truthy(Get(v, "systemDesign")) {
      errors := errors + [MissingSystemDesign];
    }
    assert errors == Push(e4, v, "systemDesign", MissingSystemDesign);
    ghost var e5 := errors;
    if !Truthy(Get(v, "refinedConcept")) {
      errors := errors + [MissingRefinedConcept];
    }
    assert errors == Push(e5, v, "refinedConcept", MissingRefinedConcept);
    assert errors == CheckTopLevel(errors0, v);
  }

  // ---------------------------------------------------------------------
  // The same checks, as a flat table of paths

  /** One presence check: the member at `path` must be truthy. */
  datatype Check = Check(path: seq<string>, message: string)

  /** The checks, in the order the validator runs them: on `productIdea`,
      on `businessAnalysis` and what is inside it, then on the six other
      top-level members. */
  const Checks: seq<Check> := [ProductIdeaCheck] + BusinessAnalysisChecks + TopLevelChecks

  const ProductIdeaCheck: Check := Check(["productIdea"], MissingProductIdea)

  const BusinessAnalysisChecks: seq<Check> := [
    Check(["businessAnalysis"], MissingBusinessAnalysis),
    Check(["businessAnalysis", "businessCase"], MissingBusinessCase),
    Check(["businessAnalysis", "businessCase", "realWorldExamples"], MissingRealWorldExamples),
    Check(["businessAnalysis", "businessCase", "marketTrends"], MissingMarketTrends),
    Check(["businessAnalysis", "businessCase", "competitorAnalysis"], MissingCompetitorAnalysis),
    Check(["businessAnalysis", "businessCase", "customerSegments"], MissingCustomerSegments),
    Check(["businessAnalysis", "businessCase", "financialProjections"], MissingFinancialProjections),
    Check(["businessAnalysis", "swotAnalysis"], MissingSwotAnalysis),
    Check(["businessAnalysis", "businessModelCanvas"], MissingBusinessModelCanvas)
  ]

  const TopLevelChecks: seq<Check> := [
    Check(["strategyAndPlanning"], MissingStrategyAndPlanning),
    Check(["productDefinition"], MissingProductDefinition),
    Check(["technicalArchitecture"], MissingTechnicalArchitecture),
    Check(["complianceAndRisk"], MissingComplianceAndRisk),
    Check(["systemDesign"], MissingSystemDesign),
    Check(["refinedConcept"], MissingRefinedConcept)
  ]

  /** A check fires: the member at `path` below `v` is missing while every
      member above it is present, presence being JavaScript truthiness. */
  predicate MissingAt(v: Option<Json>, path: seq<string>)
    decreases |path|
  {
    if |path| <= 1 then |path| == 1 && !Truthy(Get(v, path[0]))
    else Truthy(Get(v, path[0])) && MissingAt(Get(v, path[0]), path[1..])
  }

  /** Runs one check of the table on `root`. */
  function RunCheck(errors: seq<string>, root: Json, c: Check): seq<string> {
    if MissingAt(Some(root), c.path) then errors + [c.message] else errors
  }

  /** Runs the checks of a table in order, appending to `errors`. */
  function RunChecks(errors: seq<string>, root: Json, checks: seq<Check>): seq<string>
    decreases |checks|
  {
    if checks == [] then errors else RunChecks(RunCheck(errors, root, checks[0]), root, checks[1..])
  }

  /** The messages of the checks of the table that fire on `root`. */
  function Reported(root: Json): seq<string> {
    RunChecks([], root, Checks)
  }

  // ---------------------------------------------------------------------
  // What the validator promises

  /** One-, two- and three-key paths fire as their nested checks do. */
  lemma MissingAtShort(v: Option<Json>, a: string, b: string, c: string)
    ensures MissingAt(v, [a]) <==> !Truthy(Get(v, a))
    ensures MissingAt(v, [a, b]) <==> Truthy(Get(v, a)) && !Truthy(Get(Get(v, a), b))
    ensures MissingAt(v, [a, b, c]) <==>
            Truthy(Get(v, a)) && Truthy(Get(Get(v, a), b)) && !Truthy(Get(Get(Get(v, a), b), c))
  {
    assert [a, b][1..] == [b];
    assert [a, b, c][1..] == [b, c];
    assert [b, c][1..] == [c];
    assert MissingAt(Get(v, a), [b, c]) <==> Truthy(Get(Get(v, a), b)) && MissingAt(Get(Get(v, a), b), [c]);
  }

  /** Running a table split in two runs the first part, then the second. */
  lemma {:induction false} RunChecksAppend(errors: seq<string>, root: Json, a: seq<Check>, b: seq<Check>)
    ensures RunChecks(errors, root, a + b) == RunChecks(RunChecks(errors, root, a), root, b)
    decreases |a|
  {
    if a == [] {
      assert a + b == b;
    } else {
      assert (a + b)[1..] == a[1..] + b;
      RunChecksAppend(RunCheck(errors, root, a[0]), root, a[1..], b);
    }
  }

  /** A table of three checks runs them one after the other. */
  lemma RunThree(errors: seq<string>, root: Json, c0: Check, c1: Check, c2: Check)
    ensures RunChecks(errors, root, [c0, c1, c2]) ==
            RunCheck(RunCheck(RunCheck(errors, root, c0), root, c1), root, c2)
  {
    assert [c0, c1, c2][1..] == [c1, c2];
    assert [c1, c2][1..] == [c2];
    assert [c2][1..] == [];
    var e0 := RunCheck(errors, root, c0);
    var e1 := RunCheck(e0, root, c1);
    assert RunChecks(e1, root, [c2]) == RunCheck(e1, root, c2);
    assert RunChecks(e0, root, [c1, c2]) == RunChecks(e1, root, [c2]);
  }

  /** The table's `businessAnalysis` checks, run on `root`, do what the
      source's `businessAnalysis` block does. */
  lemma BusinessAnalysisBlock(errors: seq<string>, root: Json)
    ensures RunChecks(errors, root, BusinessAnalysisChecks) ==
            CheckBusinessAnalysis(errors, Get(Some(root), "businessAnalysis"))
  {
    var v := Some(root);
    var ba := Get(v, "businessAnalysis");
    var bc := Get(ba, "businessCase");
    var c := BusinessAnalysisChecks;
    assert c == [c[0], c[1], c[2]] + [c[3], c[4], c[5]] + [c[6], c[7], c[8]];
    RunChecksAppend(errors, root, [c[0], c[1], c[2]] + [c[3], c[4], c[5]], [c[6], c[7], c[8]]);
    RunChecksAppend(errors, root, [c[0], c[1], c[2]], [c[3], c[4], c[5]]);
    var e0 := RunCheck(errors, root, c[0]);
    var e1 := RunCheck(e0, root, c[1]);
    var e2 := RunCheck(e1, root, c[2]);
    RunThree(errors, root, c[0], c[1], c[2]);
    var e3 := RunCheck(e2, root, c[3]);
    var e4 := RunCheck(e3, root, c[4]);
    var e5 := RunCheck(e4, root, c[5]);
    RunThree(e2, root, c[3], c[4], c[5]);
    var e6 := RunCheck(e5, root, c[6]);
    var e7 := RunCheck(e6, root, c[7]);
    var e8 := RunCheck(e7, root, c[8]);
    RunThree(e5, root, c[6], c[7], c[8]);
    assert c[0] == Check(["businessAnalysis"], MissingBusinessAnalysis);
    assert c[1] == Check(["businessAnalysis", "businessCase"], MissingBusinessCase);
    assert c[2] == Check(["businessAnalysis", "businessCase", "realWorldExamples"], MissingRealWorldExamples);
    MissingAtShort(v, "businessAnalysis", "businessCase", "realWorldExamples");
    assert c[3] == Check(["businessAnalysis", "businessCase", "marketTrends"], MissingMarketTrends);
    MissingAtShort(v, "businessAnalysis", "businessCase", "marketTrends");
    assert c[4] == Check(["businessAnalysis", "businessCase", "competitorAnalysis"], MissingCompetitorAnalysis);
    MissingAtShort(v, "businessAnalysis", "businessCase", "competitorAnalysis");
    assert c[5] == Check(["businessAnalysis", "businessCase", "customerSegments"], MissingCustomerSegments);
    MissingAtShort(v, "businessAnalysis", "businessCase", "customerSegments");
    assert c[6] == Check(["businessAnalysis", "businessCase", "financialProjections"], MissingFinancialProjections);
    MissingAtShort(v, "businessAnalysis", "businessCase", "financialProjections");
    assert c[7] == Check(["businessAnalysis", "swotAnalysis"], MissingSwotAnalysis);
    MissingAtShort(v, "businessAnalysis", "swotAnalysis", "");
    assert c[8] == Check(["businessAnalysis", "businessModelCanvas"], MissingBusinessModelCanvas);
    MissingAtShort(v, "businessAnalysis", "businessModelCanvas", "");
    if !Truthy(ba) {
      assert e8 == e0 == errors + [MissingBusinessAnalysis];
    } else {
      assert e0 == errors;
      var b7 := Push(e6, ba, "swotAnalysis", MissingSwotAnalysis);
      assert e7 == b7;
      assert e8 == Push(b7, ba, "businessModelCanvas", MissingBusinessModelCanvas);
      if !Truthy(bc) {
        assert e6 == e1 == errors + [MissingBusinessCase];
      } else {
        assert e1 == errors;
        assert e2 == Push(e1, bc, "realWorldExamples", MissingRealWorldExamples);
        assert e3 == Push(e2, bc, "marketTrends", MissingMarketTrends);
        assert e4 == Push(e3, bc, "competitorAnalysis", MissingCompetitorAnalysis);
        assert e5 == Push(e4, bc, "customerSegments", MissingCustomerSegments);
        assert e6 == Push(e5, bc, "financialProjections", MissingFinancialProjections);
        assert e6 == CheckBusinessCase(errors, bc);
      }
    }
  }

  /** The table's six top-level checks do what the source's six top-level
      checks do. */
  lemma TopLevelBlock(errors: seq<string>, root: Json)
    ensures RunChecks(errors, root, TopLevelChecks) == CheckTopLevel(errors, Some(root))
  {
    var v := Some(root);
    var c := TopLevelChecks;
    assert c == [c[0], c[1], c[2]] + [c[3], c[4], c[5]];
    RunChecksAppend(errors, root, [c[0], c[1], c[2]], [c[3], c[4], c[5]]);
    RunThree(errors, root, c[0], c[1], c[2]);
    RunThree(RunChecks(errors, root, [c[0], c[1], c[2]]), root, c[3], c[4], c[5]);
    MissingAtShort(v, "strategyAndPlanning", "", "");
    assert c[0] == Check(["strategyAndPlanning"], MissingStrategyAndPlanning);
    var e0 := Push(errors, v, "strategyAndPlanning", MissingStrategyAndPlanning);
    assert RunCheck(errors, root, c[0]) == e0;
    MissingAtShort(v, "productDefinition", "", "");
    assert c[1] == Check(["productDefinition"], MissingProductDefinition);
    var e1 := Push(e0, v, "productDefinition", MissingProductDefinition);
    assert RunCheck(e0, root, c[1]) == e1;
    MissingAtShort(v, "technicalArchitecture", "", "");
    assert c[2] == Check(["technicalArchitecture"], MissingTechnicalArchitecture);
    var e2 := Push(e1, v, "technicalArchitecture", MissingTechnicalArchitecture);
    assert RunCheck(e1, root, c[2]) == e2;
    MissingAtShort(v, "complianceAndRisk", "", "");
    assert c[3] == Check(["complianceAndRisk"], MissingComplianceAndRisk);
    var e3 := Push(e2, v, "complianceAndRisk", MissingComplianceAndRisk);
    assert RunCheck(e2, root, c[3]) == e3;
    MissingAtShort(v, "systemDesign", "", "");
    assert c[4] == Check(["systemDesign"], MissingSystemDesign);
    var e4 := Push(e3, v, "systemDesign", MissingSystemDesign);
    assert RunCheck(e3, root, c[4]) == e4;
    MissingAtShort(v, "refinedConcept", "", "");
    assert c[5] == Check(["refinedConcept"], MissingRefinedConcept);
    var e5 := Push(e4, v, "refinedConcept", MissingRefinedConcept);
    assert RunCheck(e4, root, c[5]) == e5;
  }

  /** The validator reports exactly the checks of the table that fire, in
      table order. */
  lemma LegacyErrorsFollowChecks(root: Json)
    ensures LegacyErrors(root) == Reported(root)
  {
    RunChecksAppend([], root, [ProductIdeaCheck], BusinessAnalysisChecks);
    RunChecksAppend([], root, [ProductIdeaCheck] + BusinessAnalysisChecks, TopLevelChecks);
    assert [ProductIdeaCheck][1..] == [];
    MissingAtShort(Some(root), "productIdea", "", "");
    var e0 := RunChecks([], root, [ProductIdeaCheck]);
    BusinessAnalysisBlock(e0, root);
    TopLevelBlock(RunChecks(e0, root, BusinessAnalysisChecks), root);
  }

  /** Running checks only ever appends: what was collected before stays
      as it was, at the front. */
  lemma {:induction false} RunChecksExtends(errors: seq<string>, root: Json, checks: seq<Check>)
    ensures |RunChecks(errors, root, checks)| >= |errors|
    ensures RunChecks(errors, root, checks)[..|errors|] == errors
    decreases |checks|
  {
    if checks != [] {
      var e := RunCheck(errors, root, checks[0]);
      RunChecksExtends(e, root, checks[1..]);
      assert e[..|errors|] == errors;
    }
  }

  /** Running checks leaves the list as it was exactly when none of them
      fires. */
  lemma {:induction false} RunChecksQuiet(errors: seq<string>, root: Json, checks: seq<Check>)
    ensures RunChecks(errors, root, checks) == errors <==>
            forall k :: 0 <= k < |checks| ==> !MissingAt(Some(root), checks[k].path)
    decreases |checks|
  {
    if checks != [] {
      var e := RunCheck(errors, root, checks[0]);
      RunChecksQuiet(e, root, checks[1..]);
      RunChecksExtends(e, root, checks[1..]);
      if MissingAt(Some(root), checks[0].path) {
        assert |RunChecks(errors, root, checks)| > |errors|;
      }
      assert forall k :: 1 <= k < |checks| ==> checks[k] == checks[1..][k - 1];
    }
  }

  /** The validator finds nothing exactly when no check of the table
      fires. */
  lemma LegacyValidIff(root: Json)
    ensures LegacyErrors(root) == [] <==>
            forall k :: 0 <= k < |Checks| ==> !MissingAt(Some(root), Checks[k].path)
  {
    LegacyErrorsFollowChecks(root);
    RunChecksQuiet([], root, Checks);
  }

  /** One check appends at most one message. */
  lemma PushAtMostOne(errors: seq<string>, v: Option<Json>, key: string, message: string)
    ensures |errors| <= |Push(errors, v, key, message)| <= |errors| + 1
  {
  }

  /** There are sixteen checks, but a missing `businessAnalysis` silences
      the eight below it and a missing `businessCase` the five below that,
      so at most fourteen messages are ever collected. */
  lemma LegacyErrorsBound(root: Json)
    ensures |LegacyErrors(root)| <= 14
  {
    var v := Some(root);
    var ba := Get(v, "businessAnalysis");
    var bc := Get(ba, "businessCase");
    var e0 := Push([], v, "productIdea", MissingProductIdea);
    PushAtMostOne([], v, "productIdea", MissingProductIdea);
    var e1 := CheckBusinessAnalysis(e0, ba);
    if Truthy(ba) {
      var c0 := if !Truthy(bc) then e0 + [MissingBusinessCase] else CheckBusinessCase(e0, bc);
      if Truthy(bc) {
        var b0 := Push(e0, bc, "realWorldExamples", MissingRealWorldExamples);
        var b1 := Push(b0, bc, "marketTrends", MissingMarketTrends);
        var b2 := Push(b1, bc, "competitorAnalysis", MissingCompetitorAnalysis);
        var b3 := Push(b2, bc, "customerSegments", MissingCustomerSegments);
        PushAtMostOne(e0, bc, "realWorldExamples", MissingRealWorldExamples);
        PushAtMostOne(b0, bc, "marketTrends", MissingMarketTrends);
        PushAtMostOne(b1, bc, "competitorAnalysis", MissingCompetitorAnalysis);
        PushAtMostOne(b2, bc, "customerSegments", MissingCustomerSegments);
        PushAtMostOne(b3, bc, "financialProjections", MissingFinancialProjections);
      }
      assert |c0| <= |e0| + 5;
      var s0 := Push(c0, ba, "swotAnalysis", MissingSwotAnalysis);
      PushAtMostOne(c0, ba, "swotAnalysis", MissingSwotAnalysis);
      PushAtMostOne(s0, ba, "businessModelCanvas", MissingBusinessModelCanvas);
    }
    assert |e1| <= |e0| + 7;
    var t0 := Push(e1, v, "strategyAndPlanning", MissingStrategyAndPlanning);
    var t1 := Push(t0, v, "productDefinition", MissingProductDefinition);
    var t2 := Push(t1, v, "technicalArchitecture", MissingTechnicalArchitecture);
    var t3 := Push(t2, v, "complianceAndRisk", MissingComplianceAndRisk);
    var t4 := Push(t3, v, "systemDesign", MissingSystemDesign);
    PushAtMostOne(e1, v, "strategyAndPlanning", MissingStrategyAndPlanning);
    PushAtMostOne(t0, v, "productDefinition", MissingProductDefinition);
    PushAtMostOne(t1, v, "technicalArchitecture", MissingTechnicalArchitecture);
    PushAtMostOne(t2, v, "complianceAndRisk", MissingComplianceAndRisk);
    PushAtMostOne(t3, v, "systemDesign", MissingSystemDesign);
    PushAtMostOne(t4, v, "refinedConcept", MissingRefinedConcept);
  }

  /** A document holding nothing but an empty `businessCase` draws all
      fourteen messages: the bound is reached. */
  lemma LegacyErrorsBoundReached()
    ensures |LegacyErrors(JObj(map["businessAnalysis" := JObj(map["businessCase" := EmptyObject])]))| == 14
  {
  }

  /** A check on a path never fires below a member that is missing: the
      validator does not descend into what is absent. */
  lemma {:induction false} MissingParentSilences(v: Option<Json>, parent: seq<string>, below: seq<string>)
    requires |parent| > 0 && |below| > 0
    requires !Truthy(At(v, parent))
    ensures !MissingAt(v, parent + below)
    decreases |parent|
  {
    var path := parent + below;
    assert path[0] == parent[0];
    assert path[1..] == parent[1..] + below;
    if |parent| == 1 {
      AtOne(v, parent[0]);
      assert parent == [parent[0]];
    } else {
      MissingParentSilences(Get(v, parent[0]), parent[1..], below);
    }
  }

  /** `null`, `false`, `0` and `""` count as missing: a `productIdea` with
      any of them draws the first message. */
  lemma FalsyIsMissing(root: Json, x: Json)
    requires Get(Some(root), "productIdea") == Some(x)
    requires x in {JNull, JBool(false), JNum(0.0), JStr("")}
    ensures |LegacyErrors(root)| > 0 && LegacyErrors(root)[0] == MissingProductIdea
  {
    LegacyErrorsFollowChecks(root);
    var rest := BusinessAnalysisChecks + TopLevelChecks;
    assert Checks == [ProductIdeaCheck] + rest;
    RunChecksAppend([], root, [ProductIdeaCheck], rest);
    MissingAtShort(Some(root), "productIdea", "", "");
    assert [ProductIdeaCheck][1..] == [];
    assert RunChecks([], root, [ProductIdeaCheck]) == [MissingProductIdea];
    RunChecksExtends([MissingProductIdea], root, rest);
  }

  /** A document whose every checked member is an empty array or an empty
      object, with an array where the product idea belongs: the legacy
      validator accepts it, since empty containers are truthy and no type
      is checked, and the schema registry rejects it. */
  const HollowDocument: Json := JObj(map[
    "productIdea" := JArr([]),
    "businessAnalysis" := HollowBusinessAnalysis,
    "strategyAndPlanning" := EmptyObject,
    "productDefinition" := JArr([]),
    "technicalArchitecture" := EmptyObject,
    "complianceAndRisk" := JArr([]),
    "systemDesign" := EmptyObject,
    "refinedConcept" := JArr([])])

  const HollowBusinessAnalysis: Json := JObj(map[
    "businessCase" := HollowBusinessCase,
    "swotAnalysis" := EmptyObject,
    "businessModelCanvas" := JArr([])])

  const HollowBusinessCase: Json := JObj(map[
    "realWorldExamples" := JArr([]),
    "marketTrends" := EmptyObject,
    "competitorAnalysis" := JArr([]),
    "customerSegments" := EmptyObject,
    "financialProjections" := JArr([])])

  lemma HollowDocumentPasses()
    ensures LegacyErrors(HollowDocument) == []
  {
    var v := Some(HollowDocument);
    assert Get(v, "productIdea") == Some(JArr([]));
    assert Get(v, "businessAnalysis") == Some(HollowBusinessAnalysis);
    HollowBusinessAnalysisPasses();
    assert Get(v, "strategyAndPlanning") == Some(EmptyObject);
    assert Get(v, "productDefinition") == Some(JArr([]));
    assert Get(v, "technicalArchitecture") == Some(EmptyObject);
    assert Get(v, "complianceAndRisk") == Some(JArr([]));
    assert Get(v, "systemDesign") == Some(EmptyObject);
    assert Get(v, "refinedConcept") == Some(JArr([]));
  }

  lemma HollowBusinessAnalysisPasses()
    ensures CheckBusinessAnalysis([], Some(HollowBusinessAnalysis)) == []
  {
    var ba := Some(HollowBusinessAnalysis);
    assert Get(ba, "businessCase") == Some(HollowBusinessCase);
    var bc := Some(HollowBusinessCase);
    assert Truthy(Get(bc, "realWorldExamples")) && Truthy(Get(bc, "marketTrends"))
      && Truthy(Get(bc, "competitorAnalysis")) && Truthy(Get(bc, "customerSegments"))
      && Truthy(Get(bc, "financialProjections"));
    assert Truthy(Get(ba, "swotAnalysis")) && Truthy(Get(ba, "businessModelCanvas"));
  }

  lemma HollowDocumentRejectedBySchema()
    ensures !Conforms(HollowDocument, Registry.ProductAnalysisSchema)
  {
    var schema := Registry.ProductAnalysisSchema;
    assert schema.fields[0] == Field("productIdea", SString);
    assert HollowDocument.fields["productIdea"] == JArr([]);
    assert !FieldConforms(HollowDocument.fields, schema.fields[0], schema);
  }
}
