/** The schema registry: every schema of a product-analysis document, as
    constant values of the closed schema language. Field order is the
    declaration order; it fixes the order in which issues are reported. */
module Registry {
  import opened JsonValues
  import opened Validation

  const StringList: Schema := SArray(SString)

  const FinancialProjectionsSchema: Schema := SObject([
    Field("costs", SString),
    Field("revenues", SString),
    Field("profitability", SString)
  ])

  const BusinessCaseSchema: Schema := SObject([
    Field("realWorldExamples", StringList),
    Field("marketTrends", SString),
    Field("competitorAnalysis", SString),
    Field("customerSegments", SString),
    Field("financialProjections", FinancialProjectionsSchema)
  ])

  const SWOTAnalysisSchema: Schema := SObject([
    Field("tableFormat", SString),
    Field("strengths", StringList),
    Field("weaknesses", StringList),
    Field("opportunities", StringList),
    Field("threats", StringList)
  ])

  const BusinessModelCanvasSchema: Schema := SObject([
    Field("keyPartners", StringList),
    Field("keyActivities", StringList),
    Field("valuePropositions", StringList),
    Field("customerRelationships", StringList),
    Field("customerSegments", StringList),
    Field("keyResources", StringList),
    Field("channels", StringList),
    Field("costStructure", StringList),
    Field("revenueStreams", StringList)
  ])

  const BusinessAnalysisSchema: Schema := SObject([
    Field("businessCase", BusinessCaseSchema),
    Field("swotAnalysis", SWOTAnalysisSchema),
    Field("businessModelCanvas", BusinessModelCanvasSchema)
  ])

  const RoadmapSchema: Schema := SObject([
    Field("milestones", StringList),
    Field("timelines", StringList)
  ])

  const LongTermStrategySchema: Schema := SObject([
    Field("growthOpportunities", StringList),
    Field("potentialChallenges", StringList),
    Field("marketPositioning", SString),
    Field("roadmap", RoadmapSchema)
  ])

  const WorkshopTopicSchema: Schema := SObject([
    Field("topic", SString),
    Field("likelyAnswer", SString)
  ])

  const DiscoveryWorkshopsSchema: Schema := SObject([
    Field("areasNeedingWork", StringList),
    Field("workshopTopics", SArray(WorkshopTopicSchema))
  ])

  const StrategyAndPlanningSchema: Schema := SObject([
    Field("longTermStrategy", LongTermStrategySchema),
    Field("discoveryWorkshops", DiscoveryWorkshopsSchema)
  ])

  const CoreFeatureSchema: Schema := SArray(SObject([
    Field("feature", SString),
    Field("priority", SNumber)
  ]))

  const PriorityLevelSchema: Schema := SEnum(["Low", "Medium", "High"])

  const UserStorySchema: Schema := SArray(SObject([
    Field("title", SString),
    Field("description", SString),
    Field("acceptanceCriteria", StringList),
    Field("priority", PriorityLevelSchema),
    Field("estimatedEffort", SString)
  ]))

  const ProductDefinitionSchema: Schema := SObject([
    Field("coreFeatures", CoreFeatureSchema),
    Field("userStories", UserStorySchema)
  ])

  const ComponentSchema: Schema := SObject([
    Field("name", SString),
    Field("description", SString)
  ])

  const ArchitectureSchema: Schema := SObject([
    Field("diagram", SString),
    Field("components", SArray(ComponentSchema)),
    Field("interactions", StringList)
  ])

  const TechStackRecommendationSchema: Schema := SArray(SObject([
    Field("technology", SString),
    Field("pros", StringList),
    Field("cons", StringList),
    Field("alternatives", StringList)
  ]))

  /** The three wrapper schemas exist only in the TypeScript source. */
  const CoreFeatureWrapperSchema: Schema := SObject([Field("coreFeatures", CoreFeatureSchema)])

  const UserStoryWrapperSchema: Schema := SObject([Field("userStories", UserStorySchema)])

  const TechStackRecommendationWrapperSchema: Schema :=
    SObject([Field("techStackRecommendations", TechStackRecommendationSchema)])

  const TechnicalArchitectureSchema: Schema := SObject([
    Field("architecture", ArchitectureSchema),
    Field("techStackRecommendations", TechStackRecommendationSchema)
  ])

  const RegulatoryComplianceSchema: Schema := SObject([
    Field("requirements", StringList),
    Field("complianceSteps", StringList)
  ])

  const RiskSchema: Schema := SObject([
    Field("description", SString),
    Field("impact", SNumber),
    Field("likelihood", SNumber),
    Field("mitigationStrategy", SString)
  ])

  const RiskAssessmentSchema: Schema := SObject([Field("risks", SArray(RiskSchema))])

  const ComplianceAndRiskSchema: Schema := SObject([
    Field("regulatoryCompliance", RegulatoryComplianceSchema),
    Field("riskAssessment", RiskAssessmentSchema)
  ])

  const IntegrationAndInteroperabilitySchema: Schema := SObject([
    Field("integrationPoints", StringList),
    Field("dataConsistencyMeasures", StringList)
  ])

  const ScalabilityAndPerformanceSchema: Schema := SObject([
    Field("requirements", StringList),
    Field("scalingSolutions", StringList)
  ])

  const SecurityConsiderationsSchema: Schema := SObject([
    Field("potentialThreats", StringList),
    Field("securityMeasures", StringList)
  ])

  const SystemDesignSchema: Schema := SObject([
    Field("integrationAndInteroperability", IntegrationAndInteroperabilitySchema),
    Field("scalabilityAndPerformance", ScalabilityAndPerformanceSchema),
    Field("securityConsiderations", SecurityConsiderationsSchema)
  ])

  const RefinedConceptSchema: Schema := SObject([
    Field("improvements", StringList),
    Field("justification", SString)
  ])

  /** The whole document. `productDefinition` and `technicalArchitecture`
      are written inline in the source, with the same fields as the named
      schemas. */
  const ProductAnalysisSchema: Schema := SObject([
    Field("productIdea", SString),
    Field("businessAnalysis", BusinessAnalysisSchema),
    Field("strategyAndPlanning", StrategyAndPlanningSchema),
    Field("productDefinition", SObject([
      Field("coreFeatures", CoreFeatureSchema),
      Field("userStories", UserStorySchema)
    ])),
    Field("technicalArchitecture", SObject([
      Field("architecture", ArchitectureSchema),
      Field("techStackRecommendations", TechStackRecommendationSchema)
    ])),
    Field("complianceAndRisk", ComplianceAndRiskSchema),
    Field("systemDesign", SystemDesignSchema),
    Field("refinedConcept", RefinedConceptSchema)
  ])

  /** The schemas the fifteen sections are fetched against, in fetch order. */
  const SectionSchemas: seq<Schema> := [
    BusinessCaseSchema, SWOTAnalysisSchema, BusinessModelCanvasSchema,
    LongTermStrategySchema, DiscoveryWorkshopsSchema,
    CoreFeatureSchema, UserStorySchema,
    ArchitectureSchema, TechStackRecommendationSchema,
    RegulatoryComplianceSchema, RiskAssessmentSchema,
    IntegrationAndInteroperabilitySchema, ScalabilityAndPerformanceSchema, SecurityConsiderationsSchema,
    RefinedConceptSchema
  ]

  // ---------------------------------------------------------------------
  // Facts about the registry

  /** A user story's priority accepts exactly "Low", "Medium" and "High". */
  lemma PriorityLevels(j: Json)
    ensures Conforms(j, PriorityLevelSchema) <==>
            j == JStr("Low") || j == JStr("Medium") || j == JStr("High")
    ensures UserStorySchema.item.fields[3] == Field("priority", PriorityLevelSchema)
  {
  }

  /** coreFeatures, userStories and techStackRecommendations are arrays of
      objects; every other section schema is an object with at least one
      required field. */
  lemma SectionShapes()
    ensures |SectionSchemas| == 15
    ensures forall i :: 0 <= i < 15 ==>
      if i in {5, 6, 8} then SectionSchemas[i].SArray? && SectionSchemas[i].item.SObject?
      else SectionSchemas[i].SObject? && |SectionSchemas[i].fields| >= 1
  {
  }

  /** `{}` conforms to no section schema: an array schema rejects an
      object, and every object section has a required field. */
  lemma EmptyObjectRejectedBySections(i: nat)
    requires i < |SectionSchemas|
    ensures !Conforms(EmptyObject, SectionSchemas[i])
  {
    var s := SectionSchemas[i];
    if s.SObject? {
      assert !FieldConforms(map[], s.fields[0], s);
    }
  }

  /** The document schema has exactly the eight fields, in this order, and
      its sub-schemas are the very section schemas the sections are
      fetched against. */
  lemma ProductAnalysisShape()
    ensures ProductAnalysisSchema.SObject? && |ProductAnalysisSchema.fields| == 8
    ensures ProductAnalysisSchema.fields[0] == Field("productIdea", SString)
    ensures ProductAnalysisSchema.fields[1] == Field("businessAnalysis", BusinessAnalysisSchema)
    ensures BusinessAnalysisSchema == SObject(
      [Field("businessCase", SectionSchemas[0]), Field("swotAnalysis", SectionSchemas[1]),
       Field("businessModelCanvas", SectionSchemas[2])])
    ensures ProductAnalysisSchema.fields[2] == Field("strategyAndPlanning", StrategyAndPlanningSchema)
    ensures StrategyAndPlanningSchema == SObject(
      [Field("longTermStrategy", SectionSchemas[3]), Field("discoveryWorkshops", SectionSchemas[4])])
    ensures ProductAnalysisSchema.fields[3] == Field("productDefinition", ProductDefinitionSchema)
    ensures ProductDefinitionSchema == SObject(
      [Field("coreFeatures", SectionSchemas[5]), Field("userStories", SectionSchemas[6])])
    ensures ProductAnalysisSchema.fields[4] == Field("technicalArchitecture", TechnicalArchitectureSchema)
    ensures TechnicalArchitectureSchema == SObject(
      [Field("architecture", SectionSchemas[7]), Field("techStackRecommendations", SectionSchemas[8])])
    ensures ProductAnalysisSchema.fields[5] == Field("complianceAndRisk", ComplianceAndRiskSchema)
    ensures ComplianceAndRiskSchema == SObject(
      [Field("regulatoryCompliance", SectionSchemas[9]), Field("riskAssessment", SectionSchemas[10])])
    ensures ProductAnalysisSchema.fields[6] == Field("systemDesign", SystemDesignSchema)
    ensures SystemDesignSchema == SObject(
      [Field("integrationAndInteroperability", SectionSchemas[11]),
       Field("scalabilityAndPerformance", SectionSchemas[12]),
       Field("securityConsiderations", SectionSchemas[13])])
    ensures ProductAnalysisSchema.fields[7] == Field("refinedConcept", SectionSchemas[14])
  {
  }

  /** No field of the document schema, at any depth, has an empty name, so
      every error about a document is path-qualified unless it is about
      the whole document. */
  lemma ProductAnalysisWellNamed()
    ensures WellNamed(ProductAnalysisSchema)
  {
    BusinessAnalysisWellNamed();
    StrategyAndPlanningWellNamed();
    ProductDefinitionWellNamed();
    TechnicalArchitectureWellNamed();
    ComplianceAndRiskWellNamed();
    SystemDesignWellNamed();
    ObjectWellNamed(RefinedConceptSchema.fields);
    ObjectWellNamed(ProductAnalysisSchema.fields);
  }

  lemma BusinessAnalysisWellNamed()
    ensures WellNamed(BusinessAnalysisSchema)
  {
    ObjectWellNamed(FinancialProjectionsSchema.fields);
    ObjectWellNamed(BusinessCaseSchema.fields);
    ObjectWellNamed(SWOTAnalysisSchema.fields);
    ObjectWellNamed(BusinessModelCanvasSchema.fields);
    ObjectWellNamed(BusinessAnalysisSchema.fields);
  }

  lemma StrategyAndPlanningWellNamed()
    ensures WellNamed(StrategyAndPlanningSchema)
  {
    ObjectWellNamed(RoadmapSchema.fields);
    ObjectWellNamed(LongTermStrategySchema.fields);
    ObjectWellNamed(WorkshopTopicSchema.fields);
    ObjectWellNamed(DiscoveryWorkshopsSchema.fields);
    ObjectWellNamed(StrategyAndPlanningSchema.fields);
  }

  lemma ProductDefinitionWellNamed()
    ensures WellNamed(ProductDefinitionSchema)
  {
    ObjectWellNamed(CoreFeatureSchema.item.fields);
    ObjectWellNamed(UserStorySchema.item.fields);
    ObjectWellNamed(ProductDefinitionSchema.fields);
  }

  lemma TechnicalArchitectureWellNamed()
    ensures WellNamed(TechnicalArchitectureSchema)
  {
    ObjectWellNamed(ComponentSchema.fields);
    ObjectWellNamed(ArchitectureSchema.fields);
    ObjectWellNamed(TechStackRecommendationSchema.item.fields);
    ObjectWellNamed(TechnicalArchitectureSchema.fields);
  }

  lemma ComplianceAndRiskWellNamed()
    ensures WellNamed(ComplianceAndRiskSchema)
  {
    ObjectWellNamed(RegulatoryComplianceSchema.fields);
    ObjectWellNamed(RiskSchema.fields);
    ObjectWellNamed(RiskAssessmentSchema.fields);
    ObjectWellNamed(ComplianceAndRiskSchema.fields);
  }

  lemma SystemDesignWellNamed()
    ensures WellNamed(SystemDesignSchema)
  {
    ObjectWellNamed(IntegrationAndInteroperabilitySchema.fields);
    ObjectWellNamed(ScalabilityAndPerformanceSchema.fields);
    ObjectWellNamed(SecurityConsiderationsSchema.fields);
    ObjectWellNamed(SystemDesignSchema.fields);
  }
}
