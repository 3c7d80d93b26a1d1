/** The current face extractor plugin: configuration-time validation that
    publishes the fixed output schema, the submission-time gate, and the
    per-record transform. */
module FaceExtractorPlugin {
  import opened Wrappers
  import opened Schemas
  import opened Failures
  import opened Pipeline
  import opened FaceData
  import FaceMapper
  import opened FaceExtractorConfig

  /** Whether `configurePipeline` publishes the output schema: it does unless
      validation threw first. A field of the wrong type is only recorded as a
      failure, so the schema is still published for it. */
  predicate PublishesSchema(sourceFieldName: Option<string>, inputSchema: Option<Schema>)
    ensures PublishesSchema(sourceFieldName, inputSchema) <==>
      inputSchema.Some? && GetField(inputSchema.value, sourceFieldName).Some?
  {
    !Validation(sourceFieldName, inputSchema).throws
  }

  /** A present source field of the wrong type: one failure on the source-field
      property is recorded, and the output schema is published anyway. */
  lemma WrongTypeStillPublishes(sourceFieldName: Option<string>, inputSchema: Schema)
    requires GetField(inputSchema, sourceFieldName).Some?
    requires !IsImageBytes(GetField(inputSchema, sourceFieldName).value.schema)
    ensures PublishesSchema(sourceFieldName, Some(inputSchema))
    ensures var v := Validation(sourceFieldName, Some(inputSchema));
      |v.failures| == 1 && v.failures[0].configProperty == Some(SourceFieldName)
  {
    RejectionIsOneFailure(sourceFieldName, Some(inputSchema));
  }

  class AzureFaceExtractor {
    const config: AzureFaceExtractorConfig

    constructor (config: AzureFaceExtractorConfig)
      ensures this.config == config
    {
      this.config := config;
    }

    /** `configurePipeline`: validate against the stage's input schema into the
        stage's collector; if validation did not throw, publish the output schema. */
    method ConfigurePipeline(configurer: StageConfigurer) returns (outcome: Outcome<ValidationException>)
      modifies configurer, configurer.collector
      ensures configurer.collector.failures ==
        old(configurer.collector.failures) + Validation(config.sourceFieldName, configurer.inputSchema).failures
      ensures outcome.Pass? <==> PublishesSchema(config.sourceFieldName, configurer.inputSchema)
      ensures outcome.Fail? ==> outcome.error.failures == configurer.collector.failures
      ensures configurer.outputSchema ==
        if outcome.Fail? then old(configurer.outputSchema)
        else Some(OutputSchema)
    {
      outcome := config.Validate(configurer.collector, configurer.inputSchema);
      if outcome.Fail? {
        return;
      }
      configurer.SetOutputSchema(OutputSchema);
    }

    /** `prepareRun`: validate into the context's collector, then throw if the
        collector holds any failure. With an empty collector to begin with, the
        run goes ahead exactly when the source field holds image bytes. */
    method PrepareRun(context: SubmitterContext) returns (outcome: Outcome<ValidationException>)
      modifies context.collector
      ensures context.collector.failures ==
        old(context.collector.failures) + Validation(config.sourceFieldName, context.inputSchema).failures
      ensures outcome.Fail? <==> context.collector.failures != []
      ensures outcome.Fail? ==> outcome.error.failures == context.collector.failures
      ensures old(context.collector.failures) == [] ==>
        (outcome.Pass? <==> Accepts(config.sourceFieldName, context.inputSchema))
    {
      outcome := config.Validate(context.collector, context.inputSchema);
      if outcome.Fail? {
        return;
      }
      var thrown, e := context.collector.GetOrThrowException();
      outcome := if thrown then Fail(e) else Pass;
    }

    /** `transform`: the record mapping with this configuration's source field
        and error flag. */
    method Transform(input: FaceMapper.InputRecord, faces: FaceMapper.Call<seq<Face>>,
                     emotions: FaceMapper.Call<seq<Emotion>>, emitter: FaceMapper.Emitter)
      returns (outcome: Outcome<FaceMapper.Error>)
      modifies emitter
      ensures emitter.emitted == old(emitter.emitted) +
        FaceMapper.Transform(input, config.sourceFieldName, config.continueOnError, faces, emotions).emitted
      ensures outcome ==
        FaceMapper.Completion(FaceMapper.Transform(input, config.sourceFieldName, config.continueOnError, faces, emotions))
    {
      outcome := FaceMapper.TransformRecord(
        input, config.GetSourceFieldName(), config.GetContinueOnError(), faces, emotions, emitter);
    }
  }
}
