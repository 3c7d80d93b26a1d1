/** The legacy face extractor plugin: a configuration whose validation throws
    an illegal-argument error at the first problem it meets, a
    `configurePipeline` that publishes the output schema only when validation
    passes, and the same per-record transform as the current plugin. */
module LegacyFaceExtractor {
  import opened Wrappers
  import opened Schemas
  import opened Pipeline
  import opened FaceData
  import FaceMapper
  import FaceExtractorConfig

  /** The illegal-argument errors of the legacy `validate`, with what each
      message reports. */
  datatype ConfigError =
    | NoInputSchema                   // the input schema could not be obtained
    | FieldNotPresent(input: Schema)  // the message prints the whole input schema
    | NotSimple(actual: SchemaType)   // the field's own type
    | NotBytes(actual: SchemaType)    // the field's own type, before any unwrapping

  /** What the legacy `validate` decides: it passes exactly for a present field
      whose type, once a nullable wrapper is removed, is BYTES; logical types
      are not looked at. */
  function LegacyValidation(sourceFieldName: Option<string>, inputSchema: Option<Schema>): (o: Outcome<ConfigError>)
    ensures o.Pass? <==>
      && inputSchema.Some? && GetField(inputSchema.value, sourceFieldName).Some?
      && TypeOf(Unwrap(GetField(inputSchema.value, sourceFieldName).value.schema)) == BytesType
    ensures o == Fail(NoInputSchema) <==> inputSchema.None?
    ensures o.Fail? && o.error.FieldNotPresent? <==>
      inputSchema.Some? && GetField(inputSchema.value, sourceFieldName).None?
    ensures o.Fail? && o.error.NotSimple? <==>
      && inputSchema.Some? && GetField(inputSchema.value, sourceFieldName).Some?
      && !IsSimpleOrNullableSimple(GetField(inputSchema.value, sourceFieldName).value.schema)
    ensures o.Fail? && o.error.NotBytes? <==>
      && inputSchema.Some? && GetField(inputSchema.value, sourceFieldName).Some?
      && IsSimpleOrNullableSimple(GetField(inputSchema.value, sourceFieldName).value.schema)
      && TypeOf(Unwrap(GetField(inputSchema.value, sourceFieldName).value.schema)) != BytesType
    ensures o.Fail? && (o.error.NotSimple? || o.error.NotBytes?) ==>
      && inputSchema.Some? && GetField(inputSchema.value, sourceFieldName).Some?
      && o.error.actual == TypeOf(GetField(inputSchema.value, sourceFieldName).value.schema)
  {
    if inputSchema.None? then Fail(NoInputSchema)
    else
      match GetField(inputSchema.value, sourceFieldName)
      case None => Fail(FieldNotPresent(inputSchema.value))
      case Some(field) =>
        if !IsSimpleOrNullableSimple(field.schema) then Fail(NotSimple(TypeOf(field.schema)))
        else if TypeOf(Unwrap(field.schema)) != BytesType then Fail(NotBytes(TypeOf(field.schema)))
        else Pass
  }

  /** The current validator throws exactly when the legacy one fails for a
      missing schema or a missing field. The legacy one also throws on type
      errors, which the current one only records. The legacy one accepts
      exactly what the current one accepts plus BYTES fields that carry a
      logical type. */
  lemma ValidatorsDifferOnlyOnLogicalTypes(sourceFieldName: Option<string>, inputSchema: Option<Schema>)
    ensures var v := FaceExtractorConfig.Validation(sourceFieldName, inputSchema);
      var o := LegacyValidation(sourceFieldName, inputSchema);
      && (v.throws <==> o.Fail? && (o.error.NoInputSchema? || o.error.FieldNotPresent?))
      && (o.Pass? <==>
           || v.failures == []
           || (&& inputSchema.Some? && GetField(inputSchema.value, sourceFieldName).Some?
               && var u := Unwrap(GetField(inputSchema.value, sourceFieldName).value.schema);
               TypeOf(u) == BytesType && LogicalTypeOf(u).Some?))
  {
  }

  /** A present BYTES field with a logical type (a decimal, say): the legacy
      validator lets it through, the current one records a failure. */
  lemma LogicalBytesAcceptedOnlyByLegacy(recordName: string, fields: seq<Field>, k: nat)
    requires k < |fields| && forall j :: 0 <= j < k ==> fields[j].name != fields[k].name
    requires TypeOf(Unwrap(fields[k].schema)) == BytesType && LogicalTypeOf(Unwrap(fields[k].schema)).Some?
    ensures LegacyValidation(Some(fields[k].name), Some(RecordOf(recordName, fields))) == Pass
    ensures FaceExtractorConfig.Validation(Some(fields[k].name), Some(RecordOf(recordName, fields))).failures != []
  {
    FindFieldFirst(fields, fields[k].name, k);
  }

  /** The decimal field of the configuration tests' schema is such a field. */
  lemma DecimalAcceptedOnlyByLegacy()
    ensures LegacyValidation(Some("decimal"), Some(FaceExtractorConfig.TestSchema)) == Pass
    ensures FaceExtractorConfig.Validation(Some("decimal"), Some(FaceExtractorConfig.TestSchema)).failures != []
  {
    var fields := FaceExtractorConfig.TestSchema.fields;
    LogicalBytesAcceptedOnlyByLegacy("people", fields, 3);
  }

  /** A nullable field of another simple type is rejected with the type of the
      wrapper, UNION, in the message rather than the type it wraps. */
  lemma NullableReportsUnion(recordName: string, fields: seq<Field>, k: nat)
    requires k < |fields| && forall j :: 0 <= j < k ==> fields[j].name != fields[k].name
    requires IsNullable(fields[k].schema)
    requires TypeOf(NonNullable(fields[k].schema)).IsSimple() && TypeOf(NonNullable(fields[k].schema)) != BytesType
    ensures LegacyValidation(Some(fields[k].name), Some(RecordOf(recordName, fields))) == Fail(NotBytes(UnionType))
  {
    FindFieldFirst(fields, fields[k].name, k);
  }

  /** The record schema of the legacy plugin tests: one field, an array of strings. */
  const InvalidInput := RecordOf("input", [Field("a", ArrayOf(Of(StringType)))])

  /** The legacy plugin tests: `body` is not in the schema, and `a` is not of a
      simple type; both make `configurePipeline` throw. The current validator
      throws for the first and only records a failure for the second. */
  lemma LegacyTestCases()
    ensures LegacyValidation(Some("body"), Some(InvalidInput)) == Fail(FieldNotPresent(InvalidInput))
    ensures LegacyValidation(Some("a"), Some(InvalidInput)) == Fail(NotSimple(ArrayType))
    ensures FaceExtractorConfig.Validation(Some("body"), Some(InvalidInput)).throws
    ensures !FaceExtractorConfig.Validation(Some("a"), Some(InvalidInput)).throws
  {
    assert InvalidInput.fields[0].name != "body";
    FindFieldFirst(InvalidInput.fields, "a", 0);
  }

  class Config {
    const sourceFieldName: Option<string>
    var continueOnError: Option<bool>
    var facesSubscriptionKey: Option<string>
    var emotionSubscriptionKey: Option<string>

    constructor (sourceFieldName: Option<string>, continueOnError: Option<bool>,
                 facesSubscriptionKey: Option<string>, emotionSubscriptionKey: Option<string>)
      ensures this.sourceFieldName == sourceFieldName && this.continueOnError == continueOnError
      ensures this.facesSubscriptionKey == facesSubscriptionKey
      ensures this.emotionSubscriptionKey == emotionSubscriptionKey
    {
      this.sourceFieldName := sourceFieldName;
      this.continueOnError := continueOnError;
      this.facesSubscriptionKey := facesSubscriptionKey;
      this.emotionSubscriptionKey := emotionSubscriptionKey;
    }

    /** `validate(inputSchema)`: the checks in the order `Config.validate`
        makes them, the first one that fails throwing. */
    method Validate(inputSchema: Option<Schema>) returns (outcome: Outcome<ConfigError>)
      ensures outcome == LegacyValidation(sourceFieldName, inputSchema)
    {
      if inputSchema.None? {
        return Fail(NoInputSchema);
      }
      var field := GetField(inputSchema.value, sourceFieldName);
      if field.None? {
        return Fail(FieldNotPresent(inputSchema.value));
      }
      var schema := field.value.schema;
      if !IsSimpleOrNullableSimple(schema) {
        return Fail(NotSimple(TypeOf(schema)));
      }
      var fieldType := TypeOf(schema);
      if IsNullable(schema) {
        fieldType := TypeOf(NonNullable(schema));
      }
      if fieldType != BytesType {
        return Fail(NotBytes(TypeOf(schema)));
      }
      return Pass;
    }
  }

  class AzureFaceExtractor {
    const config: Config

    constructor (config: Config)
      ensures this.config == config
    {
      this.config := config;
    }

    /** `configurePipeline`: validate, and publish the output schema only if
        validation did not throw. The stage's failure collector is not used. */
    method ConfigurePipeline(configurer: StageConfigurer) returns (outcome: Outcome<ConfigError>)
      modifies configurer
      ensures outcome == LegacyValidation(config.sourceFieldName, configurer.inputSchema)
      ensures configurer.outputSchema ==
        if outcome.Pass? then Some(OutputSchema) else old(configurer.outputSchema)
    {
      outcome := config.Validate(configurer.inputSchema);
      if outcome.Fail? {
        return;
      }
      configurer.SetOutputSchema(OutputSchema);
    }

    /** `transform`: the same record mapping as the current plugin, reading the
        configuration's fields directly. */
    method Transform(input: FaceMapper.InputRecord, faces: FaceMapper.Call<seq<Face>>,
                     emotions: FaceMapper.Call<seq<Emotion>>, emitter: FaceMapper.Emitter)
      returns (outcome: Outcome<FaceMapper.Error>)
      modifies emitter
      ensures emitter.emitted == old(emitter.emitted) +
        FaceMapper.Transform(input, config.sourceFieldName, config.continueOnError, faces, emotions).emitted
      ensures outcome ==
        FaceMapper.Completion(FaceMapper.Transform(input, config.sourceFieldName, config.continueOnError, faces, emotions))
    {
      outcome := FaceMapper.TransformRecord(
        input, config.sourceFieldName, config.continueOnError, faces, emotions, emitter);
    }
  }
}
