/** Configuration of the current face extractor plugin: its four properties,
    the accumulating validation of the source field, and the builder. */
module FaceExtractorConfig {
  import opened Wrappers
  import opened Schemas
  import opened Failures

  // Names of the configuration properties.
  const SourceFieldName := "sourceFieldName"
  const ContinueOnError := "continueOnError"
  const FacesSubscriptionKey := "facesSubscriptionKey"
  const EmotionSubscriptionKey := "emotionSubscriptionKey"

  /** The failures one validation records, and whether it then throws. */
  datatype Verdict = Verdict(failures: seq<ValidationFailure>, throws: bool)

  /** A field schema holds image bytes: once a nullable wrapper is removed it is
      plain BYTES, without any logical type. */
  predicate IsImageBytes(s: Schema) {
    var u := Unwrap(s);
    TypeOf(u) == BytesType && LogicalTypeOf(u).None?
  }

  /** The input schema has the source field and that field holds image bytes. */
  predicate Accepts(sourceFieldName: Option<string>, inputSchema: Option<Schema>) {
    && inputSchema.Some?
    && GetField(inputSchema.value, sourceFieldName).Some?
    && IsImageBytes(GetField(inputSchema.value, sourceFieldName).value.schema)
  }

  /** The type check on a field that is present: at most one failure, tagged
      with the source-field property, and none exactly for image bytes. */
  function CheckFieldType(field: Field): (r: Option<ValidationFailure>)
    ensures r.None? <==> IsImageBytes(field.schema)
    ensures r.Some? ==> r.value.configProperty == Some(SourceFieldName)
    ensures r.Some? ==> r.value.reason == UnexpectedType(field.name, Unwrap(field.schema))
  {
    var nonNullable := Unwrap(field.schema);
    if LogicalTypeOf(nonNullable).Some? || TypeOf(nonNullable) != BytesType then
      Some(ValidationFailure(
        UnexpectedType(field.name, nonNullable), Some("Ensure it is of type 'bytes'."), Some(SourceFieldName)))
    else
      None
  }

  /** What `validate` records and whether it throws. */
  function Validation(sourceFieldName: Option<string>, inputSchema: Option<Schema>): (v: Verdict)
    // one call never records more than one failure, and a throw always follows one
    ensures |v.failures| <= 1
    ensures v.throws ==> |v.failures| == 1
    // it throws exactly when there is no schema or no such field
    ensures v.throws <==> inputSchema.None? || GetField(inputSchema.value, sourceFieldName).None?
    // it records nothing exactly when the field holds image bytes
    ensures v.failures == [] <==> Accepts(sourceFieldName, inputSchema)
    // only the missing-schema failure has no configuration property
    ensures forall f :: f in v.failures ==>
      f.configProperty == if inputSchema.None? then None else Some(SourceFieldName)
  {
    if inputSchema.None? then
      Verdict([ValidationFailure(InputSchemaMissing, Some("Provide a valid input schema."), None)], true)
    else
      match GetField(inputSchema.value, sourceFieldName)
      case None =>
        Verdict([ValidationFailure(SourceFieldMissing(sourceFieldName), None, Some(SourceFieldName))], true)
      case Some(field) =>
        match CheckFieldType(field)
        case None => Verdict([], false)
        case Some(failure) => Verdict([failure], false)
  }

  /** A nullable wrapper is stripped before the type check: a field of type
      `nullable(s)` is judged exactly as a field of type `s`. */
  lemma NullableIsTransparent(name: string, s: Schema)
    requires !IsNullable(s) && TypeOf(s) != NullType
    ensures CheckFieldType(Field(name, NullableOf(s))) == CheckFieldType(Field(name, s))
  {
    UnwrapNullableOf(s);
  }

  /** Every rejected configuration yields exactly one failure. */
  lemma {:induction false} RejectionIsOneFailure(sourceFieldName: Option<string>, inputSchema: Option<Schema>)
    requires !Accepts(sourceFieldName, inputSchema)
    ensures |Validation(sourceFieldName, inputSchema).failures| == 1
  {
    var v := Validation(sourceFieldName, inputSchema);
    assert v.failures != [];
  }

  /** The record schema of the configuration tests. */
  const TestSchema := RecordOf("people", [
    Field("name", Of(StringType)),
    Field("id", Of(LongType)),
    Field("nullable", NullableOf(Of(StringType))),
    Field("decimal", Simple(BytesType, Some(Decimal(2, 0)))),
    Field("date", Simple(IntType, Some(Date))),
    Field("record", NullableOf(RecordOf("record", [
      Field("string_value", NullableOf(Of(StringType))),
      Field("int_value", NullableOf(Of(LongType)))]))),
    Field("bytes", Of(BytesType))])

  /** One failure, attached to the source-field property. */
  predicate OneSourceFieldFailure(v: Verdict) {
    |v.failures| == 1 && v.failures[0].configProperty == Some(SourceFieldName)
  }

  /** A present field that holds image bytes records nothing, and validation
      returns without throwing. */
  lemma AcceptedField(recordName: string, fields: seq<Field>, k: nat)
    requires k < |fields| && IsImageBytes(fields[k].schema)
    requires forall j :: 0 <= j < k ==> fields[j].name != fields[k].name
    ensures Validation(Some(fields[k].name), Some(RecordOf(recordName, fields))) == Verdict([], false)
  {
    FindFieldFirst(fields, fields[k].name, k);
  }

  /** The valid case of the configuration tests: a plain bytes field records nothing. */
  lemma ValidConfigTestCase()
    ensures Validation(Some("bytes"), Some(TestSchema)) == Verdict([], false)
  {
    var fields := TestSchema.fields;
    AcceptedField("people", fields, 6);
  }

  /** A present field that does not hold image bytes records one failure on
      the source-field property, and validation returns without throwing. */
  lemma RejectedField(recordName: string, fields: seq<Field>, k: nat)
    requires k < |fields| && !IsImageBytes(fields[k].schema)
    requires forall j :: 0 <= j < k ==> fields[j].name != fields[k].name
    ensures var v := Validation(Some(fields[k].name), Some(RecordOf(recordName, fields)));
      !v.throws && OneSourceFieldFailure(v)
  {
    FindFieldFirst(fields, fields[k].name, k);
  }

  /** The rejected-type cases of the configuration tests: the long `id`, the
      nullable string `nullable`, the decimal `decimal`, the date `date` and
      the nullable record `record` (fields 1 to 5 of the test schema) each
      record one failure on the source-field property, and validation returns
      without throwing. */
  lemma RejectedTypeTestCase(k: nat)
    requires 1 <= k <= 5
    ensures var v := Validation(Some(TestSchema.fields[k].name), Some(TestSchema));
      !v.throws && OneSourceFieldFailure(v)
  {
    var fields := TestSchema.fields;
    if k == 2 || k == 5 {
      UnwrapNullableOf(fields[k].schema.branches[0]);
    }
    RejectedField("people", fields, k);
  }

  /** The missing-field cases of the configuration tests: a null or unknown
      field name records one failure on the source-field property and throws. */
  lemma MissingFieldTestCases()
    ensures var v := Validation(None, Some(TestSchema)); v.throws && OneSourceFieldFailure(v)
    ensures var v := Validation(Some("test"), Some(TestSchema)); v.throws && OneSourceFieldFailure(v)
  {
    assert forall f :: f in TestSchema.fields ==> f.name != "test";
  }

  class AzureFaceExtractorConfig {
    const sourceFieldName: Option<string>
    var continueOnError: Option<bool>
    var facesSubscriptionKey: Option<string>
    var emotionSubscriptionKey: Option<string>

    /** The public constructor: the getters return what it was given. */
    constructor (sourceFieldName: Option<string>, continueOnError: Option<bool>,
                 facesSubscriptionKey: Option<string>, emotionSubscriptionKey: Option<string>)
      ensures GetSourceFieldName() == sourceFieldName
      ensures GetContinueOnError() == continueOnError
      ensures GetFacesSubscriptionKey() == facesSubscriptionKey
      ensures GetEmotionSubscriptionKey() == emotionSubscriptionKey
    {
      this.sourceFieldName := sourceFieldName;
      this.continueOnError := continueOnError;
      this.facesSubscriptionKey := facesSubscriptionKey;
      this.emotionSubscriptionKey := emotionSubscriptionKey;
    }

    /** The private constructor `build` uses: it copies the builder's four fields. */
    constructor FromBuilder(builder: Builder)
      ensures sourceFieldName == builder.sourceFieldName
      ensures continueOnError == builder.continueOnError
      ensures facesSubscriptionKey == builder.facesSubscriptionKey
      ensures emotionSubscriptionKey == builder.emotionSubscriptionKey
    {
      sourceFieldName := builder.sourceFieldName;
      continueOnError := builder.continueOnError;
      facesSubscriptionKey := builder.facesSubscriptionKey;
      emotionSubscriptionKey := builder.emotionSubscriptionKey;
    }

    function GetSourceFieldName(): Option<string> {
      sourceFieldName
    }

    /** The boxed flag; unboxing a null flag fails where the flag is used. */
    function GetContinueOnError(): Option<bool>
      reads this
    {
      continueOnError
    }

    function GetFacesSubscriptionKey(): Option<string>
      reads this
    {
      facesSubscriptionKey
    }

    function GetEmotionSubscriptionKey(): Option<string>
      reads this
    {
      emotionSubscriptionKey
    }

    /** `builder()`: a builder with every field null. */
    static method NewBuilder() returns (b: Builder)
      ensures fresh(b)
      ensures b.sourceFieldName == None && b.continueOnError == None
      ensures b.facesSubscriptionKey == None && b.emotionSubscriptionKey == None
    {
      b := new Builder();
    }

    /** `builder(copy)`: a builder holding the four fields of `copy`. */
    static method BuilderOf(copy: AzureFaceExtractorConfig) returns (b: Builder)
      ensures fresh(b)
      ensures b.sourceFieldName == copy.sourceFieldName
      ensures b.continueOnError == copy.continueOnError
      ensures b.facesSubscriptionKey == copy.facesSubscriptionKey
      ensures b.emotionSubscriptionKey == copy.emotionSubscriptionKey
    {
      b := NewBuilder();
      b := b.SetSourceFieldName(copy.sourceFieldName);
      b := b.SetContinueOnError(copy.continueOnError);
      b := b.SetFacesSubscriptionKey(copy.facesSubscriptionKey);
      b := b.SetEmotionSubscriptionKey(copy.emotionSubscriptionKey);
    }

    /** `validate(collector, inputSchema)`: appends what `Validation` records to
        the collector; when it throws, the validation exception carries every
        failure the collector holds. */
    method Validate(collector: FailureCollector, inputSchema: Option<Schema>)
      returns (outcome: Outcome<ValidationException>)
      modifies collector
      ensures collector.failures == old(collector.failures) + Validation(sourceFieldName, inputSchema).failures
      ensures outcome ==
        if Validation(sourceFieldName, inputSchema).throws
        then Fail(ValidationException(collector.failures))
        else Pass
    {
      if inputSchema.None? {
        collector.AddFailure(ValidationFailure(InputSchemaMissing, Some("Provide a valid input schema."), None));
        var _, e := collector.GetOrThrowException();
        return Fail(e);
      }
      var field := GetField(inputSchema.value, sourceFieldName);
      if field.None? {
        collector.AddFailure(ValidationFailure(SourceFieldMissing(sourceFieldName), None, Some(SourceFieldName)));
        var _, e := collector.GetOrThrowException();
        return Fail(e);
      }
      var nonNullableSchema := if IsNullable(field.value.schema) then NonNullable(field.value.schema)
                               else field.value.schema;
      var fieldType := TypeOf(nonNullableSchema);
      if LogicalTypeOf(nonNullableSchema).Some? || fieldType != BytesType {
        collector.AddFailure(ValidationFailure(
          UnexpectedType(field.value.name, nonNullableSchema), Some("Ensure it is of type 'bytes'."),
          Some(SourceFieldName)));
      }
      return Pass;
    }
  }

  /** `builder(copy).build()` reproduces all four fields of `copy`. */
  method Rebuild(copy: AzureFaceExtractorConfig) returns (c: AzureFaceExtractorConfig)
    ensures fresh(c)
    ensures c.sourceFieldName == copy.sourceFieldName
    ensures c.continueOnError == copy.continueOnError
    ensures c.facesSubscriptionKey == copy.facesSubscriptionKey
    ensures c.emotionSubscriptionKey == copy.emotionSubscriptionKey
  {
    var b := AzureFaceExtractorConfig.BuilderOf(copy);
    c := b.Build();
  }

  /** `builder(copy).setSourceFieldName(name).build()`, as the configuration
      tests derive their cases: only the source field name differs from `copy`. */
  method WithSourceFieldName(copy: AzureFaceExtractorConfig, name: Option<string>)
    returns (c: AzureFaceExtractorConfig)
    ensures fresh(c)
    ensures c.sourceFieldName == name
    ensures c.continueOnError == copy.continueOnError
    ensures c.facesSubscriptionKey == copy.facesSubscriptionKey
    ensures c.emotionSubscriptionKey == copy.emotionSubscriptionKey
  {
    var b := AzureFaceExtractorConfig.BuilderOf(copy);
    b := b.SetSourceFieldName(name);
    c := b.Build();
  }

  class Builder {
    var sourceFieldName: Option<string>
    var continueOnError: Option<bool>
    var facesSubscriptionKey: Option<string>
    var emotionSubscriptionKey: Option<string>

    constructor ()
      ensures sourceFieldName == None && continueOnError == None
      ensures facesSubscriptionKey == None && emotionSubscriptionKey == None
    {
      sourceFieldName := None;
      continueOnError := None;
      facesSubscriptionKey := None;
      emotionSubscriptionKey := None;
    }

    method SetSourceFieldName(sourceFieldName: Option<string>) returns (self: Builder)
      modifies this
      ensures self == this
      ensures this.sourceFieldName == sourceFieldName
      ensures continueOnError == old(continueOnError)
      ensures facesSubscriptionKey == old(facesSubscriptionKey)
      ensures emotionSubscriptionKey == old(emotionSubscriptionKey)
    {
      this.sourceFieldName := sourceFieldName;
      return this;
    }

    method SetContinueOnError(continueOnError: Option<bool>) returns (self: Builder)
      modifies this
      ensures self == this
      ensures this.continueOnError == continueOnError
      ensures sourceFieldName == old(sourceFieldName)
      ensures facesSubscriptionKey == old(facesSubscriptionKey)
      ensures emotionSubscriptionKey == old(emotionSubscriptionKey)
    {
      this.continueOnError := continueOnError;
      return this;
    }

    method SetFacesSubscriptionKey(facesSubscriptionKey: Option<string>) returns (self: Builder)
      modifies this
      ensures self == this
      ensures this.facesSubscriptionKey == facesSubscriptionKey
      ensures sourceFieldName == old(sourceFieldName)
      ensures continueOnError == old(continueOnError)
      ensures emotionSubscriptionKey == old(emotionSubscriptionKey)
    {
      this.facesSubscriptionKey := facesSubscriptionKey;
      return this;
    }

    method SetEmotionSubscriptionKey(emotionSubscriptionKey: Option<string>) returns (self: Builder)
      modifies this
      ensures self == this
      ensures this.emotionSubscriptionKey == emotionSubscriptionKey
      ensures sourceFieldName == old(sourceFieldName)
      ensures continueOnError == old(continueOnError)
      ensures facesSubscriptionKey == old(facesSubscriptionKey)
    {
      this.emotionSubscriptionKey := emotionSubscriptionKey;
      return this;
    }

    /** `build()`: a new configuration with this builder's four fields. */
    method Build() returns (c: AzureFaceExtractorConfig)
      ensures fresh(c)
      ensures c.sourceFieldName == sourceFieldName
      ensures c.continueOnError == continueOnError
      ensures c.facesSubscriptionKey == facesSubscriptionKey
      ensures c.emotionSubscriptionKey == emotionSubscriptionKey
    {
      c := new AzureFaceExtractorConfig.FromBuilder(this);
    }
  }
}
