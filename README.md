# Azure face extractor, modelled in Dafny

This project models the azure-face-transform pipeline plugin. It is a
transform stage that takes an input record holding an image as bytes. It asks
a face-detection service for the faces in the image and an emotion-detection
service for the emotions. It correlates each face with the first emotion found
at the same rectangle origin. It emits one flat output record of 24 nullable
fields for each face whose record builds: the image, the face rectangle, the
face id and attributes, and the eight emotion scores. When `continueOnError`
is true, a face that fails is skipped; otherwise the plugin stops and rethrows
at the first face that fails, and the faces after it are not emitted.

Two copies of the plugin exist, and both are modelled:

- The current plugin. Its configuration records failures in the host's
  failure collector. It throws only when it cannot go on: no input schema, or
  no source field. `prepareRun` then refuses to start while any failure is
  recorded.
- The legacy plugin. Its configuration validation throws an illegal-argument
  error at the first problem. Its record mapping is the same as the current
  plugin's.

Modules, one per component:

- `Wrappers`: `Option`, `Result`, and `Outcome` (pass, or fail with an exception).
- `Schemas`: the part of the host's record schema the plugin consults.
- `Failures`: the failure collector and its validation exception.
- `FaceExtractorConfig`: the current configuration, its accumulating `validate`, and its builder.
- `FaceData`: faces, emotions, output columns, and the output schema.
- `FaceMapper`: correlation, record building, the face loop, and the transform of one record.
- `Pipeline`: the host contexts of `configurePipeline` and `prepareRun`.
- `FaceExtractorPlugin`: the current plugin class.
- `LegacyFaceExtractor`: the legacy configuration and plugin class.

Java `null` is modelled as `Option` wherever the code would dereference
it, except for the elements of the face and emotion lists (see "Left out"). Java exceptions are modelled as `Result` and `Outcome` values. An
exception's message is modelled by the data the message reports.

Host behaviour the model assumes, because the host classes are not part of
this model:

- A schema is nullable when it is a union of exactly two branches, one of them NULL.
- `getNonNullable` is the first branch unless that branch is NULL.
- `getField` finds nothing for a null name or for a schema that is not a record.
- `StructuredRecord.Builder.set` throws for a field name the output schema does not have.
- `getOrThrowException` throws exactly when failures were recorded.
- `StructuredRecord.get(name)` returns null for a null name, for a field the
  record does not have, and for a null value (`FaceMapper.SourceValue`).

Two facts about the code that the model keeps:

- The code declares 24 output fields, eight of them emotion scores. The
  disabled live test of the legacy plugin
  (src/test/java/io/cdap/plugin/AzureFaceExtractorTest.java:65) still
  expects 23.
- The two detection calls sit outside the per-face `try`, so
  `continueOnError` never applies to them: an exception from either always
  propagates.

## Model

| member | source | states |
|---|---|---|
| Schemas.GetField | src/main/java/io/cdap/plugin/azure/face/extractor/AzureFaceExtractorConfig.java:105 | a field is found only in a record schema, under the requested name, and none is found exactly when the name is null or no field bears it |
| Schemas.FindFieldFirst | src/main/java/io/cdap/plugin/azure/face/extractor/AzureFaceExtractorConfig.java:105 | the field found is the first one bearing the name |
| Schemas.UnwrapNullableOf | src/main/java/io/cdap/plugin/azure/face/extractor/AzureFaceExtractorConfig.java:113-115 | removing the nullable wrapper of `nullableOf(s)` gives back `s` |
| Failures.FailureCollector.AddFailure | src/main/java/io/cdap/plugin/azure/face/extractor/AzureFaceExtractorConfig.java:100-101 | a failure is appended after those already recorded |
| Failures.FailureCollector.GetOrThrowException | src/main/java/io/cdap/plugin/azure/face/extractor/AzureFaceExtractorConfig.java:102 | it throws exactly when some failure is recorded, and the exception carries every recorded failure |
| FaceExtractorConfig.CheckFieldType | src/main/java/io/cdap/plugin/azure/face/extractor/AzureFaceExtractorConfig.java:113-125 | a present field fails the type check exactly when, unwrapped, it is not BYTES without a logical type; the failure names the field and its unwrapped schema and is attached to the `sourceFieldName` property |
| FaceExtractorConfig.Validation | src/main/java/io/cdap/plugin/azure/face/extractor/AzureFaceExtractorConfig.java:98-126 | at most one failure per call; a throw always follows a failure; it throws exactly for a missing schema or field; nothing is recorded exactly when the field holds image bytes; only the missing-schema failure has no configuration property |
| FaceExtractorConfig.NullableIsTransparent | src/main/java/io/cdap/plugin/azure/face/extractor/AzureFaceExtractorConfig.java:113-118 | a field of type `nullable(s)` is judged exactly as a field of type `s` |
| FaceExtractorConfig.RejectionIsOneFailure | src/main/java/io/cdap/plugin/azure/face/extractor/AzureFaceExtractorConfig.java:98-126 | every rejected configuration records exactly one failure |
| FaceExtractorConfig.RejectedField | src/main/java/io/cdap/plugin/azure/face/extractor/AzureFaceExtractorConfig.java:113-125 | a present field that does not hold image bytes records one `sourceFieldName` failure and does not throw |
| FaceExtractorConfig.AcceptedField | src/main/java/io/cdap/plugin/azure/face/extractor/AzureFaceExtractorConfig.java:113-126 | a present field that holds image bytes records nothing and does not throw |
| FaceExtractorConfig.ValidConfigTestCase | src/test/java/io/cdap/plugin/azure/face/extractor/AzureFaceExtractorConfigTest.java:56-61 | the `bytes` field of the test schema records no failure |
| FaceExtractorConfig.RejectedTypeTestCase | src/test/java/io/cdap/plugin/azure/face/extractor/AzureFaceExtractorConfigTest.java:93-153 | the `id`, `nullable`, `decimal`, `date` and `record` fields each record one `sourceFieldName` failure without a throw |
| FaceExtractorConfig.MissingFieldTestCases | src/test/java/io/cdap/plugin/azure/face/extractor/AzureFaceExtractorConfigTest.java:63-91 | a null or unknown source field name records one `sourceFieldName` failure and throws |
| FaceExtractorConfig.AzureFaceExtractorConfig.constructor | src/main/java/io/cdap/plugin/azure/face/extractor/AzureFaceExtractorConfig.java:55-61 | the getters return the four values given |
| FaceExtractorConfig.AzureFaceExtractorConfig.FromBuilder | src/main/java/io/cdap/plugin/azure/face/extractor/AzureFaceExtractorConfig.java:63-68 | the configuration holds the builder's four fields |
| FaceExtractorConfig.AzureFaceExtractorConfig.GetSourceFieldName | src/main/java/io/cdap/plugin/azure/face/extractor/AzureFaceExtractorConfig.java:82-84 | returns the source field name the configuration was made with; the constructor, `FromBuilder` and `Rebuild` state it |
| FaceExtractorConfig.AzureFaceExtractorConfig.GetContinueOnError | src/main/java/io/cdap/plugin/azure/face/extractor/AzureFaceExtractorConfig.java:86-88 | returns the flag the configuration was made with, possibly null; the constructor, `FromBuilder` and `Rebuild` state it |
| FaceExtractorConfig.AzureFaceExtractorConfig.GetFacesSubscriptionKey | src/main/java/io/cdap/plugin/azure/face/extractor/AzureFaceExtractorConfig.java:90-92 | returns the faces key the configuration was made with; the constructor, `FromBuilder` and `Rebuild` state it |
| FaceExtractorConfig.AzureFaceExtractorConfig.GetEmotionSubscriptionKey | src/main/java/io/cdap/plugin/azure/face/extractor/AzureFaceExtractorConfig.java:94-96 | returns the emotion key the configuration was made with; the constructor, `FromBuilder` and `Rebuild` state it |
| FaceExtractorConfig.AzureFaceExtractorConfig.NewBuilder | src/main/java/io/cdap/plugin/azure/face/extractor/AzureFaceExtractorConfig.java:70-72 | a fresh builder with every field null |
| FaceExtractorConfig.AzureFaceExtractorConfig.BuilderOf | src/main/java/io/cdap/plugin/azure/face/extractor/AzureFaceExtractorConfig.java:74-80 | a fresh builder holding the four fields of the copied configuration |
| FaceExtractorConfig.AzureFaceExtractorConfig.Validate | src/main/java/io/cdap/plugin/azure/face/extractor/AzureFaceExtractorConfig.java:98-126 | the collector gains exactly the failures `Validation` records; it throws exactly when `Validation` does, with every failure the collector holds |
| FaceExtractorConfig.Rebuild | src/main/java/io/cdap/plugin/azure/face/extractor/AzureFaceExtractorConfig.java:74-80 | `builder(copy).build()` reproduces all four fields of the copy |
| FaceExtractorConfig.WithSourceFieldName | src/test/java/io/cdap/plugin/azure/face/extractor/AzureFaceExtractorConfigTest.java:65-67 | changing only the source field name through the builder keeps the other three fields |
| FaceExtractorConfig.Builder.SetSourceFieldName | src/main/java/io/cdap/plugin/azure/face/extractor/AzureFaceExtractorConfig.java:138-141 | sets that field, keeps the other three, and returns the same builder |
| FaceExtractorConfig.Builder.SetContinueOnError | src/main/java/io/cdap/plugin/azure/face/extractor/AzureFaceExtractorConfig.java:143-146 | sets that field, keeps the other three, and returns the same builder |
| FaceExtractorConfig.Builder.SetFacesSubscriptionKey | src/main/java/io/cdap/plugin/azure/face/extractor/AzureFaceExtractorConfig.java:148-151 | sets that field, keeps the other three, and returns the same builder |
| FaceExtractorConfig.Builder.SetEmotionSubscriptionKey | src/main/java/io/cdap/plugin/azure/face/extractor/AzureFaceExtractorConfig.java:153-156 | sets that field, keeps the other three, and returns the same builder |
| FaceExtractorConfig.Builder.Build | src/main/java/io/cdap/plugin/azure/face/extractor/AzureFaceExtractorConfig.java:158-160 | a fresh configuration holding the builder's four fields |
| FaceData.Position | src/main/java/io/cdap/plugin/azure/face/extractor/AzureFaceExtractor.java:52-77 | every column has a place in the schema order |
| FaceData.OutputSchemaShape | src/main/java/io/cdap/plugin/azure/face/extractor/AzureFaceExtractor.java:52-77 | the output schema is a record of 24 fields, each column once in the declared order, each nullable over its column's type, with distinct names |
| FaceData.ColumnGroups | src/main/java/io/cdap/plugin/azure/face/extractor/AzureFaceExtractor.java:130-156 | the sixteen face columns and the eight emotion columns split the schema's columns |
| FaceData.ColumnNamesDistinct | src/main/java/io/cdap/plugin/azure/face/extractor/AzureFaceExtractor.java:52-77 | no two columns share a name |
| FaceData.ColumnNamed | src/main/java/io/cdap/plugin/azure/face/extractor/AzureFaceExtractor.java:153 | a field name resolves only to the column bearing that name |
| FaceData.ColumnNamedSpec | src/main/java/io/cdap/plugin/azure/face/extractor/AzureFaceExtractor.java:153 | a name resolves to no column exactly when no column bears it |
| FaceData.ColumnNamedName | src/main/java/io/cdap/plugin/azure/face/extractor/AzureFaceExtractor.java:130-146 | every column's own name resolves to it |
| FaceData.ScoreField | src/main/java/io/cdap/plugin/azure/face/extractor/AzureFaceExtractor.java:150-153 | a score's field name is its lower-cased key, except that `suprise` becomes `surprise`; it is never `suprise` |
| FaceData.ScoreColumnOf | src/main/java/io/cdap/plugin/azure/face/extractor/AzureFaceExtractor.java:150-153 | a score lands on a column exactly when its lower-cased key is the column's name, or is `suprise` and the column is `surprise` |
| FaceData.LowerUpper | src/main/java/io/cdap/plugin/azure/face/extractor/AzureFaceExtractor.java:153 | lower-casing an upper-cased snake-case name gives the name back |
| FaceData.EmotionConstantLands | src/main/java/io/cdap/plugin/azure/face/extractor/AzureFaceExtractor.java:149-153 | the upper-case score constant of every emotion column lands on that column |
| FaceData.MisspeltConstantLands | src/main/java/io/cdap/plugin/azure/face/extractor/AzureFaceExtractor.java:150-151 | the misspelt constant `SUPRISE` lands on the `surprise` column |
| FaceMapper.FirstMatch | src/main/java/io/cdap/plugin/azure/face/extractor/AzureFaceExtractor.java:123-129 | an emotion found is in the list and matches the face's left and top; a failure is a null dereference and needs a non-empty list |
| FaceMapper.FirstMatchIsEarliest | src/main/java/io/cdap/plugin/azure/face/extractor/AzureFaceExtractor.java:124-128 | the emotion found is the earliest matching one |
| FaceMapper.NoMatchMeansNoEmotion | src/main/java/io/cdap/plugin/azure/face/extractor/AzureFaceExtractor.java:123-129 | no emotion is found exactly when none matches |
| FaceMapper.MatchIgnoresSize | src/main/java/io/cdap/plugin/azure/face/extractor/AzureFaceExtractor.java:125 | width and height take no part in the correlation |
| FaceMapper.FindEmotion | src/main/java/io/cdap/plugin/azure/face/extractor/AzureFaceExtractor.java:123-129 | the search loop with its `break` computes `FirstMatch` |
| FaceMapper.FaceRecord | src/main/java/io/cdap/plugin/azure/face/extractor/AzureFaceExtractor.java:130-146 | the face part of a record; `FaceRecordShape`, `FaceRecordValues` and `SetFaceFields` state what it holds and that the chain of `set` calls computes it |
| FaceMapper.FaceRecordShape | src/main/java/io/cdap/plugin/azure/face/extractor/AzureFaceExtractor.java:130-146 | the face part exists exactly for a face without null parts, and then sets exactly the sixteen face columns |
| FaceMapper.ApplyScores | src/main/java/io/cdap/plugin/azure/face/extractor/AzureFaceExtractor.java:148-156 | writing the matched emotion's scores; `ApplyScoresSucceeds`, `ApplyScoresFailure`, `ApplyScoresFrame`, `ApplyScoresLastWins` and `SetScores` state its properties |
| FaceMapper.ApplyScoresSucceeds | src/main/java/io/cdap/plugin/azure/face/extractor/AzureFaceExtractor.java:148-156 | the scores apply exactly when every key names an output field |
| FaceMapper.ApplyScoresFailure | src/main/java/io/cdap/plugin/azure/face/extractor/AzureFaceExtractor.java:153 | a failure names a normalised key of the list that resolves to no column |
| FaceMapper.ApplyScoresFrame | src/main/java/io/cdap/plugin/azure/face/extractor/AzureFaceExtractor.java:148-156 | the record gains exactly the score columns, and every other column keeps its value |
| FaceMapper.ApplyScoresLastWins | src/main/java/io/cdap/plugin/azure/face/extractor/AzureFaceExtractor.java:149-155 | each column holds the value of the last score written to it |
| FaceMapper.MapFace | src/main/java/io/cdap/plugin/azure/face/extractor/AzureFaceExtractor.java:130-156 | the record of one face and its matched emotion; `MapFaceSpec`, `RecordContents` and `BuildRecord` state its properties |
| FaceMapper.MapFaceSpec | src/main/java/io/cdap/plugin/azure/face/extractor/AzureFaceExtractor.java:130-156 | a record exists only for a complete face; it has the face columns, plus the score columns when an emotion matched; face columns no score overwrote keep their face values |
| FaceMapper.RecordContents | src/main/java/io/cdap/plugin/azure/face/extractor/AzureFaceExtractor.java:130-146 | with well-keyed emotions, a record holds the image and every face attribute under its own column |
| FaceMapper.FaceColumnsIntact | src/main/java/io/cdap/plugin/azure/face/extractor/AzureFaceExtractor.java:148-156 | well-keyed scores never overwrite a face column |
| FaceMapper.UnmatchedFaceHasNoScores | src/main/java/io/cdap/plugin/azure/face/extractor/AzureFaceExtractor.java:123-156 | a face with no emotion at its origin gets the face columns and no emotion column |
| FaceMapper.ProcessFace | src/main/java/io/cdap/plugin/azure/face/extractor/AzureFaceExtractor.java:122-156 | the outcome of one face inside the `try`; `UnmatchedFaceHasNoScores`, `NullEmotionListFailsEveryFace` and `BuildFaceRecord` state its properties |
| FaceMapper.BuildFaceRecord | src/main/java/io/cdap/plugin/azure/face/extractor/AzureFaceExtractor.java:122-156 | the per-face block computes `ProcessFace`: the search, then the record |
| FaceMapper.BuildRecord | src/main/java/io/cdap/plugin/azure/face/extractor/AzureFaceExtractor.java:130-156 | the builder and the score loop compute `MapFace` |
| FaceMapper.SetFaceFields | src/main/java/io/cdap/plugin/azure/face/extractor/AzureFaceExtractor.java:130-146 | the chain of `set` calls computes the face part, failing on the first null it dereferences |
| FaceMapper.SetScores | src/main/java/io/cdap/plugin/azure/face/extractor/AzureFaceExtractor.java:149-155 | the score loop computes `ApplyScores`, stopping at the first unknown field |
| FaceMapper.RunFaces | src/main/java/io/cdap/plugin/azure/face/extractor/AzureFaceExtractor.java:121-165 | a run never emits more records than there are faces |
| FaceMapper.FirstFailure | src/main/java/io/cdap/plugin/azure/face/extractor/AzureFaceExtractor.java:121-165 | every face before the first failing one maps to a record, and that one fails |
| FaceMapper.ContinueSkipsOnlyFailingFaces | src/main/java/io/cdap/plugin/azure/face/extractor/AzureFaceExtractor.java:158-163 | with `continueOnError` true, exactly the records of the faces that map are emitted, in order, and the run ends normally |
| FaceMapper.StopAtFirstFailure | src/main/java/io/cdap/plugin/azure/face/extractor/AzureFaceExtractor.java:158-160 | otherwise the records of the faces before the first failure are emitted and that failure is rethrown; a null flag throws a null dereference instead |
| FaceMapper.OneRecordPerFace | src/main/java/io/cdap/plugin/azure/face/extractor/AzureFaceExtractor.java:121-157 | when every face maps, one record per face is emitted, in order |
| FaceMapper.NullEmotionListFailsEveryFace | src/main/java/io/cdap/plugin/azure/face/extractor/AzureFaceExtractor.java:119-124 | a null emotion list makes every face fail inside the handler |
| FaceMapper.NothingWithoutImageOrFaces | src/main/java/io/cdap/plugin/azure/face/extractor/AzureFaceExtractor.java:115-120 | a null source field or a null face list emits nothing and ends normally |
| FaceMapper.DetectionFailuresPropagate | src/main/java/io/cdap/plugin/azure/face/extractor/AzureFaceExtractor.java:116-119 | an exception from a detection call propagates before any record, whatever the flag; a faces failure comes first |
| FaceMapper.RawImageRoundTrip | src/main/java/io/cdap/plugin/azure/face/extractor/AzureFaceExtractor.java:131 | with well-keyed emotions, every emitted record carries the input's source value as its raw image |
| FaceMapper.RunFacesCarryImage | src/main/java/io/cdap/plugin/azure/face/extractor/AzureFaceExtractor.java:131 | with well-keyed emotions, every record of the face loop carries the image bytes |
| FaceMapper.RunFacesStep | src/main/java/io/cdap/plugin/azure/face/extractor/AzureFaceExtractor.java:121-165 | one face step of the loop: emit and go on, skip, or stop |
| FaceMapper.Emitter.Emit | src/main/java/io/cdap/plugin/azure/face/extractor/AzureFaceExtractor.java:157 | the record is appended to those emitted |
| FaceMapper.Transform | src/main/java/io/cdap/plugin/azure/face/extractor/AzureFaceExtractor.java:114-169 | the records and exception of one `transform` call; `NothingWithoutImageOrFaces`, `DetectionFailuresPropagate`, `RawImageRoundTrip` and `TransformRecord` state its properties |
| FaceMapper.TransformRecord | src/main/java/io/cdap/plugin/azure/face/extractor/AzureFaceExtractor.java:114-169 | the records emitted and the exception raised are those of `Transform` |
| FaceMapper.EmitFace | src/main/java/io/cdap/plugin/azure/face/extractor/AzureFaceExtractor.java:122-164 | one pass of the loop body emits the face's record if it maps; otherwise it carries on when the flag is true, and rethrows (a null flag: a null dereference) when it is not |
| FaceMapper.EmitStep | src/main/java/io/cdap/plugin/azure/face/extractor/AzureFaceExtractor.java:121-165 | after a pass that threw, the run ends with that exception; after any other pass, the records it emitted begin the rest of the run |
| FaceMapper.EmitFaces | src/main/java/io/cdap/plugin/azure/face/extractor/AzureFaceExtractor.java:121-165 | the face loop emits the records of `RunFaces` and ends with its exception |
| Pipeline.StageConfigurer.SetOutputSchema | src/main/java/io/cdap/plugin/azure/face/extractor/AzureFaceExtractor.java:93 | the output schema is published |
| FaceExtractorPlugin.PublishesSchema | src/main/java/io/cdap/plugin/azure/face/extractor/AzureFaceExtractor.java:85-94 | the output schema is published exactly when the schema and the source field exist |
| FaceExtractorPlugin.WrongTypeStillPublishes | src/main/java/io/cdap/plugin/azure/face/extractor/AzureFaceExtractor.java:85-94 | a source field of the wrong type records one failure and the schema is still published |
| FaceExtractorPlugin.AzureFaceExtractor.constructor | src/main/java/io/cdap/plugin/azure/face/extractor/AzureFaceExtractor.java:81-83 | the plugin holds the configuration it was given |
| FaceExtractorPlugin.AzureFaceExtractor.ConfigurePipeline | src/main/java/io/cdap/plugin/azure/face/extractor/AzureFaceExtractor.java:85-94 | the stage's collector gains `Validation`'s failures; a throw carries every failure in the collector and leaves the output schema as it was, otherwise the output schema is published |
| FaceExtractorPlugin.AzureFaceExtractor.PrepareRun | src/main/java/io/cdap/plugin/azure/face/extractor/AzureFaceExtractor.java:96-104 | the run fails exactly when the collector holds a failure after validation; from an empty collector it goes ahead exactly for an image-bytes source field |
| FaceExtractorPlugin.AzureFaceExtractor.Transform | src/main/java/io/cdap/plugin/azure/face/extractor/AzureFaceExtractor.java:114-169 | the transform emits and raises what `Transform` gives for the configured field and flag |
| LegacyFaceExtractor.LegacyValidation | src/main/java/co/cask/hydrator/plugin/AzureFaceExtractor.java:188-208 | it passes exactly for a present field whose unwrapped type is BYTES; it reports no schema exactly when there is none, and a missing field exactly when the field is absent; a non-simple field fails with `NotSimple` and a simple non-BYTES one with `NotBytes`, in that order of checks; type errors report the field's own type |
| LegacyFaceExtractor.ValidatorsDifferOnlyOnLogicalTypes | src/main/java/co/cask/hydrator/plugin/AzureFaceExtractor.java:188-208 | the current validator throws exactly when the legacy one fails for a missing schema or a missing field (the legacy one also throws on type errors, which the current one only records); the legacy one accepts exactly what the current one accepts, plus BYTES fields with a logical type |
| LegacyFaceExtractor.LogicalBytesAcceptedOnlyByLegacy | src/main/java/co/cask/hydrator/plugin/AzureFaceExtractor.java:196-207 | a BYTES field with a logical type passes the legacy validation and fails the current one |
| LegacyFaceExtractor.DecimalAcceptedOnlyByLegacy | src/test/java/io/cdap/plugin/azure/face/extractor/AzureFaceExtractorConfigTest.java:105-115 | the test schema's decimal field is such a field |
| LegacyFaceExtractor.NullableReportsUnion | src/main/java/co/cask/hydrator/plugin/AzureFaceExtractor.java:200-207 | a nullable non-bytes simple field is reported with type UNION, the wrapper's type |
| LegacyFaceExtractor.LegacyTestCases | src/test/java/io/cdap/plugin/AzureFaceExtractorTest.java:73-85 | `body` is not present and `a` is not simple in the legacy test schema; the current validator throws only for the first |
| LegacyFaceExtractor.Config.constructor | src/main/java/co/cask/hydrator/plugin/AzureFaceExtractor.java:180-186 | the configuration holds the four values given |
| LegacyFaceExtractor.Config.Validate | src/main/java/co/cask/hydrator/plugin/AzureFaceExtractor.java:188-208 | the throw-first checks compute `LegacyValidation` |
| LegacyFaceExtractor.AzureFaceExtractor.constructor | src/main/java/co/cask/hydrator/plugin/AzureFaceExtractor.java:81-83 | the plugin holds the configuration it was given |
| LegacyFaceExtractor.AzureFaceExtractor.ConfigurePipeline | src/main/java/co/cask/hydrator/plugin/AzureFaceExtractor.java:85-91 | the outcome is the legacy validation, and the output schema is published only when it passes |
| LegacyFaceExtractor.AzureFaceExtractor.Transform | src/main/java/co/cask/hydrator/plugin/AzureFaceExtractor.java:101-156 | the transform emits and raises what `Transform` gives for the configured field and flag |

## Left out

- The Azure detection client, its subscription keys and `initialize`. Each
  detection call is a parameter: it returned a list, possibly null, or it
  threw. Which faces and emotions the service finds is not modelled.
- Reading the image stream, resetting it between the two calls, and closing it.
- Logging, plugin annotations and descriptions, and the exact text of messages.
- `emitter.emit` throwing: the host emitter is modelled as a list of records.
- Detection doubles are IEEE values; they are carried as opaque 64-bit patterns and never computed on.
- `FaceData.ScoreField`: `toLowerCase` is modelled for ASCII only, in a
  locale whose lower-casing keeps ASCII letters ASCII. Java lower-cases all of
  Unicode, following the default locale. Under a Turkish or Azeri default
  locale, `I` lower-cases to a dotless `ı`, so HAPPINESS, DISGUST and SUPRISE
  would name no output field and `set` would fail every face that matched an
  emotion; the model does not capture that.
- `FaceMapper.RawImageRoundTrip`: stated only when every emotion's keys name
  emotion columns. A key that normalised to a face column's name would
  overwrite that column; the score constants never do that.
- Rectangle sides are unbounded integers, not 32-bit Java ints; they are only copied and compared.
- The order in which the score map is iterated is a parameter: the scores are given as a list.
- The disabled live test of the legacy plugin, which calls the real service.
- Null elements of the face list or the emotion list: the detection results
  are lists of faces and of emotions, never holding null. A null element would
  throw a null dereference inside the per-face `try`.
- `FaceExtractorConfig.AzureFaceExtractorConfig.GetContinueOnError`: it
  returns the boxed flag, possibly null. The Java getter unboxes it and throws
  a null dereference for a null flag; the model raises that null dereference
  where the transform calls the getter, inside the handler.
