/** The host's failure collector: validation failures are appended to it, and
    `getOrThrowException` raises a validation exception holding all of them. */
module Failures {
  import opened Wrappers
  import opened Schemas

  /** What a failure's message reports. */
  datatype Reason =
    | InputSchemaMissing                                // the input schema could not be obtained
    | SourceFieldMissing(requested: Option<string>)     // the named source field is not in the schema
    | UnexpectedType(fieldName: string, actual: Schema) // the field's (unwrapped) schema is not plain bytes

  /** A failure: its message, its corrective action and the configuration
      property it is attached to (`withConfigProperty`), if any. */
  datatype ValidationFailure = ValidationFailure(
    reason: Reason,
    correctiveAction: Option<string>,
    configProperty: Option<string>)

  datatype ValidationException = ValidationException(failures: seq<ValidationFailure>)

  class FailureCollector {
    var failures: seq<ValidationFailure>

    constructor ()
      ensures failures == []
    {
      failures := [];
    }

    /** `addFailure(...)` followed by `withConfigProperty(...)` on the failure it returns. */
    method AddFailure(failure: ValidationFailure)
      modifies this
      ensures failures == old(failures) + [failure]
    {
      failures := failures + [failure];
    }

    /** Throws (`thrown`) exactly when some failure was recorded; the exception,
        thrown or returned, carries every recorded failure. */
    method GetOrThrowException() returns (thrown: bool, e: ValidationException)
      ensures thrown <==> failures != []
      ensures e.failures == failures
    {
      thrown := failures != [];
      e := ValidationException(failures);
    }
  }
}
