/** The two host contexts the face extractor plugins talk to at configuration
    and submission time. */
module Pipeline {
  import opened Wrappers
  import opened Schemas
  import opened Failures

  /** The stage configurer of `configurePipeline`: the input schema the host
      supplies (absent when it cannot be determined), the stage's failure
      collector, and the output schema the plugin publishes. */
  class StageConfigurer {
    const inputSchema: Option<Schema>
    const collector: FailureCollector
    var outputSchema: Option<Schema>

    constructor (inputSchema: Option<Schema>, collector: FailureCollector)
      ensures this.inputSchema == inputSchema && this.collector == collector
      ensures outputSchema == None
    {
      this.inputSchema := inputSchema;
      this.collector := collector;
      outputSchema := None;
    }

    /** `setOutputSchema(schema)`. */
    method SetOutputSchema(schema: Schema)
      modifies this
      ensures outputSchema == Some(schema)
    {
      outputSchema := Some(schema);
    }
  }

  /** The submitter context of `prepareRun`: its input schema and failure collector. */
  class SubmitterContext {
    const inputSchema: Option<Schema>
    const collector: FailureCollector

    constructor (inputSchema: Option<Schema>, collector: FailureCollector)
      ensures this.inputSchema == inputSchema && this.collector == collector
    {
      this.inputSchema := inputSchema;
      this.collector := collector;
    }
  }
}
