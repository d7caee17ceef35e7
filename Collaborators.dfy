/** The collaborators the export engine calls but does not implement: the
    remote service client, the output backends and what they hand out. Each
    is reduced to the outcomes the engine can observe. */
module Collaborators {
  import opened Common
  import opened Schema

  /** How a `streamEntityData` call ends. */
  datatype StreamOutcome =
    | Completed                        // every page was delivered to the consumer
    | JsonFailure                      // an org.json.JSONException: the entity is unknown remotely
    | OtherFailure(error: Exception)   // any other exception
  {
    /** The exception a failed stream throws. */
    function Error(): Exception
      requires !Completed?
    {
      if JsonFailure? then Remote("org.json.JSONException") else error
    }
  }

  /** The remote service client, as the answers it gives:
      `getMetadata(version)`, `getFilteredMetadata(version, names)`,
      `getEntity(name)` and how `streamEntityData(name, ...)` ends. */
  datatype MolgenisClient = MolgenisClient(
    metadata: Version -> Result<seq<Entity>, Exception>,
    filteredMetadata: (Version, seq<string>) -> Result<seq<Entity>, Exception>,
    entity: string -> Result<Entity, Exception>,
    stream: string -> StreamOutcome)

  /** The two tabular backends: one workbook, or a zip of delimited files. */
  datatype Backend = ExcelBackend(path: string, overwrite: bool) | ZipFileBackend(path: string)

  /** A data store a backend creates for one sheet. */
  datatype DataStore = DataStore(backend: Backend, name: string)

  /** The writer of entity and attribute definitions; not part of this model. */
  class MetadataConsumer { }
}
