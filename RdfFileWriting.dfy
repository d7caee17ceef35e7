/** The writer the graph export hands to the generic export driver. Its only
    behaviour is an append-only list of the exceptions reported to it, which
    it hands out by reference; its consumer factories are stubs. */
module RdfFileWriting {
  import opened Common
  import opened Schema
  import opened Collaborators
  import RdfEncoding

  /** A growable list of exceptions, shared by reference like a Java
      `ArrayList<Exception>`. */
  class ExceptionList {
    var items: seq<Exception>

    constructor ()
      ensures items == []
    {
      items := [];
    }

    method Add(e: Exception)
      modifies this
      ensures items == old(items) + [e]
    {
      items := items + [e];
    }
  }

  class RdfFileWriter {
    const version: Version
    const errors: ExceptionList
    const backend: Backend

    /** Keeps the backend and version and starts with no exceptions. */
    constructor (store: Backend, molgenisVersion: Version)
      ensures version == molgenisVersion && backend == store
      ensures fresh(errors) && errors.items == []
      ensures !HasExceptions()
    {
      version := molgenisVersion;
      errors := new ExceptionList();
      backend := store;
    }

    /** A stub: there is no consumer for entity rows. */
    method CreateConsumerForEntity(entity: Entity) returns (c: RdfEncoding.RdfEntityConsumer?)
      ensures c == null
    {
      c := null;
    }

    /** A stub: there is no consumer for metadata. */
    method CreateMetadataConsumer() returns (c: MetadataConsumer?)
      ensures c == null
    {
      c := null;
    }

    /** Delegates to the backend, which makes the store for a sheet name. */
    method CreateDataStore(name: string) returns (s: DataStore)
      ensures s.backend == backend && s.name == name
    {
      s := DataStore(backend, name);
    }

    /** `hasExceptions`: the list is not empty. */
    predicate HasExceptions()
      reads this, errors
    {
      errors.items != []
    }

    /** The list itself, not a copy: later additions show through it. */
    method GetExceptions() returns (l: ExceptionList)
      ensures l == errors
    {
      l := errors;
    }

    method AddException(ex: Exception)
      modifies errors
      ensures errors.items == old(errors.items) + [ex]
      ensures HasExceptions()
    {
      errors.Add(ex);
    }
  }

  /** A list obtained before an exception is added already shows it: the
      list is handed out by reference. */
  method ListIsLive(w: RdfFileWriter, ex: Exception) returns (seen: seq<Exception>)
    modifies w.errors
    ensures seen == old(w.errors.items) + [ex]
    ensures w.HasExceptions()
  {
    var l := w.GetExceptions();
    w.AddException(ex);
    seen := l.items;
  }
}
