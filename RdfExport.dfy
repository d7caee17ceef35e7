/** The streaming graph export: it looks each requested entity up by full
    name in the metadata of the server, in request order, and streams its
    rows into a consumer that writes to the graph repository. The first name
    without a match stops the export. */
module RdfExport {
  import opened Common
  import opened Schema
  import opened Collaborators
  import RdfEncoding

  /** The connection to the graph repository: its namespace prefixes and its
      statements. */
  class Connection {
    var namespaces: map<string, string>
    var statements: seq<RdfEncoding.Statement>

    constructor ()
      ensures namespaces == map[] && statements == []
    {
      namespaces := map[];
      statements := [];
    }

    method SetNamespace(prefix: string, name: string)
      modifies this
      ensures namespaces == old(namespaces)[prefix := name]
      ensures statements == old(statements)
    {
      namespaces := namespaces[prefix := name];
    }

    /** Removes every statement; namespace declarations stay. */
    method Clear()
      modifies this
      ensures statements == []
      ensures namespaces == old(namespaces)
    {
      statements := [];
    }
  }

  /** A `streamEntityData(name, consumer, pageSize)` call on the server
      client; consumers are told apart by the token the factory made. */
  datatype StreamCall = StreamCall(entityName: string, consumer: nat, pageSize: Option<int32>)

  /** The consumer factory, for the one connection of the repository
      template: a consumer for an entity, told apart by a token, or the
      exception creating it throws. */
  type ConsumerFactory = Entity -> Result<nat, Exception>

  /** The outcome of an export: the stream calls made, and how it ended. */
  datatype ExportRun = ExportRun(calls: seq<StreamCall>, result: Result<(), Exception>)

  /** `stream().filter(fullName equals name).findFirst()`: the first entity
      with that full name, if any. */
  function FindByFullName(entities: seq<Entity>, name: string): (r: Option<Entity>)
    ensures r.None? <==> forall e :: e in entities ==> e.fullName != name
    ensures r.Some? ==> r.value in entities && r.value.fullName == name
  {
    if entities == [] then None
    else if entities[0].fullName == name then Some(entities[0])
    else FindByFullName(entities[1..], name)
  }

  /** The match found is the first one: every entity before it has another
      full name. */
  lemma {:induction false} FindByFullNameIsFirst(entities: seq<Entity>, name: string)
    requires FindByFullName(entities, name).Some?
    ensures exists i :: 0 <= i < |entities| && entities[i] == FindByFullName(entities, name).value &&
                        forall j :: 0 <= j < i ==> entities[j].fullName != name
  {
    if entities[0].fullName != name {
      var rest := entities[1..];
      FindByFullNameIsFirst(rest, name);
      var i :| 0 <= i < |rest| && rest[i] == FindByFullName(rest, name).value &&
               forall j :: 0 <= j < i ==> rest[j].fullName != name;
      assert entities[i + 1] == rest[i];
      forall j | 0 <= j < i + 1
        ensures entities[j].fullName != name
      {
        if j > 0 { assert entities[j] == rest[j - 1]; }
      }
    } else {
      assert entities[0] == FindByFullName(entities, name).value;
    }
  }

  /** Some entity has the full name. */
  predicate HasEntity(entities: seq<Entity>, name: string) {
    exists e :: e in entities && e.fullName == name
  }

  /** One requested name: no match is an IllegalArgumentException; a match
      is streamed, and a failing stream ends the export with its exception. */
  function ExportStep(client: MolgenisClient, factory: ConsumerFactory, entities: seq<Entity>, name: string, pageSize: Option<int32>): ExportRun {
    match FindByFullName(entities, name)
    case None => ExportRun([], Failure(IllegalArgument("Entity with id " + name + " not found")))
    case Some(e) => EntityExport(client, factory, e, pageSize)
  }

  /** `exportEntity`: the consumer is created first, as an argument of the
      call; a factory that throws ends the export before any stream.
      Otherwise one stream call, by full name, into that consumer; a failing
      stream ends the export with its exception. */
  function EntityExport(client: MolgenisClient, factory: ConsumerFactory, entity: Entity, pageSize: Option<int32>): ExportRun {
    match factory(entity)
    case Failure(e) => ExportRun([], Failure(e))
    case Success(consumer) =>
      var outcome := client.stream(entity.fullName);
      ExportRun([StreamCall(entity.fullName, consumer, pageSize)],
                if outcome.Completed? then Success(()) else Failure(outcome.Error()))
  }

  /** The name has a match, the factory makes a consumer for the first one,
      and its stream completes. */
  predicate Exportable(client: MolgenisClient, factory: ConsumerFactory, entities: seq<Entity>, name: string) {
    && FindByFullName(entities, name).Some?
    && factory(FindByFullName(entities, name).value).Success?
    && client.stream(name).Completed?
  }

  /** The requested names in order, stopping at the first failure. */
  function ExportNames(client: MolgenisClient, factory: ConsumerFactory, entities: seq<Entity>, names: seq<string>, pageSize: Option<int32>): ExportRun {
    if names == [] then ExportRun([], Success(()))
    else
      var previous := ExportNames(client, factory, entities, names[..|names| - 1], pageSize);
      if previous.result.Failure? then previous
      else
        var step := ExportStep(client, factory, entities, names[|names| - 1], pageSize);
        ExportRun(previous.calls + step.calls, step.result)
  }

  /** A name after a successful prefix adds its own step. */
  lemma ExportNamesStep(client: MolgenisClient, factory: ConsumerFactory, entities: seq<Entity>, names: seq<string>, i: nat, pageSize: Option<int32>)
    requires i < |names|
    requires ExportNames(client, factory, entities, names[..i], pageSize).result.Success?
    ensures var previous := ExportNames(client, factory, entities, names[..i], pageSize);
            var step := ExportStep(client, factory, entities, names[i], pageSize);
            ExportNames(client, factory, entities, names[..i + 1], pageSize) == ExportRun(previous.calls + step.calls, step.result)
  {
    assert names[..i + 1][..i] == names[..i];
  }

  /** `exportData`: the metadata request failing ends it at once. */
  function ExportDataRun(client: MolgenisClient, factory: ConsumerFactory, names: seq<string>, pageSize: Option<int32>, version: Version): ExportRun {
    match client.metadata(version)
    case Failure(e) => ExportRun([], Failure(e))
    case Success(entities) => ExportNames(client, factory, entities, names, pageSize)
  }

  /** Once the export of a prefix has failed, later names change nothing. */
  lemma {:induction false} FailureIsFinal(client: MolgenisClient, factory: ConsumerFactory, entities: seq<Entity>, names: seq<string>, k: nat, pageSize: Option<int32>)
    requires k <= |names|
    requires ExportNames(client, factory, entities, names[..k], pageSize).result.Failure?
    ensures ExportNames(client, factory, entities, names, pageSize) == ExportNames(client, factory, entities, names[..k], pageSize)
    decreases |names| - k
  {
    if k < |names| {
      var shorter := names[..|names| - 1];
      assert shorter[..k] == names[..k];
      FailureIsFinal(client, factory, entities, shorter, k, pageSize);
    } else {
      assert names[..k] == names;
    }
  }

  /** At most one call per requested name, and exactly one per name when
      the export succeeds. */
  lemma {:induction false} CallsCount(client: MolgenisClient, factory: ConsumerFactory, entities: seq<Entity>, names: seq<string>, pageSize: Option<int32>)
    ensures var run := ExportNames(client, factory, entities, names, pageSize);
            && |run.calls| <= |names|
            && (run.result.Success? ==> |run.calls| == |names|)
  {
    if names != [] {
      CallsCount(client, factory, entities, names[..|names| - 1], pageSize);
    }
  }

  /** The calls follow the requested names in order: call i streams the i-th
      name with a consumer for its first match. */
  lemma {:induction false} CallsFollowNames(client: MolgenisClient, factory: ConsumerFactory, entities: seq<Entity>, names: seq<string>, pageSize: Option<int32>)
    ensures var run := ExportNames(client, factory, entities, names, pageSize);
            forall i :: 0 <= i < |run.calls| && i < |names| ==>
              && FindByFullName(entities, names[i]).Some?
              && factory(FindByFullName(entities, names[i]).value).Success?
              && run.calls[i] == StreamCall(names[i], factory(FindByFullName(entities, names[i]).value).value, pageSize)
  {
    if names != [] {
      var shorter := names[..|names| - 1];
      CallsFollowNames(client, factory, entities, shorter, pageSize);
      CallsCount(client, factory, entities, shorter, pageSize);
      var previous := ExportNames(client, factory, entities, shorter, pageSize);
      var run := ExportNames(client, factory, entities, names, pageSize);
      var last := names[|names| - 1];
      var step := ExportStep(client, factory, entities, last, pageSize);
      assert run == if previous.result.Failure? then previous
                    else ExportRun(previous.calls + step.calls, step.result);
      forall i | 0 <= i < |run.calls| && i < |names|
        ensures FindByFullName(entities, names[i]).Some?
        ensures factory(FindByFullName(entities, names[i]).value).Success?
        ensures run.calls[i] == StreamCall(names[i], factory(FindByFullName(entities, names[i]).value).value, pageSize)
      {
        if i < |previous.calls| {
          assert names[i] == shorter[i];
          assert run.calls[i] == previous.calls[i];
        } else {
          var e := FindByFullName(entities, last).value;
          assert factory(e).Success? && run.calls[i] == StreamCall(e.fullName, factory(e).value, pageSize);
        }
      }
    }
  }

  /** When every name has a match, the factory makes a consumer for it and
      every stream completes, every name is streamed, in request order,
      repeats included. */
  lemma AllFoundAllStreamed(client: MolgenisClient, factory: ConsumerFactory, entities: seq<Entity>, names: seq<string>, pageSize: Option<int32>)
    requires forall i :: 0 <= i < |names| ==> Exportable(client, factory, entities, names[i])
    ensures var run := ExportNames(client, factory, entities, names, pageSize);
            && run.result == Success(())
            && |run.calls| == |names|
            && forall i :: 0 <= i < |names| ==> run.calls[i].entityName == names[i]
    decreases |names|
  {
    if names != [] {
      var shorter := names[..|names| - 1];
      assert forall i :: 0 <= i < |shorter| ==> shorter[i] == names[i];
      AllFoundAllStreamed(client, factory, entities, shorter, pageSize);
    }
    CallsCount(client, factory, entities, names, pageSize);
    CallsFollowNames(client, factory, entities, names, pageSize);
  }

  /** A name without a match stops the export with "Entity with id <name>
      not found", after exactly the names before it have been streamed. */
  lemma FirstMissingStops(client: MolgenisClient, factory: ConsumerFactory, entities: seq<Entity>, names: seq<string>, k: nat, pageSize: Option<int32>)
    requires k < |names|
    requires !HasEntity(entities, names[k])
    requires forall i :: 0 <= i < k ==> Exportable(client, factory, entities, names[i])
    ensures var run := ExportNames(client, factory, entities, names, pageSize);
            && run.result == Failure(IllegalArgument("Entity with id " + names[k] + " not found"))
            && |run.calls| == k
            && forall i :: 0 <= i < k ==> run.calls[i].entityName == names[i]
  {
    var prefix := names[..k];
    assert forall i :: 0 <= i < |prefix| ==> prefix[i] == names[i];
    AllFoundAllStreamed(client, factory, entities, prefix, pageSize);
    ExportNamesStep(client, factory, entities, names, k, pageSize);
    FailureIsFinal(client, factory, entities, names, k + 1, pageSize);
  }

  /** A consumer factory that throws for the first match of a name stops the
      export with that exception, after exactly the names before it have
      been streamed, and before any stream of that name. */
  lemma FactoryFailureStops(client: MolgenisClient, factory: ConsumerFactory, entities: seq<Entity>, names: seq<string>, k: nat, pageSize: Option<int32>)
    requires k < |names|
    requires FindByFullName(entities, names[k]).Some?
    requires factory(FindByFullName(entities, names[k]).value).Failure?
    requires forall i :: 0 <= i < k ==> Exportable(client, factory, entities, names[i])
    ensures var run := ExportNames(client, factory, entities, names, pageSize);
            && run.result == Failure(factory(FindByFullName(entities, names[k]).value).error)
            && |run.calls| == k
            && forall i :: 0 <= i < k ==> run.calls[i].entityName == names[i]
  {
    var prefix := names[..k];
    assert forall i :: 0 <= i < |prefix| ==> prefix[i] == names[i];
    AllFoundAllStreamed(client, factory, entities, prefix, pageSize);
    var e := FindByFullName(entities, names[k]).value;
    var step := ExportStep(client, factory, entities, names[k], pageSize);
    assert step == EntityExport(client, factory, e, pageSize);
    assert step == ExportRun([], Failure(factory(e).error));
    ExportNamesStep(client, factory, entities, names, k, pageSize);
    var previous := ExportNames(client, factory, entities, prefix, pageSize);
    assert ExportNames(client, factory, entities, names[..k + 1], pageSize) == ExportRun(previous.calls, step.result);
    FailureIsFinal(client, factory, entities, names, k + 1, pageSize);
  }

  /** A metadata request that fails ends the export before any stream. */
  lemma MetadataFailureStreamsNothing(client: MolgenisClient, factory: ConsumerFactory, names: seq<string>, pageSize: Option<int32>, version: Version)
    requires client.metadata(version).Failure?
    ensures ExportDataRun(client, factory, names, pageSize, version) == ExportRun([], Failure(client.metadata(version).error))
  {
  }

  class RdfExporter {
    const client: MolgenisClient
    const connection: Connection
    const consumerFactory: ConsumerFactory
    /** The calls this exporter has made on the server client. */
    var calls: seq<StreamCall>

    constructor Init(client: MolgenisClient, connection: Connection, consumerFactory: ConsumerFactory)
      ensures this.client == client && this.connection == connection && this.consumerFactory == consumerFactory
      ensures calls == []
    {
      this.client := client;
      this.connection := connection;
      this.consumerFactory := consumerFactory;
      calls := [];
    }

    /** The constructor's `requireNonNull` checks, in argument order. */
    static method New(client: Option<MolgenisClient>, template: Connection?, consumerFactory: Option<ConsumerFactory>)
      returns (r: Result<RdfExporter, Exception>)
      ensures r.Failure? <==> client.None? || template == null || consumerFactory.None?
      ensures r.Failure? ==> r.error == NullPointer
      ensures r.Success? ==> (fresh(r.value) && r.value.calls == [] &&
                              r.value.client == client.value && r.value.connection == template &&
                              r.value.consumerFactory == consumerFactory.value)
    {
      if client.None? || template == null || consumerFactory.None? {
        return Failure(NullPointer);
      }
      var e := new RdfExporter.Init(client.value, template, consumerFactory.value);
      r := Success(e);
    }

    /** One iteration of `exportData`: look the name up among the entities
        and export the one found, or fail naming the missing entity. */
    method ExportName(entities: seq<Entity>, name: string, pageSize: Option<int32>) returns (r: Result<(), Exception>)
      modifies this
      ensures calls == old(calls) + ExportStep(client, consumerFactory, entities, name, pageSize).calls
      ensures r == ExportStep(client, consumerFactory, entities, name, pageSize).result
    {
      var found := FindByFullName(entities, name);
      if found.None? {
        r := Failure(IllegalArgument("Entity with id " + name + " not found"));
      } else {
        r := ExportEntity(found.value, pageSize);
      }
    }

    /** `exportEntity`: creates a consumer for the entity, then streams the
        entity's rows, by full name, into it. */
    method ExportEntity(entity: Entity, pageSize: Option<int32>) returns (r: Result<(), Exception>)
      modifies this
      ensures calls == old(calls) + EntityExport(client, consumerFactory, entity, pageSize).calls
      ensures r == EntityExport(client, consumerFactory, entity, pageSize).result
    {
      var consumer := consumerFactory(entity);
      if consumer.Failure? {
        return Failure(consumer.error);
      }
      calls := calls + [StreamCall(entity.fullName, consumer.value, pageSize)];
      var outcome := client.stream(entity.fullName);
      r := if outcome.Completed? then Success(()) else Failure(outcome.Error());
    }

    /** `exportData`: one metadata request, then every requested name in
        order; see `ExportNames` for what that run does. */
    method ExportData(names: seq<string>, pageSize: Option<int32>, version: Version) returns (r: Result<(), Exception>)
      modifies this
      ensures calls == old(calls) + ExportDataRun(client, consumerFactory, names, pageSize, version).calls
      ensures r == ExportDataRun(client, consumerFactory, names, pageSize, version).result
    {
      var metadata := client.metadata(version);
      if metadata.Failure? {
        return Failure(metadata.error);
      }
      r := ExportNamed(metadata.value, names, pageSize);
    }

    /** The loop of `exportData` over the requested names, given the
        metadata fetched: it stops at the first failure. */
    method ExportNamed(entities: seq<Entity>, names: seq<string>, pageSize: Option<int32>) returns (r: Result<(), Exception>)
      modifies this
      ensures calls == old(calls) + ExportNames(client, consumerFactory, entities, names, pageSize).calls
      ensures r == ExportNames(client, consumerFactory, entities, names, pageSize).result
    {
      var i := 0;
      r := Success(());
      ghost var run := ExportRun([], Success(()));
      while i < |names| && r.Success?
        invariant 0 <= i <= |names|
        invariant run == ExportNames(client, consumerFactory, entities, names[..i], pageSize)
        invariant calls == old(calls) + run.calls
        invariant r == run.result
      {
        ExportNamesStep(client, consumerFactory, entities, names, i, pageSize);
        ghost var step := ExportStep(client, consumerFactory, entities, names[i], pageSize);
        r := ExportName(entities, names[i], pageSize);
        run := ExportRun(run.calls + step.calls, step.result);
        i := i + 1;
      }
      if r.Failure? {
        FailureIsFinal(client, consumerFactory, entities, names, i, pageSize);
      } else {
        assert names[..i] == names;
      }
    }

    /** `addNamespaces(map, connection)`: declares every prefix of the map. */
    method AddNamespaces(namespaces: map<string, string>)
      modifies connection
      ensures connection.namespaces == old(connection.namespaces) + namespaces
      ensures connection.statements == old(connection.statements)
    {
      var rest := namespaces.Keys;
      ghost var done: set<string> := {};
      while rest != {}
        invariant rest <= namespaces.Keys
        invariant forall p :: p in done <==> p in namespaces && p !in rest
        invariant connection.namespaces == old(connection.namespaces) + map p | p in done :: namespaces[p]
        invariant connection.statements == old(connection.statements)
        decreases rest
      {
        var p :| p in rest;
        connection.SetNamespace(p, namespaces[p]);
        done := done + {p};
        rest := rest - {p};
      }
      assert (map p | p in done :: namespaces[p]) == namespaces;
    }

    /** `clear`: empties the repository; its namespaces stay. */
    method Clear()
      modifies connection
      ensures connection.statements == []
      ensures connection.namespaces == old(connection.namespaces)
    {
      connection.Clear();
    }
  }
}
