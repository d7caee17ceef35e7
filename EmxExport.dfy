/** The tabular export: it picks a backend from the target path, optionally
    writes the schema and narrows the list of sheets to the entities the
    schema selects, then streams the data of every sheet. An entity the
    server does not know is recorded as an error and the export goes on; any
    other failure ends it. */
module EmxExport {
  import opened Common
  import opened Schema
  import opened Filtering
  import opened Collaborators

  const Xlsx := ".xlsx"
  const Xls := ".xls"

  // -----------------------------------------------------------------------
  // Backend choice
  // -----------------------------------------------------------------------

  predicate IsSpreadsheetPath(path: string) {
    EndsWith(path, Xlsx) || EndsWith(path, Xls)
  }

  function AlreadyExistsMessage(path: string): string {
    "File " + path + " already exists, please use the '-o' option to overwrite."
  }

  /** `createBackend`, given whether a file exists at the path. */
  function BackendFor(path: string, overwrite: bool, fileExists: bool): Result<Backend, Exception> {
    if IsSpreadsheetPath(path) then Success(ExcelBackend(path, overwrite))
    else if !fileExists || overwrite then Success(ZipFileBackend(path))
    else Failure(FileAlreadyExists(AlreadyExistsMessage(path)))
  }

  /** The overwrite guard: only a non-spreadsheet path naming an existing
      file, without permission to overwrite, is refused; a spreadsheet path
      gets the workbook backend, any other path a zip backend. */
  lemma OverwriteGuard(path: string, overwrite: bool, fileExists: bool)
    ensures BackendFor(path, overwrite, fileExists).Failure? <==> !IsSpreadsheetPath(path) && fileExists && !overwrite
    ensures BackendFor(path, overwrite, fileExists).Failure? ==>
              BackendFor(path, overwrite, fileExists).error == FileAlreadyExists(AlreadyExistsMessage(path))
    ensures BackendFor(path, overwrite, fileExists).Success? ==>
              BackendFor(path, overwrite, fileExists).value.path == path &&
              (BackendFor(path, overwrite, fileExists).value.ExcelBackend? <==> IsSpreadsheetPath(path))
  {
  }

  /** Both spreadsheet extensions are recognised, and nothing else is. */
  lemma SpreadsheetExtensions(overwrite: bool, fileExists: bool)
    ensures BackendFor("out.xlsx", overwrite, fileExists) == Success(ExcelBackend("out.xlsx", overwrite))
    ensures BackendFor("out.xls", overwrite, fileExists) == Success(ExcelBackend("out.xls", overwrite))
    ensures BackendFor("out.zip", overwrite, false) == Success(ZipFileBackend("out.zip"))
  {
    assert "out.xlsx"[3..] == ".xlsx";
    assert "out.xls"[3..] == ".xls";
    assert "out.zip"[3..] != ".xlsx" by { assert "out.zip"[3..][2] != ".xlsx"[2]; }
    assert "out.zip"[4..] != ".xls" by { assert "out.zip"[4..][1] != ".xls"[1]; }
  }

  /** The files present on disk. */
  class FileSystem {
    var files: set<string>

    constructor (files: set<string>)
      ensures this.files == files
    {
      this.files := files;
    }
  }

  /** `createBackend`: the zip backend deletes an existing file first. */
  method CreateBackend(path: string, overwrite: bool, fs: FileSystem) returns (r: Result<Backend, Exception>)
    modifies fs
    ensures r == BackendFor(path, overwrite, path in old(fs.files))
    ensures fs.files == if r.Success? && r.value.ZipFileBackend? then old(fs.files) - {path} else old(fs.files)
  {
    if EndsWith(path, Xlsx) || EndsWith(path, Xls) {
      r := Success(ExcelBackend(path, overwrite));
    } else {
      var fileExists := path in fs.files;
      if !fileExists || overwrite {
        if fileExists {
          fs.files := fs.files - {path};
        }
        r := Success(ZipFileBackend(path));
      } else {
        r := Failure(FileAlreadyExists(AlreadyExistsMessage(path)));
      }
    }
  }

  // -----------------------------------------------------------------------
  // Datasheet selection
  // -----------------------------------------------------------------------

  /** The entities that pass the filter and are not abstract, in order. */
  function Kept(filter: EntityFilter, entities: seq<Entity>): (r: seq<Entity>)
    ensures forall e :: e in r ==> e in entities && filter.IsIncluded(e) && !e.isAbstract
    ensures forall e :: e in entities && filter.IsIncluded(e) && !e.isAbstract ==> e in r
  {
    if entities == [] then []
    else
      (if filter.IsIncluded(entities[0]) && !entities[0].isAbstract then [entities[0]] else [])
      + Kept(filter, entities[1..])
  }

  function FullNames(entities: seq<Entity>): (r: seq<string>)
    ensures |r| == |entities|
    ensures forall i :: 0 <= i < |entities| ==> r[i] == entities[i].fullName
  {
    seq(|entities|, i requires 0 <= i < |entities| => entities[i].fullName)
  }

  /** `Stream.distinct()`: the first occurrence of every element, in order. */
  function Distinct(s: seq<string>): (r: seq<string>)
    ensures NoDuplicates(r)
    ensures forall x :: x in r <==> x in s
  {
    if s == [] then []
    else
      var d := Distinct(s[..|s| - 1]);
      var last := s[|s| - 1];
      assert forall x :: x in s <==> x in s[..|s| - 1] || x == last;
      if last in d then d else d + [last]
  }

  /** The position of the first occurrence of x in s. */
  function FirstIndex(s: seq<string>, x: string): (i: nat)
    requires x in s
    ensures i < |s| && s[i] == x && x !in s[..i]
  {
    if s[0] == x then 0 else 1 + FirstIndex(s[1..], x)
  }

  lemma FirstIndexInPrefix(s: seq<string>, x: string, n: nat)
    requires n <= |s| && x in s[..n]
    ensures FirstIndex(s, x) == FirstIndex(s[..n], x)
  {
  }

  /** `distinct` keeps the order of first occurrences. */
  lemma {:induction false} DistinctKeepsFirstSeenOrder(s: seq<string>)
    ensures forall i, j :: 0 <= i < j < |Distinct(s)| ==> FirstIndex(s, Distinct(s)[i]) < FirstIndex(s, Distinct(s)[j])
  {
    if s != [] {
      var prefix := s[..|s| - 1];
      var last := s[|s| - 1];
      var d := Distinct(prefix);
      DistinctKeepsFirstSeenOrder(prefix);
      forall x | x in d
        ensures FirstIndex(s, x) == FirstIndex(prefix, x) && FirstIndex(s, x) < |s| - 1
      {
        assert s[..|s| - 1] == prefix;
        FirstIndexInPrefix(s, x, |s| - 1);
      }
      if last !in d {
        assert last !in prefix;
        assert FirstIndex(s, last) == |s| - 1;
        var r := d + [last];
        assert r == Distinct(s);
        forall i, j | 0 <= i < j < |r|
          ensures FirstIndex(s, r[i]) < FirstIndex(s, r[j])
        {
          assert r[i] in d;
          if j < |d| {
            assert r[j] in d;
          }
        }
      }
    }
  }

  /** `getDatasheets`: the full names of the entities that pass the filter
      and are not abstract, each once, in first-seen order. */
  function Datasheets(entities: seq<string>, version: Version, metadata: seq<Entity>): seq<string> {
    Distinct(FullNames(Kept(EntityFilter(entities, version), metadata)))
  }

  /** A name is a datasheet exactly when some entity of that full name passes
      the filter and is not abstract; no name appears twice; the order is that
      of the first such entity. */
  lemma DatasheetsSelection(entities: seq<string>, version: Version, metadata: seq<Entity>)
    ensures var sheets := Datasheets(entities, version, metadata);
            && NoDuplicates(sheets)
            && (forall n :: n in sheets <==>
                  exists e :: e in metadata && EntityFilter(entities, version).IsIncluded(e) && !e.isAbstract && e.fullName == n)
    ensures var names := FullNames(Kept(EntityFilter(entities, version), metadata));
            var sheets := Datasheets(entities, version, metadata);
            forall i, j :: 0 <= i < j < |sheets| ==> FirstIndex(names, sheets[i]) < FirstIndex(names, sheets[j])
  {
    var kept := Kept(EntityFilter(entities, version), metadata);
    var names := FullNames(kept);
    DistinctKeepsFirstSeenOrder(names);
    forall n ensures n in names <==> exists e :: e in kept && e.fullName == n {
      if n in names {
        var i :| 0 <= i < |names| && names[i] == n;
        assert kept[i] in kept;
      }
      if exists e :: e in kept && e.fullName == n {
        var e :| e in kept && e.fullName == n;
        var i :| 0 <= i < |kept| && kept[i] == e;
        assert names[i] == n;
      }
    }
  }

  /** `filter` keeps the input order: filtering a concatenation is filtering
      each part in turn. */
  lemma {:induction false} KeptKeepsOrder(filter: EntityFilter, a: seq<Entity>, b: seq<Entity>)
    ensures Kept(filter, a + b) == Kept(filter, a) + Kept(filter, b)
  {
    if a == [] {
      assert a + b == b;
    } else {
      assert (a + b)[0] == a[0];
      assert (a + b)[1..] == a[1..] + b;
      KeptKeepsOrder(filter, a[1..], b);
    }
  }

  /** The datasheets follow the metadata: with no metadata there is none, and
      one more entity at the end of the metadata adds its full name at the
      end exactly when it is kept and its name is not yet a datasheet. */
  lemma DatasheetsInMetadataOrder(entities: seq<string>, version: Version, metadata: seq<Entity>, e: Entity)
    ensures Datasheets(entities, version, []) == []
    ensures var sheets := Datasheets(entities, version, metadata);
            Datasheets(entities, version, metadata + [e])
              == if EntityFilter(entities, version).IsIncluded(e) && !e.isAbstract && e.fullName !in sheets
                 then sheets + [e.fullName] else sheets
  {
    var f := EntityFilter(entities, version);
    var kept := Kept(f, metadata);
    var names := FullNames(kept);
    KeptKeepsOrder(f, metadata, [e]);
    assert [e][1..] == [];
    if f.IsIncluded(e) && !e.isAbstract {
      assert Kept(f, [e]) == [e];
      var s := FullNames(kept + [e]);
      assert s == names + [e.fullName];
      assert s[..|s| - 1] == names;
    } else {
      assert Kept(f, [e]) == [];
      assert kept + [] == kept;
    }
  }

  /** From version 3 on, an entity whose id is listed is left out, and so is
      its name unless another entity of that name is kept. */
  lemma ListedIdsAreDropped(entities: seq<string>, version: Version, metadata: seq<Entity>, n: string)
    requires version.major >= 3
    requires forall e :: e in metadata && e.fullName == n ==> e.id in entities || e.isAbstract
    ensures n !in Datasheets(entities, version, metadata)
  {
    DatasheetsSelection(entities, version, metadata);
  }

  // -----------------------------------------------------------------------
  // The export run
  // -----------------------------------------------------------------------

  /** What the tabular writer receives. */
  datatype EmxEvent =
    | MetadataWritten(metadata: seq<Entity>)
    | DataStreamed(name: string, entity: Entity, pageSize: Option<int32>)
    | BackendClosed(backend: Backend)

  /** The data phase so far: what was written, the exceptions the writer
      collected, and the exception that ended the run, if any. */
  datatype DataRun = DataRun(events: seq<EmxEvent>, errors: seq<Exception>, abort: Option<Exception>)

  function UnknownEntityError(name: string): Exception {
    IllegalArgument("entity: " + name + " does not exist")
  }

  /** A name whose data phase ends the export. */
  predicate Aborts(client: MolgenisClient, name: string) {
    client.entity(name).Failure? || client.stream(name).OtherFailure?
  }

  /** `writeData` for one name: the entity is fetched, then its rows are
      streamed; a JSON failure is collected as an error. */
  function WriteData(client: MolgenisClient, name: string, pageSize: Option<int32>): DataRun {
    match client.entity(name)
    case Failure(e) => DataRun([], [], Some(e))
    case Success(entity) =>
      var streamed := [DataStreamed(name, entity, pageSize)];
      match client.stream(name)
      case Completed => DataRun(streamed, [], None)
      case JsonFailure => DataRun(streamed, [UnknownEntityError(name)], None)
      case OtherFailure(e) => DataRun(streamed, [], Some(e))
  }

  /** The loop over the target names, stopping at the first abort. */
  function WriteAllData(client: MolgenisClient, names: seq<string>, pageSize: Option<int32>): DataRun {
    if names == [] then DataRun([], [], None)
    else
      var previous := WriteAllData(client, names[..|names| - 1], pageSize);
      if previous.abort.Some? then previous
      else
        var step := WriteData(client, names[|names| - 1], pageSize);
        DataRun(previous.events + step.events, previous.errors + step.errors, step.abort)
  }

  /** The names whose stream fails as unknown to the server. */
  function JsonFailed(client: MolgenisClient, names: seq<string>): (r: seq<string>)
    ensures forall n :: n in r <==> n in names && client.stream(n).JsonFailure?
  {
    if names == [] then []
    else
      var rest := JsonFailed(client, names[..|names| - 1]);
      var last := names[|names| - 1];
      assert forall x :: x in names <==> x in names[..|names| - 1] || x == last;
      if client.stream(last).JsonFailure? then rest + [last] else rest
  }

  /** One error per name, in order. */
  function UnknownEntityErrors(names: seq<string>): (r: seq<Exception>)
    ensures |r| == |names|
    ensures forall i :: 0 <= i < |names| ==> r[i] == UnknownEntityError(names[i])
  {
    seq(|names|, i requires 0 <= i < |names| => UnknownEntityError(names[i]))
  }

  /** The names are streamed one by one, in order. */
  lemma {:induction false} DataEventsFollowNames(client: MolgenisClient, names: seq<string>, pageSize: Option<int32>)
    ensures var run := WriteAllData(client, names, pageSize);
            && |run.events| <= |names|
            && (run.abort.None? ==> |run.events| == |names|)
            && forall i :: 0 <= i < |run.events| ==>
                 client.entity(names[i]).Success? &&
                 run.events[i] == DataStreamed(names[i], client.entity(names[i]).value, pageSize)
  {
    if names != [] {
      var prefix := names[..|names| - 1];
      DataEventsFollowNames(client, prefix, pageSize);
      var previous := WriteAllData(client, prefix, pageSize);
      var run := WriteAllData(client, names, pageSize);
      if previous.abort.None? {
        var step := WriteData(client, names[|names| - 1], pageSize);
        assert run.events == previous.events + step.events;
        forall i | 0 <= i < |run.events|
          ensures client.entity(names[i]).Success?
          ensures run.events[i] == DataStreamed(names[i], client.entity(names[i]).value, pageSize)
        {
          if i < |previous.events| {
            assert names[i] == prefix[i];
          } else {
            assert run.events[i] == step.events[0];
          }
        }
      }
    }
  }

  /** The data phase aborts exactly when some name aborts. */
  lemma {:induction false} DataAbortsIff(client: MolgenisClient, names: seq<string>, pageSize: Option<int32>)
    ensures WriteAllData(client, names, pageSize).abort.None? <==> forall i :: 0 <= i < |names| ==> !Aborts(client, names[i])
  {
    if names != [] {
      var prefix := names[..|names| - 1];
      DataAbortsIff(client, prefix, pageSize);
      assert forall i :: 0 <= i < |prefix| ==> prefix[i] == names[i];
      if WriteAllData(client, prefix, pageSize).abort.Some? {
        var k :| 0 <= k < |prefix| && Aborts(client, prefix[k]);
        assert Aborts(client, names[k]);
      }
    }
  }

  /** Without an abort there is one error per name unknown to the server. */
  lemma {:induction false} DataErrorsAreUnknownNames(client: MolgenisClient, names: seq<string>, pageSize: Option<int32>)
    ensures var run := WriteAllData(client, names, pageSize);
            run.abort.None? ==> run.errors == UnknownEntityErrors(JsonFailed(client, names))
  {
    if names != [] {
      var prefix := names[..|names| - 1];
      DataErrorsAreUnknownNames(client, prefix, pageSize);
      var run := WriteAllData(client, names, pageSize);
      if run.abort.None? {
        var previous := WriteAllData(client, prefix, pageSize);
        assert previous.abort.None?;
        var failed := JsonFailed(client, names);
        var before := JsonFailed(client, prefix);
        assert run.errors == UnknownEntityErrors(failed);
      }
    }
  }

  /** The data phase, completely: names are streamed one by one in order;
      it aborts exactly when some name aborts; without an abort every name
      is streamed and there is one error per name unknown to the server. */
  lemma WriteAllDataFacts(client: MolgenisClient, names: seq<string>, pageSize: Option<int32>)
    ensures var run := WriteAllData(client, names, pageSize);
            && |run.events| <= |names|
            && (forall i :: 0 <= i < |run.events| ==>
                  client.entity(names[i]).Success? &&
                  run.events[i] == DataStreamed(names[i], client.entity(names[i]).value, pageSize))
            && (run.abort.None? <==> forall i :: 0 <= i < |names| ==> !Aborts(client, names[i]))
            && (run.abort.None? ==> |run.events| == |names|)
            && (run.abort.None? ==> run.errors == UnknownEntityErrors(JsonFailed(client, names)))
  {
    DataEventsFollowNames(client, names, pageSize);
    DataAbortsIff(client, names, pageSize);
    DataErrorsAreUnknownNames(client, names, pageSize);
  }

  /** The first name that aborts ends the run with its exception. */
  lemma FirstAbortEnds(client: MolgenisClient, names: seq<string>, k: nat, pageSize: Option<int32>)
    requires k < |names| && Aborts(client, names[k])
    requires forall i :: 0 <= i < k ==> !Aborts(client, names[i])
    ensures WriteAllData(client, names, pageSize).abort ==
              Some(if client.entity(names[k]).Failure? then client.entity(names[k]).error else client.stream(names[k]).error)
    decreases |names|
  {
    if k < |names| - 1 {
      var prefix := names[..|names| - 1];
      assert forall i :: 0 <= i < |prefix| ==> prefix[i] == names[i];
      FirstAbortEnds(client, prefix, k, pageSize);
    } else {
      var prefix := names[..|names| - 1];
      WriteAllDataFacts(client, prefix, pageSize);
      assert forall i :: 0 <= i < |prefix| ==> prefix[i] == names[i];
    }
  }

  /** The outcome of a whole export once the backend exists. */
  datatype ExportOutcome = ExportOutcome(events: seq<EmxEvent>, errors: seq<Exception>, result: Result<bool, Exception>)

  /** The fork on `includeMetadata`: the events it writes and the target
      names. */
  function Targets(client: MolgenisClient, entities: seq<string>, includeMetadata: bool, version: Version): Result<(seq<EmxEvent>, seq<string>), Exception> {
    if !includeMetadata then Success(([], entities))
    else match client.filteredMetadata(version, entities)
      case Failure(e) => Failure(e)
      case Success(metadata) => Success(([MetadataWritten(metadata)], Datasheets(entities, version, metadata)))
  }

  /** The body of the try-with-resources: the backend is closed on every
      path; the collected errors reach the client only when the run ends
      normally, and the result says whether there were any. */
  function ExportRun(client: MolgenisClient, entities: seq<string>, includeMetadata: bool, version: Version,
                     pageSize: Option<int32>, backend: Backend): ExportOutcome {
    match Targets(client, entities, includeMetadata, version)
    case Failure(e) => ExportOutcome([BackendClosed(backend)], [], Failure(e))
    case Success((written, names)) => Finish(written, WriteAllData(client, names, pageSize), backend)
  }

  /** The end of the export after the data phase: the backend is closed on
      every path; the collected errors reach the client only when the run
      ends normally, and the result says whether there were any. */
  function Finish(written: seq<EmxEvent>, data: DataRun, backend: Backend): ExportOutcome {
    var events := written + data.events + [BackendClosed(backend)];
    if data.abort.Some? then ExportOutcome(events, [], Failure(data.abort.value))
    else ExportOutcome(events, data.errors, Success(data.errors != []))
  }

  /** The names whose data an export streams. */
  function StreamedNames(events: seq<EmxEvent>): seq<string> {
    if events == [] then []
    else
      var rest := StreamedNames(events[..|events| - 1]);
      match events[|events| - 1]
      case DataStreamed(name, _, _) => rest + [name]
      case _ => rest
  }

  lemma {:induction false} StreamedNamesOfData(client: MolgenisClient, names: seq<string>, pageSize: Option<int32>, events: seq<EmxEvent>)
    requires |events| <= |names|
    requires forall i :: 0 <= i < |events| ==>
               client.entity(names[i]).Success? &&
               events[i] == DataStreamed(names[i], client.entity(names[i]).value, pageSize)
    ensures StreamedNames(events) == names[..|events|]
  {
    if events != [] {
      var shorter := events[..|events| - 1];
      StreamedNamesOfData(client, names, pageSize, shorter);
      assert names[..|events|] == names[..|events| - 1] + [names[|events| - 1]];
    }
  }

  lemma StreamedNamesAppend(a: seq<EmxEvent>, b: seq<EmxEvent>)
    ensures StreamedNames(a + b) == StreamedNames(a) + StreamedNames(b)
    decreases |b|
  {
    if b != [] {
      var shorter := b[..|b| - 1];
      StreamedNamesAppend(a, shorter);
      assert (a + b)[..|a + b| - 1] == a + shorter;
    } else {
      assert a + b == a;
    }
  }

  /** Without an abort, the data phase streams every target name, in order. */
  lemma DataPhaseStreamsAll(client: MolgenisClient, names: seq<string>, pageSize: Option<int32>)
    requires forall n :: n in names ==> !Aborts(client, n)
    ensures var data := WriteAllData(client, names, pageSize);
            data.abort.None? && StreamedNames(data.events) == names
  {
    var data := WriteAllData(client, names, pageSize);
    DataAbortsIff(client, names, pageSize);
    DataEventsFollowNames(client, names, pageSize);
    StreamedNamesOfData(client, names, pageSize, data.events);
    assert names[..|data.events|] == names;
  }

  /** Without an abort, the data phase collects one error per name unknown
      to the server, in order, and some error exactly when some name is
      unknown. */
  lemma DataPhaseErrors(client: MolgenisClient, names: seq<string>, pageSize: Option<int32>)
    requires forall n :: n in names ==> !Aborts(client, n)
    ensures var data := WriteAllData(client, names, pageSize);
            && data.errors == UnknownEntityErrors(JsonFailed(client, names))
            && (data.errors != [] <==> exists n :: n in names && client.stream(n).JsonFailure?)
  {
    DataAbortsIff(client, names, pageSize);
    DataErrorsAreUnknownNames(client, names, pageSize);
    var failed := JsonFailed(client, names);
    if exists n :: n in names && client.stream(n).JsonFailure? {
      var n :| n in names && client.stream(n).JsonFailure?;
      assert n in failed;
    }
  }

  /** Without an abort, the export streams exactly the target names in
      order: the requested names as given (repeats and abstract entities
      included) without metadata, the datasheets with it; the backend is
      closed last; the result is true exactly when some name was unknown,
      and there is one error per unknown name. */
  lemma ExportStreamsTargets(client: MolgenisClient, entities: seq<string>, includeMetadata: bool, version: Version,
                             pageSize: Option<int32>, backend: Backend)
    requires Targets(client, entities, includeMetadata, version).Success?
    requires forall n :: n in Targets(client, entities, includeMetadata, version).value.1 ==> !Aborts(client, n)
    ensures var names := Targets(client, entities, includeMetadata, version).value.1;
            var run := ExportRun(client, entities, includeMetadata, version, pageSize, backend);
            && (!includeMetadata ==> names == entities)
            && (includeMetadata ==> names == Datasheets(entities, version, client.filteredMetadata(version, entities).value))
            && StreamedNames(run.events) == names
            && run.events[|run.events| - 1] == BackendClosed(backend)
            && |run.errors| == |JsonFailed(client, names)|
            && (forall i :: 0 <= i < |run.errors| ==> run.errors[i] == UnknownEntityError(JsonFailed(client, names)[i]))
            && run.result == Success(exists n :: n in names && client.stream(n).JsonFailure?)
  {
    var t := Targets(client, entities, includeMetadata, version).value;
    var names := t.1;
    var data := WriteAllData(client, names, pageSize);
    DataPhaseStreamsAll(client, names, pageSize);
    DataPhaseErrors(client, names, pageSize);
    var run := ExportRun(client, entities, includeMetadata, version, pageSize, backend);
    assert run == Finish(t.0, data, backend);
    FinishWithoutAbort(t.0, data, backend);
    StreamedNamesAppend(t.0, data.events);
    StreamedNamesAppend(t.0 + data.events, [BackendClosed(backend)]);
    assert StreamedNames([BackendClosed(backend)]) == [] by {
      assert [BackendClosed(backend)][..0] == [];
    }
    assert StreamedNames(t.0) == [] by {
      if t.0 != [] {
        assert t.0[..0] == [];
      }
    }
    assert StreamedNames(run.events) == names;
  }

  lemma FinishWithoutAbort(written: seq<EmxEvent>, data: DataRun, backend: Backend)
    requires data.abort.None?
    ensures Finish(written, data, backend)
         == ExportOutcome(written + data.events + [BackendClosed(backend)], data.errors, Success(data.errors != []))
  {
  }

  /** An abort ends the export with that exception: the errors collected so
      far are dropped, and the backend is still closed. */
  lemma AbortDropsErrors(client: MolgenisClient, entities: seq<string>, includeMetadata: bool, version: Version,
                         pageSize: Option<int32>, backend: Backend)
    requires Targets(client, entities, includeMetadata, version).Success?
    requires exists n :: n in Targets(client, entities, includeMetadata, version).value.1 && Aborts(client, n)
    ensures var run := ExportRun(client, entities, includeMetadata, version, pageSize, backend);
            run.result.Failure? && run.errors == [] && run.events[|run.events| - 1] == BackendClosed(backend)
  {
    var names := Targets(client, entities, includeMetadata, version).value.1;
    WriteAllDataFacts(client, names, pageSize);
    var n :| n in names && Aborts(client, n);
    var i :| 0 <= i < |names| && names[i] == n;
  }

  /** The client of the tabular export: the exceptions it has gathered over
      its exports, and what it has written. */
  class EmxClient {
    const client: MolgenisClient
    var exceptions: seq<Exception>
    var output: seq<EmxEvent>

    constructor (client: MolgenisClient)
      ensures this.client == client && exceptions == [] && output == []
    {
      this.client := client;
      exceptions := [];
      output := [];
    }

    /** `writeData`: one name's data phase; returns the exceptions it hands
        to the writer (none or one) and the one that ends the export. */
    method WriteDataFor(pageSize: Option<int32>, name: string) returns (errors: seq<Exception>, abort: Option<Exception>)
      modifies this
      ensures output == old(output) + WriteData(client, name, pageSize).events
      ensures exceptions == old(exceptions)
      ensures errors == WriteData(client, name, pageSize).errors
      ensures abort == WriteData(client, name, pageSize).abort
    {
      errors := [];
      abort := None;
      var entity := client.entity(name);
      if entity.Failure? {
        abort := Some(entity.error);
        return;
      }
      output := output + [DataStreamed(name, entity.value, pageSize)];
      var outcome := client.stream(name);
      match outcome
      case Completed =>
      case JsonFailure =>
        errors := [UnknownEntityError(name)];
      case OtherFailure(e) =>
        abort := Some(e);
    }

    /** The loop of `export` over the target names, with the writer's
        exception list as a local. */
    method WriteAll(names: seq<string>, pageSize: Option<int32>) returns (errors: seq<Exception>, abort: Option<Exception>)
      modifies this
      ensures output == old(output) + WriteAllData(client, names, pageSize).events
      ensures exceptions == old(exceptions)
      ensures errors == WriteAllData(client, names, pageSize).errors
      ensures abort == WriteAllData(client, names, pageSize).abort
    {
      errors := [];
      abort := None;
      var i := 0;
      ghost var run := DataRun([], [], None);
      while i < |names| && abort.None?
        invariant 0 <= i <= |names|
        invariant run == WriteAllData(client, names[..i], pageSize)
        invariant exceptions == old(exceptions)
        invariant output == old(output) + run.events
        invariant errors == run.errors && abort == run.abort
      {
        WriteAllDataStep(client, names, i, pageSize);
        var stepErrors, stepAbort := WriteDataFor(pageSize, names[i]);
        ghost var step := WriteData(client, names[i], pageSize);
        run := DataRun(run.events + step.events, run.errors + step.errors, step.abort);
        errors := errors + stepErrors;
        abort := stepAbort;
        i := i + 1;
      }
      if abort.Some? {
        WriteAllDataAbortIsFinal(client, names, i, pageSize);
      } else {
        assert names[..i] == names;
      }
    }

    /** The fork on `includeMetadata` of `export`. */
    method ChooseTargets(entities: seq<string>, includeMetadata: bool, version: Version)
      returns (t: Result<(seq<EmxEvent>, seq<string>), Exception>)
      ensures t == Targets(client, entities, includeMetadata, version)
    {
      if !includeMetadata {
        return Success(([], entities));
      }
      var metadata := client.filteredMetadata(version, entities);
      if metadata.Failure? {
        return Failure(metadata.error);
      }
      t := Success(([MetadataWritten(metadata.value)], Datasheets(entities, version, metadata.value)));
    }

    /** The data phase and the closing of the backend. */
    method WriteAndClose(backend: Backend, written: seq<EmxEvent>, names: seq<string>, pageSize: Option<int32>)
      returns (r: Result<bool, Exception>)
      modifies this
      ensures var outcome := Finish(written, WriteAllData(client, names, pageSize), backend);
              output == old(output) + outcome.events && exceptions == old(exceptions) + outcome.errors && r == outcome.result
    {
      ghost var start := output;
      output := output + written;
      var errors, abort := WriteAll(names, pageSize);
      output := output + [BackendClosed(backend)];
      assert output == start + (written + WriteAllData(client, names, pageSize).events + [BackendClosed(backend)]);
      if abort.Some? {
        return Failure(abort.value);
      }
      exceptions := exceptions + errors;
      r := Success(errors != []);
    }

    /** The body of the try-with-resources of `export`, once the backend
        exists. */
    method ExportTo(backend: Backend, entities: seq<string>, includeMetadata: bool, version: Version,
                    pageSize: Option<int32>) returns (r: Result<bool, Exception>)
      modifies this
      ensures var run := ExportRun(client, entities, includeMetadata, version, pageSize, backend);
              output == old(output) + run.events && exceptions == old(exceptions) + run.errors && r == run.result
    {
      var targets := ChooseTargets(entities, includeMetadata, version);
      if targets.Failure? {
        output := output + [BackendClosed(backend)];
        return Failure(targets.error);
      }
      r := WriteAndClose(backend, targets.value.0, targets.value.1, pageSize);
    }

    /** `export`: the backend is chosen first; a refused path ends the
        export before anything is written. */
    method Export(entities: seq<string>, path: string, includeMetadata: bool, overwrite: bool, version: Version,
                  pageSize: Option<int32>, fs: FileSystem) returns (r: Result<bool, Exception>)
      modifies this, fs
      ensures var backend := BackendFor(path, overwrite, path in old(fs.files));
              fs.files == if backend.Success? && backend.value.ZipFileBackend? then old(fs.files) - {path} else old(fs.files)
      ensures var backend := BackendFor(path, overwrite, path in old(fs.files));
              backend.Failure? ==> r == Failure(backend.error) && output == old(output) && exceptions == old(exceptions)
      ensures var backend := BackendFor(path, overwrite, path in old(fs.files));
              backend.Success? ==>
                var run := ExportRun(client, entities, includeMetadata, version, pageSize, backend.value);
                output == old(output) + run.events && exceptions == old(exceptions) + run.errors && r == run.result
    {
      var created := CreateBackend(path, overwrite, fs);
      if created.Failure? {
        return Failure(created.error);
      }
      r := ExportTo(created.value, entities, includeMetadata, version, pageSize);
    }
  }

  /** A name after a prefix that did not abort adds its own step. */
  lemma WriteAllDataStep(client: MolgenisClient, names: seq<string>, i: nat, pageSize: Option<int32>)
    requires i < |names|
    requires WriteAllData(client, names[..i], pageSize).abort.None?
    ensures var previous := WriteAllData(client, names[..i], pageSize);
            var step := WriteData(client, names[i], pageSize);
            WriteAllData(client, names[..i + 1], pageSize)
              == DataRun(previous.events + step.events, previous.errors + step.errors, step.abort)
  {
    assert names[..i + 1][..i] == names[..i];
  }

  /** Once the data phase of a prefix has aborted, later names change nothing. */
  lemma {:induction false} WriteAllDataAbortIsFinal(client: MolgenisClient, names: seq<string>, k: nat, pageSize: Option<int32>)
    requires k <= |names|
    requires WriteAllData(client, names[..k], pageSize).abort.Some?
    ensures WriteAllData(client, names, pageSize) == WriteAllData(client, names[..k], pageSize)
    decreases |names| - k
  {
    if k < |names| {
      var shorter := names[..|names| - 1];
      assert shorter[..k] == names[..k];
      WriteAllDataAbortIsFinal(client, shorter, k, pageSize);
    } else {
      assert names[..k] == names;
    }
  }
}
