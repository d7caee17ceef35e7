# Metadata-driven export core of the MOLGENIS EMX downloader, in Dafny

This project models the export engine of the MOLGENIS EMX downloader. The
downloader reads a schema (entities and their attributes) and the rows of
entities from a remote MOLGENIS server. It writes them either as a tabular
EMX export (a workbook, or a zip of delimited files) or as RDF statements in
a graph repository. The model covers six parts of the engine:

- `Schema.dfy`: the attribute record of the schema (`Attribute`). It is a
  class whose fluent setters each change one field in place. Its state is
  read back as one `AttributeState` value.
- `Filtering.dfy`: the entity filter. It has a version-dependent key (full
  name before schema version 3, id from version 3 on) and the inclusion
  test. As written, an entity is included when its key is NOT listed.
- `RdfEncoding.dfy`: the type-directed graph encoder (`RdfEntityConsumer`).
  It keeps only the tags whose relation equals
  `http://molgenis.org#isAssociatedWith` as a `java.net.URI`. Per attribute type, it decides how
  many statements a row value yields and what each one carries. Rows and tag
  sets are Java hash collections with no defined order, so their statements
  are specified as multisets.
- `EmxExport.dfy`: the tabular export (`EMXClient`):
  - the backend choice by path extension, with the overwrite guard;
  - the fork on `includeMetadata`;
  - the datasheet pipeline (filter, drop abstract entities, full names,
    distinct in first-seen order);
  - the data loop, which records an unknown entity as an error and goes on.
- `RdfExport.dfy`: the graph export (`RdfExporter`). It looks up every
  requested name in the metadata, in request order, and stops at the first
  name without a match, the first consumer that cannot be made, or the first
  stream that fails.
- `RdfFileWriting.dfy`: the RDF file writer. It keeps an append-only
  exception list, handed out by reference, and stub consumer factories.

Helper modules:

- `Common.dfy`: Java null as `Option`, thrown exceptions as `Result`, and
  32/64-bit integers.
- `JavaText.dfy`: the Java library behaviour the encoder relies on:
  - `Boolean.valueOf`;
  - `Integer.valueOf` and `Long.valueOf`;
  - `String.split(",")`, which drops trailing empty pieces;
  - `String.hashCode` / `Objects.hashCode`.
- `Collaborators.dfy`: the remote client, modelled as the answers it gives,
  and the backends.

Behaviour of the code worth noting:

- An MREF value yields one string literal per piece of `split(",")`. Each
  literal carries the whole value, not one IRI per referenced id.
- A value that cannot be converted, and a COMPOUND attribute, make
  `accept` throw. Nothing catches this inside the consumer.
- The "file already exists" guard only applies to paths that are not
  workbooks. A `.xls`/`.xlsx` path always gets the workbook backend, with
  the overwrite flag passed on.
- The datasheet filter drops the entities whose key is listed (`!contains`).
- In the tabular export, only an `org.json.JSONException` from streaming is
  recorded and skipped. A failing `getEntity`, or any other stream failure,
  ends the run. The errors recorded so far are then not handed to the
  client.
- In the graph export, a stream failure ends the run with that exception.
- `RdfEntityConsumer` calls `getAttributes(entity)`, which is not defined
  anywhere in the repository. The model takes the entity's own attribute
  list.

`createStatement` is half way through a refactoring:

- The BOOL and DATE branches add a statement to the list.
- The later scalar branches assign an undeclared variable and add nothing.

The model completes the pattern of BOOL and DATE: every scalar type yields
exactly one statement per associated tag. XREF, CATEGORICAL and FILE yield
none.

## Model

| member | source | states |
|---|---|---|
| Schema.Attribute.constructor | src/main/java/org/molgenis/downloader/api/metadata/Attribute.java:44-54 | a new attribute has the given id and name, is visible and of type STRING; every other flag is false, every other reference null; tags, labels, descriptions and parts are empty |
| Schema.Attribute.CreateAttribute | src/main/java/org/molgenis/downloader/api/metadata/Attribute.java:56-59 | the factory returns a fresh attribute in the constructor's default state with the given id and name |
| Schema.Attribute.WithId | src/main/java/org/molgenis/downloader/api/metadata/Attribute.java:62-65 | the one-argument constructor leaves the name null and everything else at its default |
| Schema.Attribute.From | src/main/java/org/molgenis/downloader/api/metadata/Attribute.java:67-76 | fails with IllegalArgumentException exactly when the id is null or empty; otherwise a fresh default attribute whose name equals its id |
| Schema.Attribute.Equals | src/main/java/org/molgenis/downloader/api/metadata/Attribute.java:87-131 | an attribute equals itself; equal attributes are non-null and agree on id, name and data type |
| Schema.EqualsConsistentWithHashCode | src/main/java/org/molgenis/downloader/api/metadata/Attribute.java:79-84 | equal attributes have equal hash codes, the hash being `17 * 5 + hashCode(id)` in 32-bit arithmetic |
| Schema.Attribute.HashCode | src/main/java/org/molgenis/downloader/api/metadata/Attribute.java:79-84 | `hashCode`: 17 * 5 + Objects.hashCode(id) in 32-bit arithmetic; consistent with Equals by EqualsConsistentWithHashCode |
| JavaText.StringHashCode | src/main/java/org/molgenis/downloader/api/metadata/Attribute.java:81-83 | `String.hashCode`: s[0]*31^(n-1) + ... + s[n-1], wrapped to 32 bits |
| JavaText.ObjectsHashCode | src/main/java/org/molgenis/downloader/api/metadata/Attribute.java:81-83 | `Objects.hashCode`: 0 for null, otherwise the string's hash |
| Schema.EqualsReflexive | src/main/java/org/molgenis/downloader/api/metadata/Attribute.java:89 | every attribute equals itself |
| Schema.EqualsSymmetric | src/main/java/org/molgenis/downloader/api/metadata/Attribute.java:87-131 | a equals b exactly when b equals a |
| Schema.EqualsTransitive | src/main/java/org/molgenis/downloader/api/metadata/Attribute.java:87-131 | equality is transitive |
| Schema.Attribute.SetMappedBy | src/main/java/org/molgenis/downloader/api/metadata/Attribute.java:138-141 | only `mappedBy` changes |
| Schema.Attribute.SetOrderBy | src/main/java/org/molgenis/downloader/api/metadata/Attribute.java:148-151 | only `orderBy` changes |
| Schema.Attribute.SetEntityFullname | src/main/java/org/molgenis/downloader/api/metadata/Attribute.java:293-297 | only `entityFullname` changes; the same object is returned |
| Schema.Attribute.SetId | src/main/java/org/molgenis/downloader/api/metadata/Attribute.java:299-303 | only `id` changes; the same object is returned |
| Schema.Attribute.SetName | src/main/java/org/molgenis/downloader/api/metadata/Attribute.java:305-309 | only `name` changes; the same object is returned |
| Schema.Attribute.SetDataType | src/main/java/org/molgenis/downloader/api/metadata/Attribute.java:311-315 | only `dataType` changes; the same object is returned |
| Schema.Attribute.SetRefEntity | src/main/java/org/molgenis/downloader/api/metadata/Attribute.java:317-321 | only `refEntity` changes; the same object is returned |
| Schema.Attribute.SetIdAttribute | src/main/java/org/molgenis/downloader/api/metadata/Attribute.java:323-327 | only `idAttribute` changes; the same object is returned |
| Schema.Attribute.SetLookupAttribute | src/main/java/org/molgenis/downloader/api/metadata/Attribute.java:329-333 | only `lookupAttribute` changes; the same object is returned |
| Schema.Attribute.SetNillable | src/main/java/org/molgenis/downloader/api/metadata/Attribute.java:335-339 | `setNilleble`: only `nillable` changes; the same object is returned |
| Schema.Attribute.SetAuto | src/main/java/org/molgenis/downloader/api/metadata/Attribute.java:341-345 | only `auto` changes; the same object is returned |
| Schema.Attribute.SetVisible | src/main/java/org/molgenis/downloader/api/metadata/Attribute.java:347-351 | only `visible` changes; the same object is returned |
| Schema.Attribute.SetReadOnly | src/main/java/org/molgenis/downloader/api/metadata/Attribute.java:353-357 | only `readOnly` changes; the same object is returned |
| Schema.Attribute.SetUnique | src/main/java/org/molgenis/downloader/api/metadata/Attribute.java:359-363 | only `unique` changes; the same object is returned |
| Schema.Attribute.SetAggregateable | src/main/java/org/molgenis/downloader/api/metadata/Attribute.java:365-369 | only `aggregateable` changes; the same object is returned |
| Schema.Attribute.SetLabelAttribute | src/main/java/org/molgenis/downloader/api/metadata/Attribute.java:371-375 | only `labelAttribute` changes; the same object is returned |
| Schema.Attribute.SetEnumOptions | src/main/java/org/molgenis/downloader/api/metadata/Attribute.java:377-381 | only `enumOptions` changes; the same object is returned |
| Schema.Attribute.SetExpression | src/main/java/org/molgenis/downloader/api/metadata/Attribute.java:383-387 | only `expression` changes; the same object is returned |
| Schema.Attribute.SetLabel | src/main/java/org/molgenis/downloader/api/metadata/Attribute.java:389-393 | only the label text changes; the same object is returned |
| Schema.Attribute.SetDescription | src/main/java/org/molgenis/downloader/api/metadata/Attribute.java:395-399 | only `description` changes; the same object is returned |
| Schema.Attribute.SetVisibleExpression | src/main/java/org/molgenis/downloader/api/metadata/Attribute.java:401-405 | only `visibleExpression` changes; the same object is returned |
| Schema.Attribute.SetValidationExpression | src/main/java/org/molgenis/downloader/api/metadata/Attribute.java:407-411 | only `validationExpression` changes; the same object is returned |
| Schema.Attribute.SetDefaultValue | src/main/java/org/molgenis/downloader/api/metadata/Attribute.java:413-417 | only `defaultValue` changes; the same object is returned |
| Schema.Attribute.SetRangeMin | src/main/java/org/molgenis/downloader/api/metadata/Attribute.java:419-423 | only `rangeMin` changes; the same object is returned |
| Schema.Attribute.SetRangeMax | src/main/java/org/molgenis/downloader/api/metadata/Attribute.java:425-429 | only `rangeMax` changes; the same object is returned |
| Schema.Attribute.SetCompound | src/main/java/org/molgenis/downloader/api/metadata/Attribute.java:431-435 | only `compound` changes; the same object is returned |
| Schema.Attribute.AddPart | src/main/java/org/molgenis/downloader/api/metadata/Attribute.java:437-441 | the part is appended after the earlier parts, so adding it twice gives two entries; nothing else changes |
| Schema.Attribute.AddTag | src/main/java/org/molgenis/downloader/api/metadata/Attribute.java:443-447 | the tag set gains the tag; adding a tag already present changes nothing |
| Schema.Attribute.AddDescription | src/main/java/org/molgenis/downloader/api/metadata/Attribute.java:449-453 | the description for that language is replaced, other languages untouched |
| Schema.Attribute.AddLabel | src/main/java/org/molgenis/downloader/api/metadata/Attribute.java:455-458 | the label for that language is replaced, other languages untouched |
| Common.Wrap32 | src/main/java/org/molgenis/downloader/api/metadata/Attribute.java:81-83 | the 32-bit `int` result agrees with the exact value modulo 2^32 and equals it when it fits |
| Filtering.EntityFilter.EntityId | src/main/java/org/molgenis/downloader/client/EntityFilter.java:26-36 | the key of an entity is its full name or its id |
| Filtering.KeyBeforeVersion3 | src/main/java/org/molgenis/downloader/client/EntityFilter.java:28-31 | below version 3 the key is the full name |
| Filtering.KeyFromVersion3 | src/main/java/org/molgenis/downloader/client/EntityFilter.java:32-35 | from version 3 on the key is the id |
| Filtering.IncludedIffKeyNotListed | src/main/java/org/molgenis/downloader/client/EntityFilter.java:21-24 | an entity is included exactly when no listed name equals its key |
| Filtering.EntityFilter.IsIncluded | src/main/java/org/molgenis/downloader/client/EntityFilter.java:21-24 | `isIncluded`: the entity's version-dependent key is not among the listed names; properties in the lemmas around it |
| Filtering.EmptyListIncludesAll | src/main/java/org/molgenis/downloader/client/EntityFilter.java:23 | with no names listed, every entity is included |
| Filtering.InclusionDependsOnlyOnNameSet | src/main/java/org/molgenis/downloader/client/EntityFilter.java:23 | two lists with the same members include the same entities, whatever their order or repeats |
| JavaText.BooleanValueOf | src/main/java/org/molgenis/downloader/rdf/RdfEntityConsumer.java:98 | `Boolean.valueOf` is true exactly when the text is non-null and equals "true" ignoring case |
| JavaText.BooleanValueOfExamples | src/main/java/org/molgenis/downloader/rdf/RdfEntityConsumer.java:98 | "true" in any case is true; null, "yes", "1", "true " and "" are false |
| JavaText.ParseSigned | src/main/java/org/molgenis/downloader/rdf/RdfEntityConsumer.java:113-118 | a decimal parse succeeds only on non-empty text other than a lone sign, within the bounds; it fails with NumberFormatException for that input |
| JavaText.ParseInt | src/main/java/org/molgenis/downloader/rdf/RdfEntityConsumer.java:116-118 | `Integer.valueOf` succeeds exactly when the signed parse fits in 32 bits, with that value |
| JavaText.ParseLong | src/main/java/org/molgenis/downloader/rdf/RdfEntityConsumer.java:113-115 | `Long.valueOf` succeeds exactly when the signed parse fits in 64 bits, with that value |
| JavaText.NatDigitsValue | src/main/java/org/molgenis/downloader/rdf/RdfEntityConsumer.java:116-118 | the decimal digits of a natural number read back as that number |
| JavaText.ParseRoundTrip | src/main/java/org/molgenis/downloader/rdf/RdfEntityConsumer.java:113-118 | every integer within the bounds, printed in decimal, parses back to itself |
| JavaText.ParseIntRoundTrip | src/main/java/org/molgenis/downloader/rdf/RdfEntityConsumer.java:116-118 | every `int` printed in decimal parses back to itself |
| JavaText.JoinPieces | src/main/java/org/molgenis/downloader/rdf/RdfEntityConsumer.java:90 | the comma-free pieces of a text, joined with commas, give the text back |
| JavaText.PiecesCount | src/main/java/org/molgenis/downloader/rdf/RdfEntityConsumer.java:90 | a text has one piece more than it has commas |
| JavaText.LastPieceEmpty | src/main/java/org/molgenis/downloader/rdf/RdfEntityConsumer.java:90 | the last piece is empty exactly when the text is empty or ends in a comma |
| JavaText.DropTrailingEmpty | src/main/java/org/molgenis/downloader/rdf/RdfEntityConsumer.java:90 | `split` keeps a prefix of the pieces that does not end in an empty piece and drops only empty pieces |
| JavaText.Split | src/main/java/org/molgenis/downloader/rdf/RdfEntityConsumer.java:90 | `String.split(",")`: the comma-separated pieces without the trailing empty ones; properties in the lemmas around it |
| JavaText.SplitWithoutTrailingComma | src/main/java/org/molgenis/downloader/rdf/RdfEntityConsumer.java:90 | a non-empty text not ending in a comma splits into all its pieces, one more than its commas |
| JavaText.NoCommaOnePiece | src/main/java/org/molgenis/downloader/rdf/RdfEntityConsumer.java:90 | a text without a comma is one piece |
| JavaText.SplitOfCommasOnly | src/main/java/org/molgenis/downloader/rdf/RdfEntityConsumer.java:90 | a non-empty text of commas only splits into nothing |
| JavaText.AllPiecesEmpty | src/main/java/org/molgenis/downloader/rdf/RdfEntityConsumer.java:90 | a text of commas only has only empty pieces |
| JavaText.SplitThreeIds | src/main/java/org/molgenis/downloader/rdf/RdfEntityConsumer.java:90 | "1,2,3" splits into "1", "2", "3" |
| JavaText.SplitDropsOnlyTrailingEmpty | src/main/java/org/molgenis/downloader/rdf/RdfEntityConsumer.java:90 | "a,,b,," splits into "a", "", "b": inner empty pieces stay, trailing ones go |
| JavaText.SplitKeepsLeadingEmpty | src/main/java/org/molgenis/downloader/rdf/RdfEntityConsumer.java:90 | ",a" splits into "", "a"; the empty text splits into one empty piece |
| JavaText.LowerAscii | src/main/java/org/molgenis/downloader/rdf/RdfEntityConsumer.java:98 | lower-casing keeps the length and maps each character on its own |
| Common.JavaString | src/main/java/org/molgenis/downloader/rdf/RdfEntityConsumer.java:127 | string concatenation prints a non-null string as itself and null as "null" |
| RdfEncoding.NoAssociatedTagNoStatements | src/main/java/org/molgenis/downloader/rdf/RdfEntityConsumer.java:144-156 | an attribute without an "is associated with" tag yields no statement and no error, whatever its type and value |
| RdfEncoding.IsAssociatedWith | src/main/java/org/molgenis/downloader/rdf/RdfEntityConsumer.java:144-156 | `isAssociatedWithUri`: URI equality with the constant, ignoring ASCII case in scheme and host, exact in the fragment, an empty port counting as none; properties in the four lemmas below |
| RdfEncoding.AssociatedWithItself | src/main/java/org/molgenis/downloader/rdf/RdfEntityConsumer.java:144-156 | a tag whose relation is the constant as written is associated |
| RdfEncoding.AssociatedWithIgnoresHostCase | src/main/java/org/molgenis/downloader/rdf/RdfEntityConsumer.java:144-156 | "HTTP://MOLGENIS.ORG#isAssociatedWith" is associated: URI equality ignores case in scheme and host |
| RdfEncoding.NotAssociatedWith | src/main/java/org/molgenis/downloader/rdf/RdfEntityConsumer.java:144-156 | a lower-cased fragment, a trailing slash or a port number is a different URI and not associated |
| RdfEncoding.AssociatedWithEmptyPort | src/main/java/org/molgenis/downloader/rdf/RdfEntityConsumer.java:144-156 | "http://molgenis.org:#isAssociatedWith" is associated: an empty port parses as no port |
| RdfEncoding.ScalarObject | src/main/java/org/molgenis/downloader/rdf/RdfEntityConsumer.java:97-138 | the object one single-valued type yields for a value, none, or the exception; properties in BoolObject, TextAndLinkObjects, IntegerObjects, ScalarYieldsOne, ReferenceTypesYieldNothing, CompoundRejected |
| RdfEncoding.ObjectsFor | src/main/java/org/molgenis/downloader/rdf/RdfEntityConsumer.java:84-138 | the objects of the statements one tag yields, per data type; properties in the lemmas below |
| RdfEncoding.AttributeStatementsShape | src/main/java/org/molgenis/downloader/rdf/RdfEntityConsumer.java:70-75 | a successful attribute yields (associated tags) x (objects) statements, each with the entity's subject, an associated tag's object IRI as predicate and one of the value's objects |
| RdfEncoding.TagsStatementsRemove | src/main/java/org/molgenis/downloader/rdf/RdfEntityConsumer.java:74 | the statements of a tag set do not depend on the order the tags are visited in |
| RdfEncoding.TagsStatementsAdd | src/main/java/org/molgenis/downloader/rdf/RdfEntityConsumer.java:74 | one more tag adds exactly its own statements |
| RdfEncoding.TagsStatementsCount | src/main/java/org/molgenis/downloader/rdf/RdfEntityConsumer.java:74 | each tag contributes one statement per object |
| RdfEncoding.TagsStatementsShape | src/main/java/org/molgenis/downloader/rdf/RdfEntityConsumer.java:79-80 | every statement has the subject given, some tag's object IRI as predicate and one of the objects |
| RdfEncoding.MrefObjectsAreWholeValue | src/main/java/org/molgenis/downloader/rdf/RdfEntityConsumer.java:86-96 | MREF and CATEGORICAL_MREF: nothing for a null or empty value, otherwise one object per split piece, each the whole value |
| RdfEncoding.MrefCountsPieces | src/main/java/org/molgenis/downloader/rdf/RdfEntityConsumer.java:88-94 | a list of ids not ending in a comma yields one object per id |
| RdfEncoding.MrefThreeIds | src/main/java/org/molgenis/downloader/rdf/RdfEntityConsumer.java:86-96 | "1,2,3" yields three literals, each "1,2,3" |
| RdfEncoding.MrefOfCommasOnly | src/main/java/org/molgenis/downloader/rdf/RdfEntityConsumer.java:88-94 | a non-empty value of commas only yields nothing |
| RdfEncoding.BoolObject | src/main/java/org/molgenis/downloader/rdf/RdfEntityConsumer.java:97-100 | BOOL always yields one boolean literal, true exactly for "true" in any case, false for null |
| RdfEncoding.TextAndLinkObjects | src/main/java/org/molgenis/downloader/rdf/RdfEntityConsumer.java:119-131 | text types give the value verbatim; EMAIL gives the IRI "mailto:" + value, and "mailto:null" for a null value; HYPERLINK gives the value as IRI |
| RdfEncoding.IntegerObjects | src/main/java/org/molgenis/downloader/rdf/RdfEntityConsumer.java:113-118 | INT and LONG yield one literal exactly when the text parses in 32 or 64 bits, otherwise NumberFormatException for that text |
| RdfEncoding.IntRoundTrip | src/main/java/org/molgenis/downloader/rdf/RdfEntityConsumer.java:116-118 | an `int` printed in decimal is encoded as that `int` |
| RdfEncoding.ScalarYieldsOne | src/main/java/org/molgenis/downloader/rdf/RdfEntityConsumer.java:97-136 | a single-valued type yields at most one object, and exactly one for the value types |
| RdfEncoding.ReferenceTypesYieldNothing | src/main/java/org/molgenis/downloader/rdf/RdfEntityConsumer.java:132-136 | XREF, CATEGORICAL and FILE yield nothing |
| RdfEncoding.CompoundRejected | src/main/java/org/molgenis/downloader/rdf/RdfEntityConsumer.java:137-138 | COMPOUND throws IllegalArgumentException "DataType COMPOUNDis not supported" |
| RdfEncoding.RdfEntityConsumer.Init | src/main/java/org/molgenis/downloader/rdf/RdfEntityConsumer.java:52-59 | the consumer keeps the entity id and attribute index given and has emitted nothing |
| RdfEncoding.RdfEntityConsumer.IndexByName | src/main/java/org/molgenis/downloader/rdf/RdfEntityConsumer.java:55 | `toMap` by name fails with IllegalStateException exactly when two attributes share a name; otherwise it maps every name, and nothing else, to its attribute |
| RdfEncoding.RdfEntityConsumer.Create | src/main/java/org/molgenis/downloader/rdf/RdfEntityConsumer.java:52-59 | construction fails exactly on a duplicate attribute name; otherwise a fresh consumer with the entity's id, its attributes indexed by name, nothing emitted |
| RdfEncoding.RdfEntityConsumer.CreateStatement | src/main/java/org/molgenis/downloader/rdf/RdfEntityConsumer.java:77-142 | the list built for one tag is one statement per object of the value, with the entity's subject and the tag's object IRI, or the conversion's exception |
| RdfEncoding.RdfEntityConsumer.CreateStatements | src/main/java/org/molgenis/downloader/rdf/RdfEntityConsumer.java:70-75 | the statements of all associated tags of an attribute, as a multiset, or the conversion's exception |
| RdfEncoding.RdfEntityConsumer.RowStatementsRemove | src/main/java/org/molgenis/downloader/rdf/RdfEntityConsumer.java:64-66 | the statements of a row do not depend on the order its entries are visited in |
| RdfEncoding.RdfEntityConsumer.RowStatementsAdd | src/main/java/org/molgenis/downloader/rdf/RdfEntityConsumer.java:64-66 | one more entry adds exactly its own statements |
| RdfEncoding.RdfEntityConsumer.Accept | src/main/java/org/molgenis/downloader/rdf/RdfEntityConsumer.java:61-68 | the row succeeds exactly when every entry does, and the sink then gains exactly the row's statements; otherwise it fails with a failing entry's exception, after some set of entries that all succeeded, whose statements are exactly what the sink gained; the sink only grows |
| RdfEncoding.RdfEntityConsumer.UnknownKeyFails | src/main/java/org/molgenis/downloader/rdf/RdfEntityConsumer.java:66 | a row key naming no attribute fails with NullPointerException |
| RdfFileWriting.RdfFileWriter.constructor | src/main/java/org/molgenis/downloader/rdf/RdfFileWriter.java:18-23 | a new writer keeps the backend and version, has a fresh empty error list, and has no exceptions |
| RdfFileWriting.RdfFileWriter.CreateConsumerForEntity | src/main/java/org/molgenis/downloader/rdf/RdfFileWriter.java:25-29 | always null |
| RdfFileWriting.RdfFileWriter.CreateMetadataConsumer | src/main/java/org/molgenis/downloader/rdf/RdfFileWriter.java:31-35 | always null |
| RdfFileWriting.RdfFileWriter.CreateDataStore | src/main/java/org/molgenis/downloader/rdf/RdfFileWriter.java:37-41 | the store comes from the writer's own backend, for the given name |
| RdfFileWriting.RdfFileWriter.GetExceptions | src/main/java/org/molgenis/downloader/rdf/RdfFileWriter.java:49-53 | the writer's own list, not a copy |
| RdfFileWriting.RdfFileWriter.HasExceptions | src/main/java/org/molgenis/downloader/rdf/RdfFileWriter.java:43-47 | `hasExceptions`: the list is not empty; AddException makes it true and the constructor false |
| RdfFileWriting.RdfFileWriter.AddException | src/main/java/org/molgenis/downloader/rdf/RdfFileWriter.java:55-59 | the exception is appended after the earlier ones, and the writer then has exceptions |
| RdfFileWriting.ListIsLive | src/main/java/org/molgenis/downloader/rdf/RdfFileWriter.java:50-53 | a list obtained before an addition shows that addition |
| RdfExport.Connection.SetNamespace | src/main/java/org/molgenis/downloader/rdf/RdfExporter.java:73 | declares one prefix, statements untouched |
| RdfExport.Connection.Clear | src/main/java/org/molgenis/downloader/rdf/RdfExporter.java:100 | removes every statement, namespaces stay |
| RdfExport.FindByFullName | src/main/java/org/molgenis/downloader/rdf/RdfExporter.java:82-85 | no result exactly when no entity has the name; a result is one of the entities, with that full name |
| RdfExport.FindByFullNameIsFirst | src/main/java/org/molgenis/downloader/rdf/RdfExporter.java:82-85 | the entity found is the first with that full name |
| RdfExport.FailureIsFinal | src/main/java/org/molgenis/downloader/rdf/RdfExporter.java:80-89 | once the export of a prefix of the names has failed, later names change nothing |
| RdfExport.EntityExport | src/main/java/org/molgenis/downloader/rdf/RdfExporter.java:92-96 | `exportEntity`: the consumer is made first; a factory that throws ends the export with no stream call, otherwise one stream call of the entity by full name into that consumer |
| RdfExport.ExportStep | src/main/java/org/molgenis/downloader/rdf/RdfExporter.java:82-88 | one name: the export of its first match, or "Entity with id <name> not found" |
| RdfExport.ExportNames | src/main/java/org/molgenis/downloader/rdf/RdfExporter.java:80-89 | the loop over the names, stopping at the first failure; properties in the lemmas below |
| RdfExport.ExportDataRun | src/main/java/org/molgenis/downloader/rdf/RdfExporter.java:76-90 | `exportData`: the metadata request, then the loop over the names |
| RdfExport.CallsCount | src/main/java/org/molgenis/downloader/rdf/RdfExporter.java:80-89 | at most one stream call per requested name, and exactly one per name when the export succeeds |
| RdfExport.CallsFollowNames | src/main/java/org/molgenis/downloader/rdf/RdfExporter.java:80-95 | call i streams the i-th requested name with the page size, into the consumer the factory made for the first entity of that name |
| RdfExport.AllFoundAllStreamed | src/main/java/org/molgenis/downloader/rdf/RdfExporter.java:80-89 | when every name has a match, the factory makes a consumer for it and every stream completes, every name is streamed, in request order, repeats included |
| RdfExport.FirstMissingStops | src/main/java/org/molgenis/downloader/rdf/RdfExporter.java:80-88 | the first unmatched name fails with "Entity with id <name> not found" after exactly the earlier names were streamed |
| RdfExport.FactoryFailureStops | src/main/java/org/molgenis/downloader/rdf/RdfExporter.java:80-96 | a factory that throws for a name's first match ends the export with that exception, after exactly the earlier names were streamed and before any stream of that name |
| RdfExport.MetadataFailureStreamsNothing | src/main/java/org/molgenis/downloader/rdf/RdfExporter.java:79 | a failing metadata request ends the export before any stream |
| RdfExport.RdfExporter.Init | src/main/java/org/molgenis/downloader/rdf/RdfExporter.java:45-51 | keeps the client, repository and consumer factory given |
| RdfExport.RdfExporter.New | src/main/java/org/molgenis/downloader/rdf/RdfExporter.java:45-51 | fails with NullPointerException exactly when the client, template or factory is null |
| RdfExport.RdfExporter.ExportName | src/main/java/org/molgenis/downloader/rdf/RdfExporter.java:82-88 | one iteration of `exportData`: export the first match, or fail naming the missing entity |
| RdfExport.RdfExporter.ExportEntity | src/main/java/org/molgenis/downloader/rdf/RdfExporter.java:92-96 | creates the consumer, then makes exactly one stream call, by full name, into it; a throwing factory fails the export with no call; a failing stream fails the export |
| RdfExport.RdfExporter.ExportData | src/main/java/org/molgenis/downloader/rdf/RdfExporter.java:76-90 | the calls made and the result are those of the export run the lemmas above describe |
| RdfExport.RdfExporter.ExportNamed | src/main/java/org/molgenis/downloader/rdf/RdfExporter.java:80-89 | the loop over the names makes the calls of the export run and stops at its first failure |
| RdfExport.RdfExporter.AddNamespaces | src/main/java/org/molgenis/downloader/rdf/RdfExporter.java:71-74 | every prefix of the map is declared with its namespace; other prefixes and the statements stay |
| RdfExport.RdfExporter.Clear | src/main/java/org/molgenis/downloader/rdf/RdfExporter.java:98-101 | the repository is emptied, its namespaces stay |
| EmxExport.OverwriteGuard | src/main/java/org/molgenis/downloader/emx/EMXClient.java:88-113 | refused exactly for a non-workbook path naming an existing file without overwrite, with FileAlreadyExistsException; a workbook path gets the workbook backend, any other the zip backend |
| EmxExport.BackendFor | src/main/java/org/molgenis/downloader/emx/EMXClient.java:88-113 | the backend `createBackend` chooses, or FileAlreadyExistsException; properties in OverwriteGuard and SpreadsheetExtensions |
| EmxExport.SpreadsheetExtensions | src/main/java/org/molgenis/downloader/emx/EMXClient.java:24-25 | ".xlsx" and ".xls" select the workbook backend; ".zip" the zip backend |
| EmxExport.CreateBackend | src/main/java/org/molgenis/downloader/emx/EMXClient.java:88-113 | the backend chosen; an existing file is deleted exactly when the zip backend replaces it |
| EmxExport.Kept | src/main/java/org/molgenis/downloader/emx/EMXClient.java:79-82 | the entities kept are exactly those that pass the filter and are not abstract |
| EmxExport.FullNames | src/main/java/org/molgenis/downloader/emx/EMXClient.java:83 | one full name per entity, in order |
| EmxExport.Distinct | src/main/java/org/molgenis/downloader/emx/EMXClient.java:84 | no duplicates, and the same members as the input |
| EmxExport.DistinctKeepsFirstSeenOrder | src/main/java/org/molgenis/downloader/emx/EMXClient.java:84 | `distinct` keeps the order of first occurrences |
| EmxExport.KeptKeepsOrder | src/main/java/org/molgenis/downloader/emx/EMXClient.java:79-82 | filtering keeps the input order: the kept entities of a concatenation are those of each part, in turn |
| EmxExport.Datasheets | src/main/java/org/molgenis/downloader/emx/EMXClient.java:75-86 | `getDatasheets`: filter, drop abstract, full names, distinct; properties in the lemmas below |
| EmxExport.DatasheetsInMetadataOrder | src/main/java/org/molgenis/downloader/emx/EMXClient.java:75-86 | no metadata gives no datasheet; an entity appended to the metadata appends its full name exactly when it is kept and the name is new, so the datasheets are in first-seen metadata order |
| EmxExport.DatasheetsSelection | src/main/java/org/molgenis/downloader/emx/EMXClient.java:75-86 | a name is a datasheet exactly when some entity of that name passes the filter and is not abstract; no repeats; first-seen order |
| EmxExport.ListedIdsAreDropped | src/main/java/org/molgenis/downloader/emx/EMXClient.java:78-81 | from version 3 on, a name all of whose entities are listed by id or abstract is not a datasheet |
| EmxExport.JsonFailed | src/main/java/org/molgenis/downloader/emx/EMXClient.java:69-72 | the names whose stream fails as unknown are exactly those among the targets |
| EmxExport.WriteData | src/main/java/org/molgenis/downloader/emx/EMXClient.java:62-73 | `writeData` for one name: the entity fetch, the stream, and a JSON failure turned into one recorded error; properties in the lemmas below |
| EmxExport.WriteAllData | src/main/java/org/molgenis/downloader/emx/EMXClient.java:45-48 | the data loop over the target names, stopping at the first abort; properties in the lemmas below |
| EmxExport.DataEventsFollowNames | src/main/java/org/molgenis/downloader/emx/EMXClient.java:45-48 | the data phase streams the target names one by one, in order, each with its fetched entity and the page size |
| EmxExport.DataAbortsIff | src/main/java/org/molgenis/downloader/emx/EMXClient.java:62-73 | the data phase ends normally exactly when no name fails in `getEntity` or with a non-JSON stream failure |
| EmxExport.DataErrorsAreUnknownNames | src/main/java/org/molgenis/downloader/emx/EMXClient.java:62-73 | without an abort, one "entity: <name> does not exist" error per unknown name, in order |
| EmxExport.FirstAbortEnds | src/main/java/org/molgenis/downloader/emx/EMXClient.java:64-67 | the first name whose `getEntity` or stream fails otherwise ends the data phase with that exception |
| EmxExport.DataPhaseStreamsAll | src/main/java/org/molgenis/downloader/emx/EMXClient.java:45-48 | without an abort, every target name is streamed, in order |
| EmxExport.DataPhaseErrors | src/main/java/org/molgenis/downloader/emx/EMXClient.java:45-50 | without an abort, one error per unknown name, and some error exactly when some name is unknown |
| EmxExport.ExportStreamsTargets | src/main/java/org/molgenis/downloader/emx/EMXClient.java:32-52 | without metadata the requested names are streamed as given, with metadata the datasheets; the backend is closed last; one error per unknown name; the result is true exactly when some name was unknown |
| EmxExport.Targets | src/main/java/org/molgenis/downloader/emx/EMXClient.java:38-44 | the names to stream: those requested, or after writing the metadata, the datasheets |
| EmxExport.ExportRun | src/main/java/org/molgenis/downloader/emx/EMXClient.java:35-51 | the whole export once the backend exists: targets, data phase, close, result; properties in ExportStreamsTargets and AbortDropsErrors |
| EmxExport.AbortDropsErrors | src/main/java/org/molgenis/downloader/emx/EMXClient.java:35-51 | an abort fails the export, hands no error to the client, and still closes the backend |
| EmxExport.EmxClient.constructor | src/main/java/org/molgenis/downloader/emx/EMXClient.java:27-30 | a new client has no exceptions and has written nothing |
| EmxExport.EmxClient.WriteDataFor | src/main/java/org/molgenis/downloader/emx/EMXClient.java:62-73 | one name: fetch the entity, stream it; a JSON failure is one recorded error, any other failure ends the run |
| EmxExport.EmxClient.WriteAll | src/main/java/org/molgenis/downloader/emx/EMXClient.java:45-48 | the loop over the targets writes and records what the data phase does, stopping at the first abort |
| EmxExport.EmxClient.ChooseTargets | src/main/java/org/molgenis/downloader/emx/EMXClient.java:38-44 | the requested names without metadata; with metadata, metadata written first and the datasheets as targets |
| EmxExport.EmxClient.WriteAndClose | src/main/java/org/molgenis/downloader/emx/EMXClient.java:45-51 | the data phase, then the backend closed; the errors reach the client and decide the result only when nothing aborted |
| EmxExport.EmxClient.ExportTo | src/main/java/org/molgenis/downloader/emx/EMXClient.java:35-51 | the whole run once the backend exists, as described by the lemmas above |
| EmxExport.EmxClient.Export | src/main/java/org/molgenis/downloader/emx/EMXClient.java:32-52 | a refused path ends the export before anything is written; otherwise the run over the chosen backend |

## Left out

- Schema.Attribute.Equals: compares the attributes' own fields only. It does not follow `refEntity`, `mappedBy`, `parts` and `compound` into other attributes and entities, because that recursion can loop forever on parent/child cycles.
- Schema.Attribute.HashCode: the hash of an id uses `String.hashCode` over the UTF-16 code units, taken here as the characters of the string.
- JavaText.BooleanValueOf: case is folded for ASCII letters only.
- JavaText.ParseSigned: only the ASCII digits '0' to '9' are digits. `Integer.parseInt` and `Long.parseLong` read digits with `Character.digit`, which also accepts the other decimal digits of the Basic Multilingual Plane (Arabic-Indic, Devanagari, fullwidth and so on). For such text the source emits a literal and the model reports NumberFormatException.
- JavaText.ParseInt: inherits the ASCII-only digits of ParseSigned; the 32-bit range and the value are as in Java.
- JavaText.ParseLong: inherits the ASCII-only digits of ParseSigned; the 64-bit range and the value are as in Java.
- RdfEncoding.IsAssociatedWith: a tag's relation IRI is never null here. In the source, a null relation makes `accept` throw NullPointerException, because only URISyntaxException is caught. URI percent-escapes are compared exactly; the constant has none, and java.net.URI ignores their hex case only when both sides have an escape at the same place.
- Schema.Attribute.From: Java's IllegalArgumentException here has no message (null); the model gives it the empty message.
- RdfEncoding.RdfEntityConsumer.Accept: states the statements as a multiset, not their order. Java's `HashMap` and `HashSet` iteration order is unspecified.
- RdfEncoding.RdfEntityConsumer.CreateStatements: states the statements as a multiset, for the same reason.
- RdfEncoding.RdfEntityConsumer.IndexByName: states only that a duplicate name throws IllegalStateException, not the JDK's message text.
- The consumer takes a snapshot of the attributes' states at construction. Changes made to an attribute after that are not seen.
- RDF IRIs are plain text. rdf4j's validation of IRIs (for the subject, the predicate, EMAIL and HYPERLINK values) is not modelled.
- DECIMAL (`Double.valueOf`) and DATE/DATE_TIME (`XMLGregorianCalendar`) are floating point and a foreign library. They are inputs: predicates saying which texts parse. The literal the model makes keeps the input text and stands for the parsed value; rdf4j labels it with the value's own printed form (`Double.toString`, so "1" becomes "1.0", and `toXMLFormat` for calendars), which is not modelled.
- `RdfExporter.loadDefaultNamespaces` reads a properties file from the class path. The namespace map is a parameter instead.
- `addNamespaces()` with no arguments only passes that file's map to `AddNamespaces`, so it is not modelled separately.
- The repository template is one connection. The consumer factory is a function of the entity alone, giving a token per consumer or the exception it throws. The public constructor's `RdfEntityConsumer::create` does not exist in the source.
- In `writeMetadata`, what the metadata consumer writes is not modelled: writing is one event that always succeeds. The internals of EMXFileWriter, ExcelBackend and ZipFileBackend are not part of this model, and neither are their failures (including errors on close).
- A failing `Files.delete` in `createBackend` is not modelled: the delete always succeeds.
- In the graph export test, the `getEntity` stubs are for an older version of `exportData`. The model follows the current code, which looks entities up in the metadata.
- Paging of the streamed rows, login and the JSON transport of the remote client are not part of this model. A stream is its outcome: completed, JSON failure, or another failure.
- `Attribute.toString` is formatting only.
