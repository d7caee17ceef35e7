/** The type-directed graph encoder: it turns one row of an entity (attribute
    name to text) into RDF statements, one group per attribute tag whose
    relation is "is associated with".

    The source of `createStatement` is half way through a refactoring: the
    BOOL and DATE branches add their statement to the list, the later scalar
    branches assign an undeclared variable and add nothing. This model
    completes the pattern of BOOL and DATE: every scalar branch adds exactly
    one statement per associated tag. The MREF branch is kept as written: one
    statement per piece of the split value, each carrying the WHOLE value. */
module RdfEncoding {
  import opened Common
  import opened Schema
  import JavaText

  const MailTo := "mailto:"
  const IsAssociatedWithIri := "http://molgenis.org#isAssociatedWith"

  /** An RDF term as the value factory creates it. IRIs are kept as text. */
  datatype RdfValue =
    | Iri(iri: string)
    | StringLiteral(text: string)
    | BooleanLiteral(b: bool)
    | IntLiteral(i: int32)
    | LongLiteral(l: int64)
    | DoubleLiteral(lexical: string)
    | CalendarLiteral(lexical: string)

  datatype Statement = Statement(subject: string, predicateIri: string, obj: RdfValue)

  /** The two foreign parsers, as the inputs they accept:
      `DatatypeFactory.newXMLGregorianCalendar` (for DATE and DATE_TIME) and
      `Double.valueOf` (for DECIMAL). */
  datatype ForeignParsers = ForeignParsers(isCalendar: string -> bool, isDouble: string -> bool)

  /** `isAssociatedWithUri`: the relation is equal, as a `java.net.URI`, to
      "http://molgenis.org#isAssociatedWith". URI equality ignores ASCII case
      in the scheme and the host and compares the rest exactly; a URI with a
      user, a port number, a query or a path is different. An empty port
      (a ':' after the host) parses as no port, so it is equal. So the
      relation is that text with the part before '#' compared
      case-insensitively, optionally with ':' before the '#'. */
  predicate IsAssociatedWith(t: Tag) {
    var n := |IsAssociatedWithIri| - |AssociatedWithFragment|;
    && n <= |t.relationIri|
    && (forall i :: 0 <= i < n ==> JavaText.ToLowerAscii(t.relationIri[i]) == IsAssociatedWithIri[i])
    && (t.relationIri[n..] == AssociatedWithFragment || t.relationIri[n..] == ":" + AssociatedWithFragment)
  }

  /** The fragment of the relation, compared case-sensitively. */
  const AssociatedWithFragment := "#isAssociatedWith"

  /** The relation exactly as written is "is associated with". */
  lemma AssociatedWithItself(objectIri: string)
    ensures IsAssociatedWith(Tag(IsAssociatedWithIri, objectIri))
  {
    assert IsAssociatedWithIri[19..] == AssociatedWithFragment;
    forall i | 0 <= i < 19
      ensures JavaText.ToLowerAscii(IsAssociatedWithIri[i]) == IsAssociatedWithIri[i]
    {
    }
  }

  /** Scheme and host are compared ignoring case. */
  lemma AssociatedWithIgnoresHostCase(objectIri: string)
    ensures IsAssociatedWith(Tag("HTTP://MOLGENIS.ORG#isAssociatedWith", objectIri))
  {
    var s := "HTTP://MOLGENIS.ORG#isAssociatedWith";
    assert s[19..] == AssociatedWithFragment;
    forall i | 0 <= i < 19
      ensures JavaText.ToLowerAscii(s[i]) == IsAssociatedWithIri[i]
    {
    }
  }

  /** An empty port is no port. */
  lemma AssociatedWithEmptyPort(objectIri: string)
    ensures IsAssociatedWith(Tag("http://molgenis.org:#isAssociatedWith", objectIri))
  {
    var s := "http://molgenis.org:#isAssociatedWith";
    assert s[19..] == ":" + AssociatedWithFragment;
    forall i | 0 <= i < 19
      ensures JavaText.ToLowerAscii(s[i]) == IsAssociatedWithIri[i]
    {
    }
  }

  /** The fragment is compared exactly, and a trailing slash or a port
      number makes a different URI. */
  lemma NotAssociatedWith(objectIri: string)
    ensures !IsAssociatedWith(Tag("http://molgenis.org#isassociatedwith", objectIri))
    ensures !IsAssociatedWith(Tag("http://molgenis.org/#isAssociatedWith", objectIri))
    ensures !IsAssociatedWith(Tag("http://molgenis.org:80#isAssociatedWith", objectIri))
  {
    assert "http://molgenis.org:80#isAssociatedWith"[19..][1] != AssociatedWithFragment[1];
    assert "http://molgenis.org:80#isAssociatedWith"[19..][1] != (":" + AssociatedWithFragment)[1];
    assert "http://molgenis.org#isassociatedwith"[19..][3] != AssociatedWithFragment[3];
    assert "http://molgenis.org/#isAssociatedWith"[19..][0] != AssociatedWithFragment[0];
    assert "http://molgenis.org/#isAssociatedWith"[19..][0] != (":" + AssociatedWithFragment)[0];
    assert "http://molgenis.org#isassociatedwith"[19..][3] != (":" + AssociatedWithFragment)[3];
  }

  function AssociatedTags(tags: set<Tag>): set<Tag> {
    set t | t in tags && IsAssociatedWith(t)
  }

  predicate IsMultiValued(t: DataType) {
    t == Mref || t == CategoricalMref
  }

  /** The objects of the MREF branch: none for a null or empty value,
      otherwise one per piece of `value.split(",")`, each the whole value. */
  function MrefObjects(value: Option<string>): seq<RdfValue> {
    if value.None? || value.value == "" then []
    else seq(|JavaText.Split(value.value)|, _ => StringLiteral(value.value))
  }

  /** The object of the one statement a scalar type produces, or none for the
      reference and file types, or the exception the conversion throws. */
  function ScalarObject(t: DataType, value: Option<string>, parsers: ForeignParsers): Result<Option<RdfValue>, Exception>
    requires !IsMultiValued(t)
  {
    match t
    case Bool => Success(Some(BooleanLiteral(JavaText.BooleanValueOf(value))))
    case Date | DateTime =>
      if value.None? then Failure(NullPointer)
      else if parsers.isCalendar(value.value) then Success(Some(CalendarLiteral(value.value)))
      else Failure(IllegalArgument(value.value))
    case Decimal =>
      if value.None? then Failure(NullPointer)
      else if parsers.isDouble(value.value) then Success(Some(DoubleLiteral(value.value)))
      else Failure(NumberFormat(value))
    case Long =>
      (match JavaText.ParseLong(value)
       case Success(n) => Success(Some(LongLiteral(n)))
       case Failure(e) => Failure(e))
    case Int =>
      (match JavaText.ParseInt(value)
       case Success(n) => Success(Some(IntLiteral(n)))
       case Failure(e) => Failure(e))
    case Enum | Html | Text | Script | Str =>
      if value.None? then Failure(NullPointer) else Success(Some(StringLiteral(value.value)))
    case Email => Success(Some(Iri(MailTo + JavaString(value))))
    case Hyperlink =>
      if value.None? then Failure(NullPointer) else Success(Some(Iri(value.value)))
    case Xref | Categorical | File => Success(None)
    case Compound => Failure(IllegalArgument("DataType " + t.Name() + "is not supported"))
  }

  /** The objects of the statements one tag yields for a value of type t. */
  function ObjectsFor(t: DataType, value: Option<string>, parsers: ForeignParsers): Result<seq<RdfValue>, Exception> {
    if IsMultiValued(t) then Success(MrefObjects(value))
    else match ScalarObject(t, value, parsers)
      case Failure(e) => Failure(e)
      case Success(None) => Success([])
      case Success(Some(o)) => Success([o])
  }

  /** The statements of one tag: one per object, all with the same subject
      and the tag's object IRI as predicate. */
  function TagStatements(subject: string, tag: Tag, objects: seq<RdfValue>): seq<Statement> {
    seq(|objects|, i requires 0 <= i < |objects| => Statement(subject, tag.objectIri, objects[i]))
  }

  /** The statements of a set of tags, in no particular order. */
  ghost function TagsStatements(subject: string, tags: set<Tag>, objects: seq<RdfValue>): multiset<Statement>
    decreases tags
  {
    if tags == {} then multiset{}
    else
      var t :| t in tags;
      multiset(TagStatements(subject, t, objects)) + TagsStatements(subject, tags - {t}, objects)
  }

  /** What one attribute contributes for a value: nothing when it has no
      associated tag (the value is then never converted); otherwise the
      conversion's exception, or every tag's statements. */
  ghost function AttributeResult(subject: string, attribute: AttributeState, value: Option<string>, parsers: ForeignParsers): Result<multiset<Statement>, Exception> {
    var tags := AssociatedTags(attribute.tags);
    if tags == {} then Success(multiset{})
    else match ObjectsFor(attribute.dataType, value, parsers)
      case Failure(e) => Failure(e)
      case Success(objects) => Success(TagsStatements(subject, tags, objects))
  }

  // -----------------------------------------------------------------------
  // Properties of the encoding
  // -----------------------------------------------------------------------

  /** Any tag may be taken out first: the order of the tag set is irrelevant. */
  lemma {:induction false} TagsStatementsRemove(subject: string, tags: set<Tag>, objects: seq<RdfValue>, t: Tag)
    requires t in tags
    ensures TagsStatements(subject, tags, objects)
         == multiset(TagStatements(subject, t, objects)) + TagsStatements(subject, tags - {t}, objects)
    decreases tags
  {
    var u :| u in tags && TagsStatements(subject, tags, objects)
                         == multiset(TagStatements(subject, u, objects)) + TagsStatements(subject, tags - {u}, objects);
    if u != t {
      TagsStatementsRemove(subject, tags - {u}, objects, t);
      TagsStatementsRemove(subject, tags - {t}, objects, u);
      assert tags - {u} - {t} == tags - {t} - {u};
    }
  }

  /** Adding a tag adds its statements. */
  lemma TagsStatementsAdd(subject: string, done: set<Tag>, objects: seq<RdfValue>, t: Tag)
    requires t !in done
    ensures TagsStatements(subject, done + {t}, objects)
         == multiset(TagStatements(subject, t, objects)) + TagsStatements(subject, done, objects)
  {
    TagsStatementsRemove(subject, done + {t}, objects, t);
    assert done + {t} - {t} == done;
  }

  /** Each tag yields one statement per object. */
  lemma {:induction false} TagsStatementsCount(subject: string, tags: set<Tag>, objects: seq<RdfValue>)
    ensures |TagsStatements(subject, tags, objects)| == |tags| * |objects|
    decreases tags
  {
    if tags != {} {
      var t :| t in tags;
      var rest := tags - {t};
      var one := multiset(TagStatements(subject, t, objects));
      TagsStatementsRemove(subject, tags, objects, t);
      TagsStatementsCount(subject, rest, objects);
      assert |one| == |objects|;
      MulSucc(|rest|, |objects|);
    }
  }

  lemma MulSucc(n: nat, m: nat)
    ensures (n + 1) * m == n * m + m
  {
  }

  /** Every statement has the given subject, one of the tags' object IRIs as
      predicate and one of the objects as object. */
  lemma {:induction false} TagsStatementsShape(subject: string, tags: set<Tag>, objects: seq<RdfValue>, st: Statement)
    requires st in TagsStatements(subject, tags, objects)
    ensures st.subject == subject && st.obj in objects
    ensures exists t :: t in tags && st.predicateIri == t.objectIri
    decreases tags
  {
    var t :| t in tags;
    TagsStatementsRemove(subject, tags, objects, t);
    if st !in multiset(TagStatements(subject, t, objects)) {
      TagsStatementsShape(subject, tags - {t}, objects, st);
    } else {
      var i :| 0 <= i < |objects| && TagStatements(subject, t, objects)[i] == st;
    }
  }

  /** An attribute without an associated tag yields nothing, whatever its
      type and value, malformed or null included. */
  lemma NoAssociatedTagNoStatements(subject: string, attribute: AttributeState, value: Option<string>, parsers: ForeignParsers)
    requires forall t :: t in attribute.tags ==> !IsAssociatedWith(t)
    ensures AttributeResult(subject, attribute, value, parsers) == Success(multiset{})
  {
    assert AssociatedTags(attribute.tags) == {};
  }

  /** When it succeeds, an attribute yields (number of associated tags) x
      (number of objects) statements, each with the given subject, an
      associated tag's object IRI as predicate and one of the objects. */
  lemma AttributeStatementsShape(subject: string, attribute: AttributeState, value: Option<string>, parsers: ForeignParsers)
    requires AttributeResult(subject, attribute, value, parsers).Success?
    requires AssociatedTags(attribute.tags) != {}
    ensures ObjectsFor(attribute.dataType, value, parsers).Success?
    ensures var objects := ObjectsFor(attribute.dataType, value, parsers).value;
            var result := AttributeResult(subject, attribute, value, parsers).value;
            && |result| == |AssociatedTags(attribute.tags)| * |objects|
            && forall st :: st in result ==>
                 st.subject == subject && st.obj in objects &&
                 exists t :: t in attribute.tags && IsAssociatedWith(t) && st.predicateIri == t.objectIri
  {
    var tags := AssociatedTags(attribute.tags);
    var objects := ObjectsFor(attribute.dataType, value, parsers).value;
    TagsStatementsCount(subject, tags, objects);
    forall st | st in TagsStatements(subject, tags, objects)
      ensures st.subject == subject && st.obj in objects
      ensures exists t :: t in attribute.tags && IsAssociatedWith(t) && st.predicateIri == t.objectIri
    {
      TagsStatementsShape(subject, tags, objects, st);
    }
  }

  /** MREF and CATEGORICAL_MREF: nothing for a null or empty value; otherwise
      one object per piece of the Java split, each the whole value. */
  lemma MrefObjectsAreWholeValue(t: DataType, value: Option<string>, parsers: ForeignParsers)
    requires IsMultiValued(t)
    ensures ObjectsFor(t, value, parsers).Success?
    ensures value.None? || value.value == "" ==> ObjectsFor(t, value, parsers).value == []
    ensures value.Some? && value.value != "" ==>
              |ObjectsFor(t, value, parsers).value| == |JavaText.Split(value.value)| &&
              forall o :: o in ObjectsFor(t, value, parsers).value ==> o == StringLiteral(value.value)
  {
  }

  /** A list of n ids that does not end in a comma gives n statements per tag. */
  lemma MrefCountsPieces(t: DataType, v: string, parsers: ForeignParsers)
    requires IsMultiValued(t)
    requires v != "" && v[|v| - 1] != ','
    ensures |ObjectsFor(t, Some(v), parsers).value| == JavaText.CommaCount(v) + 1
  {
    JavaText.SplitWithoutTrailingComma(v);
  }

  /** The value "1,2,3" of an MREF attribute yields three objects, each the
      literal "1,2,3". */
  lemma MrefThreeIds(parsers: ForeignParsers)
    ensures ObjectsFor(Mref, Some("1,2,3"), parsers)
         == Success([StringLiteral("1,2,3"), StringLiteral("1,2,3"), StringLiteral("1,2,3")])
  {
    JavaText.SplitThreeIds();
    var l := StringLiteral("1,2,3");
    assert MrefObjects(Some("1,2,3")) == seq(3, _ => l);
    assert seq(3, _ => l) == [l, l, l];
  }

  /** A value of commas only is non-empty yet yields nothing. */
  lemma MrefOfCommasOnly(t: DataType, v: string, parsers: ForeignParsers)
    requires IsMultiValued(t)
    requires v != "" && forall i :: 0 <= i < |v| ==> v[i] == ','
    ensures ObjectsFor(t, Some(v), parsers) == Success([])
  {
    JavaText.SplitOfCommasOnly(v);
    assert MrefObjects(Some(v)) == seq(0, _ => StringLiteral(v));
  }

  /** BOOL: one object, true exactly when the text is "true" in any case,
      false for anything else including null. */
  lemma BoolObject(value: Option<string>, parsers: ForeignParsers)
    ensures ObjectsFor(Bool, value, parsers) == Success([BooleanLiteral(value.Some? && JavaText.LowerAscii(value.value) == "true")])
  {
  }

  /** The text types give the value verbatim as a string literal; EMAIL an
      IRI with "mailto:" in front; HYPERLINK the value itself as IRI. */
  lemma TextAndLinkObjects(t: DataType, v: string, parsers: ForeignParsers)
    ensures t in {Str, Text, Script, Html, Enum} ==> ObjectsFor(t, Some(v), parsers) == Success([StringLiteral(v)])
    ensures t == Email ==> ObjectsFor(t, Some(v), parsers) == Success([Iri("mailto:" + v)])
    ensures t == Hyperlink ==> ObjectsFor(t, Some(v), parsers) == Success([Iri(v)])
    ensures ObjectsFor(Email, None, parsers) == Success([Iri("mailto:null")])
  {
    assert MailTo + JavaString(None) == "mailto:null";
  }

  /** INT and LONG give one literal exactly when the text parses as a 32-bit
      or 64-bit integer; otherwise NumberFormatException. */
  lemma IntegerObjects(value: Option<string>, parsers: ForeignParsers)
    ensures ObjectsFor(Int, value, parsers).Success? <==> JavaText.ParseInt(value).Success?
    ensures ObjectsFor(Int, value, parsers).Success? ==>
              ObjectsFor(Int, value, parsers).value == [IntLiteral(JavaText.ParseInt(value).value)]
    ensures ObjectsFor(Int, value, parsers).Failure? ==> ObjectsFor(Int, value, parsers).error == NumberFormat(value)
    ensures ObjectsFor(Long, value, parsers).Success? <==> JavaText.ParseLong(value).Success?
    ensures ObjectsFor(Long, value, parsers).Success? ==>
              ObjectsFor(Long, value, parsers).value == [LongLiteral(JavaText.ParseLong(value).value)]
    ensures ObjectsFor(Long, value, parsers).Failure? ==> ObjectsFor(Long, value, parsers).error == NumberFormat(value)
  {
  }

  /** Every int printed in decimal is encoded back as that int. */
  lemma IntRoundTrip(n: int32, parsers: ForeignParsers)
    ensures ObjectsFor(Int, Some(JavaText.ToDecimal(n as int)), parsers) == Success([IntLiteral(n)])
  {
    JavaText.ParseIntRoundTrip(n);
  }

  /** Every type that is not multi-valued yields at most one object; the
      value types exactly one when the conversion succeeds. */
  lemma ScalarYieldsOne(t: DataType, value: Option<string>, parsers: ForeignParsers)
    requires !IsMultiValued(t)
    ensures ObjectsFor(t, value, parsers).Success? ==> |ObjectsFor(t, value, parsers).value| <= 1
    ensures ObjectsFor(t, value, parsers).Success? && t !in {Xref, Categorical, File} ==>
              |ObjectsFor(t, value, parsers).value| == 1
  {
  }

  /** XREF, CATEGORICAL and FILE values yield no statement. */
  lemma ReferenceTypesYieldNothing(t: DataType, value: Option<string>, parsers: ForeignParsers)
    requires t in {Xref, Categorical, File}
    ensures ObjectsFor(t, value, parsers) == Success([])
  {
  }

  /** A COMPOUND attribute is rejected, with the message as the source spells
      it (no space before "is"). */
  lemma CompoundRejected(value: Option<string>, parsers: ForeignParsers)
    ensures ObjectsFor(Compound, value, parsers) == Failure(IllegalArgument("DataType COMPOUNDis not supported"))
  {
    assert Compound.Name() == "COMPOUND";
    assert ScalarObject(Compound, value, parsers) == Failure(IllegalArgument("DataType " + "COMPOUND" + "is not supported"));
    assert "DataType " + "COMPOUND" + "is not supported" == "DataType COMPOUNDis not supported";
  }

  // -----------------------------------------------------------------------
  // The consumer
  // -----------------------------------------------------------------------

  /** The consumer of the rows of one entity. It keeps the entity's id, its
      attributes by name as they were at construction, and the statements it
      has pushed into its sink so far. */
  class RdfEntityConsumer {
    const entityId: string
    const attributesMap: map<Option<string>, AttributeState>
    const parsers: ForeignParsers
    var emitted: seq<Statement>

    constructor Init(entityId: string, attributesMap: map<Option<string>, AttributeState>, parsers: ForeignParsers)
      ensures this.entityId == entityId && this.attributesMap == attributesMap && this.parsers == parsers
      ensures emitted == []
    {
      this.entityId := entityId;
      this.attributesMap := attributesMap;
      this.parsers := parsers;
      emitted := [];
    }

    /** Two of the attributes share a name. */
    static predicate HasDuplicateNames(attributes: seq<Attribute>)
      reads attributes
    {
      exists j, k :: 0 <= j < k < |attributes| && attributes[j].name == attributes[k].name
    }

    /** m maps the name of every attribute, and nothing else, to its state. */
    static ghost predicate IndexesByName(attributes: seq<Attribute>, m: map<Option<string>, AttributeState>)
      reads attributes
    {
      IndexesFirst(attributes, |attributes|, m)
    }

    /** m indexes the first i attributes by name. */
    static ghost predicate IndexesFirst(attributes: seq<Attribute>, i: nat, m: map<Option<string>, AttributeState>)
      requires i <= |attributes|
      reads attributes
    {
      && (forall n :: n in m <==> exists j :: 0 <= j < i && attributes[j].name == n)
      && (forall j :: 0 <= j < i ==> attributes[j].name in m && m[attributes[j].name] == attributes[j].State())
    }

    /** The first i attributes have distinct names. */
    static ghost predicate DistinctFirst(attributes: seq<Attribute>, i: nat)
      requires i <= |attributes|
      reads attributes
    {
      forall j, k :: 0 <= j < k < i ==> attributes[j].name != attributes[k].name
    }

    /** `Collectors.toMap(Attribute::getName, identity)` over the attributes
        of an entity: two attributes with one name throw IllegalStateException. */
    static method IndexByName(attributes: seq<Attribute>) returns (r: Result<map<Option<string>, AttributeState>, Exception>)
      ensures r.Failure? <==> HasDuplicateNames(attributes)
      ensures r.Failure? ==> r.error.IllegalState?
      ensures r.Success? ==> IndexesByName(attributes, r.value)
    {
      var m: map<Option<string>, AttributeState> := map[];
      var i := 0;
      while i < |attributes|
        invariant 0 <= i <= |attributes|
        invariant DistinctFirst(attributes, i)
        invariant IndexesFirst(attributes, i, m)
      {
        var a := attributes[i];
        if a.name in m {
          DuplicateFound(attributes, i, m);
          return Failure(IllegalState("Duplicate key " + JavaString(a.name)));
        }
        DistinctStep(attributes, i, m);
        IndexesStep(attributes, i, m);
        m := m[a.name := a.State()];
        i := i + 1;
      }
      r := Success(m);
    }

    /** A name already in the index of the first i attributes is a duplicate. */
    static lemma DuplicateFound(attributes: seq<Attribute>, i: nat, m: map<Option<string>, AttributeState>)
      requires i < |attributes|
      requires IndexesFirst(attributes, i, m)
      requires attributes[i].name in m
      ensures HasDuplicateNames(attributes)
    {
      var j :| 0 <= j < i && attributes[j].name == attributes[i].name;
    }

    /** Adding the next attribute, whose name is new, keeps the first
        attributes' names distinct. */
    static lemma DistinctStep(attributes: seq<Attribute>, i: nat, m: map<Option<string>, AttributeState>)
      requires i < |attributes|
      requires DistinctFirst(attributes, i)
      requires IndexesFirst(attributes, i, m)
      requires attributes[i].name !in m
      ensures DistinctFirst(attributes, i + 1)
    {
      forall j, k | 0 <= j < k < i + 1
        ensures attributes[j].name != attributes[k].name
      {
        if k == i {
          assert attributes[j].name in m;
        }
      }
    }

    /** Adding the next attribute under its new name indexes one attribute
        more. */
    static lemma IndexesStep(attributes: seq<Attribute>, i: nat, m: map<Option<string>, AttributeState>)
      requires i < |attributes|
      requires IndexesFirst(attributes, i, m)
      requires attributes[i].name !in m
      ensures IndexesFirst(attributes, i + 1, m[attributes[i].name := attributes[i].State()])
    {
      var name := attributes[i].name;
      var m' := m[name := attributes[i].State()];
      forall n
        ensures n in m' <==> exists j :: 0 <= j < i + 1 && attributes[j].name == n
      {
        if n in m && n != name {
          var j :| 0 <= j < i && attributes[j].name == n;
          assert 0 <= j < i + 1;
        }
        if n == name {
          assert attributes[i].name == n;
        }
      }
      forall j | 0 <= j < i + 1
        ensures attributes[j].name in m' && m'[attributes[j].name] == attributes[j].State()
      {
        if j < i {
          assert attributes[j].name != name;
        }
      }
    }

    /** The Java constructor: keeps the entity's id and indexes its attributes
        by name. */
    static method Create(entity: Entity, parsers: ForeignParsers) returns (r: Result<RdfEntityConsumer, Exception>)
      ensures r.Failure? <==> HasDuplicateNames(entity.attributes)
      ensures r.Failure? ==> r.error.IllegalState?
      ensures r.Success? ==> fresh(r.value) && r.value.entityId == entity.id && r.value.parsers == parsers
      ensures r.Success? ==> r.value.emitted == [] && IndexesByName(entity.attributes, r.value.attributesMap)
    {
      var index := IndexByName(entity.attributes);
      if index.Failure? {
        return Failure(index.error);
      }
      var c := new RdfEntityConsumer.Init(entity.id, index.value, parsers);
      r := Success(c);
    }

    /** What the entry (key, value) of a row yields: a key that names no
        attribute dereferences null. */
    ghost function EntryResult(key: string, value: Option<string>): Result<multiset<Statement>, Exception> {
      if Some(key) !in attributesMap then Failure(NullPointer)
      else AttributeResult(entityId, attributesMap[Some(key)], value, parsers)
    }

    ghost function EntryStatements(key: string, value: Option<string>): multiset<Statement> {
      match EntryResult(key, value)
      case Success(s) => s
      case Failure(_) => multiset{}
    }

    /** The statements of the entries of a row with the given keys. */
    ghost function RowStatements(data: map<string, Option<string>>, keys: set<string>): multiset<Statement>
      requires keys <= data.Keys
      decreases keys
    {
      if keys == {} then multiset{}
      else
        var k :| k in keys;
        EntryStatements(k, data[k]) + RowStatements(data, keys - {k})
    }

    /** Any entry may be taken out first: the order of the row is irrelevant. */
    lemma {:induction false} RowStatementsRemove(data: map<string, Option<string>>, keys: set<string>, k: string)
      requires keys <= data.Keys && k in keys
      ensures RowStatements(data, keys) == EntryStatements(k, data[k]) + RowStatements(data, keys - {k})
      decreases keys
    {
      var u :| u in keys && RowStatements(data, keys) == EntryStatements(u, data[u]) + RowStatements(data, keys - {u});
      if u != k {
        RowStatementsRemove(data, keys - {u}, k);
        RowStatementsRemove(data, keys - {k}, u);
        assert keys - {u} - {k} == keys - {k} - {u};
      }
    }

    /** Adding an entry adds its statements. */
    lemma RowStatementsAdd(data: map<string, Option<string>>, done: set<string>, k: string)
      requires done <= data.Keys && k in data && k !in done
      ensures RowStatements(data, done + {k}) == EntryStatements(k, data[k]) + RowStatements(data, done)
    {
      RowStatementsRemove(data, done + {k}, k);
      assert done + {k} - {k} == done;
    }

    /** The statements of a tag for an attribute and value, or the exception
        converting the value throws. */
    function TagResult(attribute: AttributeState, tag: Tag, value: Option<string>): Result<seq<Statement>, Exception> {
      match ObjectsFor(attribute.dataType, value, parsers)
      case Failure(e) => Failure(e)
      case Success(objects) => Success(TagStatements(entityId, tag, objects))
    }

    /** `createStatement`: the statements of one tag, collected in a list. */
    method CreateStatement(attribute: AttributeState, tag: Tag, value: Option<string>) returns (r: Result<seq<Statement>, Exception>)
      ensures r == TagResult(attribute, tag, value)
    {
      var subject := entityId;
      var predicateIri := tag.objectIri;
      var statements: seq<Statement> := [];
      if IsMultiValued(attribute.dataType) {
        if value.Some? && value.value != "" {
          var ids := JavaText.Split(value.value);
          var i := 0;
          while i < |ids|
            invariant 0 <= i <= |ids|
            invariant |statements| == i
            invariant forall j :: 0 <= j < i ==> statements[j] == Statement(subject, predicateIri, StringLiteral(value.value))
          {
            statements := statements + [Statement(subject, predicateIri, StringLiteral(value.value))];
            i := i + 1;
          }
          assert statements == TagStatements(subject, tag, MrefObjects(value));
        } else {
          assert TagStatements(subject, tag, MrefObjects(value)) == [];
        }
        r := Success(statements);
      } else {
        match ScalarObject(attribute.dataType, value, parsers)
        case Failure(e) =>
          r := Failure(e);
        case Success(None) =>
          assert TagStatements(subject, tag, []) == [];
          r := Success(statements);
        case Success(Some(o)) =>
          statements := statements + [Statement(subject, predicateIri, o)];
          assert statements == TagStatements(subject, tag, [o]);
          r := Success(statements);
      }
    }

    /** `createStatements`: the statements of every associated tag of an
        attribute, in the unspecified order of its tag set. */
    method CreateStatements(attribute: AttributeState, value: Option<string>) returns (r: Result<seq<Statement>, Exception>)
      ensures r.Success? ==> AttributeResult(entityId, attribute, value, parsers) == Success(multiset(r.value))
      ensures r.Failure? ==> AttributeResult(entityId, attribute, value, parsers) == Failure(r.error)
    {
      var rest := attribute.tags;
      var statements: seq<Statement> := [];
      ghost var objects := ObjectsFor(attribute.dataType, value, parsers);
      ghost var done: set<Tag> := {};
      while rest != {}
        invariant rest <= attribute.tags
        invariant forall t :: t in done <==> t in attribute.tags && t !in rest && IsAssociatedWith(t)
        invariant done == {} ==> statements == []
        invariant done != {} ==> objects.Success? && multiset(statements) == TagsStatements(entityId, done, objects.value)
        decreases rest
      {
        var t :| t in rest;
        if IsAssociatedWith(t) {
          var s := CreateStatement(attribute, t, value);
          if s.Failure? {
            assert t in AssociatedTags(attribute.tags);
            return Failure(s.error);
          }
          TagsStatementsAdd(entityId, done, objects.value, t);
          if done == {} {
            assert TagsStatements(entityId, {}, objects.value) == multiset{};
            assert done + {t} == {t};
          }
          statements := statements + s.value;
          done := done + {t};
        }
        rest := rest - {t};
      }
      assert done == AssociatedTags(attribute.tags);
      r := Success(statements);
    }

    /** `accept`: pushes the statements of every entry of the row into the
        sink. On success the sink has gained exactly the row's statements; a
        failing entry stops the row with that entry's exception, after the
        statements of the entries handled before it. */
    method Accept(data: map<string, Option<string>>) returns (r: Result<(), Exception>)
      modifies this
      ensures r.Success? <==> forall k :: k in data ==> EntryResult(k, data[k]).Success?
      ensures r.Success? ==> multiset(emitted) == multiset(old(emitted)) + RowStatements(data, data.Keys)
      ensures r.Failure? ==> exists k :: k in data && EntryResult(k, data[k]) == Failure(r.error)
      ensures r.Failure? ==> exists done :: FailedAfter(data, done, r.error, multiset(emitted) - multiset(old(emitted)))
      ensures old(emitted) <= emitted
    {
      var rest := data.Keys;
      ghost var done: set<string> := {};
      while rest != {}
        invariant rest <= data.Keys && done <= data.Keys
        invariant forall k :: k in done <==> k in data && k !in rest
        invariant forall k :: k in done ==> EntryResult(k, data[k]).Success?
        invariant multiset(emitted) == multiset(old(emitted)) + RowStatements(data, done)
        invariant old(emitted) <= emitted
        decreases rest
      {
        var k :| k in rest;
        if Some(k) !in attributesMap {
          assert EntryResult(k, data[k]) == Failure(NullPointer);
          FailedAfterEntry(data, done, k, NullPointer, multiset(emitted) - multiset(old(emitted)));
          return Failure(NullPointer);
        }
        var s := CreateStatements(attributesMap[Some(k)], data[k]);
        if s.Failure? {
          assert EntryResult(k, data[k]) == Failure(s.error);
          FailedAfterEntry(data, done, k, s.error, multiset(emitted) - multiset(old(emitted)));
          return Failure(s.error);
        }
        RowStatementsAdd(data, done, k);
        emitted := emitted + s.value;
        done := done + {k};
        rest := rest - {k};
      }
      assert done == data.Keys;
      r := Success(());
    }

    /** A row stopped with exception e after the entries with keys in done:
        those succeeded and yielded exactly the statements added, and an
        entry not among them fails with e. */
    ghost predicate FailedAfter(data: map<string, Option<string>>, done: set<string>, e: Exception, added: multiset<Statement>)
      reads this
    {
      && done <= data.Keys
      && (forall k :: k in done ==> EntryResult(k, data[k]).Success?)
      && added == RowStatements(data, done)
      && exists k :: k in data && k !in done && EntryResult(k, data[k]) == Failure(e)
    }

    lemma FailedAfterEntry(data: map<string, Option<string>>, done: set<string>, k: string, e: Exception, added: multiset<Statement>)
      requires done <= data.Keys && k in data && k !in done
      requires forall j :: j in done ==> EntryResult(j, data[j]).Success?
      requires added == RowStatements(data, done)
      requires EntryResult(k, data[k]) == Failure(e)
      ensures FailedAfter(data, done, e, added)
    {
    }

    /** A row key that names no attribute makes the row fail. */
    lemma UnknownKeyFails(key: string, value: Option<string>)
      requires Some(key) !in attributesMap
      ensures EntryResult(key, value) == Failure(NullPointer)
    {
    }
  }
}
