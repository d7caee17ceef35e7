/** The schema model: data types, semantic tags, schema versions, entities
    and the mutable attribute record with its fluent setters. */
module Schema {
  import opened Common
  import JavaText

  /** The closed set of attribute data types. */
  datatype DataType =
    | Str | Text | Script | Html | Enum | Bool | Int | Long | Decimal | Date | DateTime
    | Email | Hyperlink | Xref | Categorical | Mref | CategoricalMref | File | Compound
  {
    /** The name of the Java enum constant, as string concatenation prints it. */
    function Name(): string {
      match this
      case Str => "STRING" case Text => "TEXT" case Script => "SCRIPT" case Html => "HTML"
      case Enum => "ENUM" case Bool => "BOOL" case Int => "INT" case Long => "LONG"
      case Decimal => "DECIMAL" case Date => "DATE" case DateTime => "DATE_TIME"
      case Email => "EMAIL" case Hyperlink => "HYPERLINK" case Xref => "XREF"
      case Categorical => "CATEGORICAL" case Mref => "MREF"
      case CategoricalMref => "CATEGORICAL_MREF" case File => "FILE" case Compound => "COMPOUND"
    }
  }

  /** A semantic annotation: a relation IRI and an object IRI. */
  datatype Tag = Tag(relationIri: string, objectIri: string)

  /** A language of labels and descriptions. */
  datatype Language = Language(code: string)

  /** A schema version of the remote service, ordered lexicographically. */
  datatype Version = Version(major: nat, minor: nat, patch: nat) {
    predicate SmallerThan(other: Version) {
      || major < other.major
      || (major == other.major && minor < other.minor)
      || (major == other.major && minor == other.minor && patch < other.patch)
    }
  }

  /** The first version in which an entity's stable key is its id. */
  const Version3 := Version(3, 0, 0)

  /** An entity (table) of the schema: its opaque id, its fully qualified
      name, whether it is abstract, and its attributes, compound attributes
      already flattened to their leaves. */
  datatype Entity = Entity(id: string, fullName: string, isAbstract: bool, attributes: seq<Attribute>)

  /** The value of every field of an attribute at one moment. */
  datatype AttributeState = AttributeState(
    entityFullname: Option<string>,
    id: Option<string>,
    name: Option<string>,
    dataType: DataType,
    refEntity: Option<Entity>,
    idAttribute: bool,
    lookupAttribute: bool,
    nillable: bool,
    auto: bool,
    visible: bool,
    readOnly: bool,
    unique: bool,
    aggregateable: bool,
    labelAttribute: bool,
    enumOptions: Option<string>,
    expression: Option<string>,
    labelText: Option<string>,
    description: Option<string>,
    visibleExpression: Option<string>,
    validationExpression: Option<string>,
    defaultValue: Option<string>,
    orderBy: Option<string>,
    mappedBy: Attribute?,
    rangeMin: Option<int32>,
    rangeMax: Option<int32>,
    tags: set<Tag>,
    labels: map<Language, Option<string>>,
    descriptions: map<Language, Option<string>>,
    parts: seq<Attribute>,
    compound: Attribute?)

  /** Equality on every field that is not a reference to another attribute or
      entity: the flags, the texts, the type, the ranges, the tags, labels and
      descriptions. */
  predicate SameScalars(a: AttributeState, b: AttributeState) {
    a.entityFullname == b.entityFullname
    && a.id == b.id
    && a.name == b.name
    && a.dataType == b.dataType
    && a.idAttribute == b.idAttribute
    && a.lookupAttribute == b.lookupAttribute
    && a.nillable == b.nillable
    && a.auto == b.auto
    && a.visible == b.visible
    && a.readOnly == b.readOnly
    && a.unique == b.unique
    && a.aggregateable == b.aggregateable
    && a.labelAttribute == b.labelAttribute
    && a.enumOptions == b.enumOptions
    && a.expression == b.expression
    && a.labelText == b.labelText
    && a.description == b.description
    && a.visibleExpression == b.visibleExpression
    && a.validationExpression == b.validationExpression
    && a.defaultValue == b.defaultValue
    && a.orderBy == b.orderBy
    && a.rangeMin == b.rangeMin
    && a.rangeMax == b.rangeMax
    && a.tags == b.tags
    && a.labels == b.labels
    && a.descriptions == b.descriptions
  }

  /** An attribute of an entity, updated in place by its fluent setters. */
  class Attribute {
    var entityFullname: Option<string>
    var id: Option<string>
    var name: Option<string>
    var dataType: DataType
    var refEntity: Option<Entity>
    var idAttribute: bool
    var lookupAttribute: bool
    var nillable: bool
    var auto: bool
    var visible: bool
    var readOnly: bool
    var unique: bool
    var aggregateable: bool
    var labelAttribute: bool
    var enumOptions: Option<string>
    var expression: Option<string>
    var labelText: Option<string>
    var description: Option<string>
    var visibleExpression: Option<string>
    var validationExpression: Option<string>
    var defaultValue: Option<string>
    var orderBy: Option<string>
    var mappedBy: Attribute?
    var rangeMin: Option<int32>
    var rangeMax: Option<int32>
    var tags: set<Tag>
    var labels: map<Language, Option<string>>
    var descriptions: map<Language, Option<string>>
    var parts: seq<Attribute>
    var compound: Attribute?

    /** The current value of every field. */
    function State(): AttributeState
      reads this
    {
      AttributeState(
        entityFullname, id, name, dataType, refEntity, idAttribute, lookupAttribute, nillable,
        auto, visible, readOnly, unique, aggregateable, labelAttribute, enumOptions,
        expression, labelText, description, visibleExpression, validationExpression,
        defaultValue, orderBy, mappedBy, rangeMin, rangeMax, tags, labels, descriptions, parts,
        compound)
    }

    /** The state of an attribute fresh from the constructor, apart from its
        id and name. */
    predicate HasDefaults()
      reads this
    {
      entityFullname.None?
      && dataType == Str
      && refEntity.None?
      && !idAttribute
      && !lookupAttribute
      && !nillable
      && !auto
      && visible
      && !readOnly
      && !unique
      && !aggregateable
      && !labelAttribute
      && enumOptions.None?
      && expression.None?
      && labelText.None?
      && description.None?
      && visibleExpression.None?
      && validationExpression.None?
      && defaultValue.None?
      && orderBy.None?
      && mappedBy == null
      && rangeMin.None?
      && rangeMax.None?
      && tags == {}
      && labels == map[]
      && descriptions == map[]
      && parts == []
      && compound == null
    }

    /** `new Attribute(id, name)`: visible, of type STRING, every other flag
        false, every other reference null, no tags, labels, descriptions or
        parts. */
    constructor (id: Option<string>, name: Option<string>)
      ensures this.id == id && this.name == name
      ensures HasDefaults()
    {
      entityFullname := None;
      this.id := id;
      this.name := name;
      dataType := Str;
      refEntity := None;
      idAttribute := false;
      lookupAttribute := false;
      nillable := false;
      auto := false;
      visible := true;
      readOnly := false;
      unique := false;
      aggregateable := false;
      labelAttribute := false;
      enumOptions := None;
      expression := None;
      labelText := None;
      description := None;
      visibleExpression := None;
      validationExpression := None;
      defaultValue := None;
      orderBy := None;
      mappedBy := null;
      rangeMin := None;
      rangeMax := None;
      tags := {};
      labels := map[];
      descriptions := map[];
      parts := [];
      compound := null;
    }

    /** `Attribute.createAttribute(id, name)`. */
    static method CreateAttribute(id: Option<string>, name: Option<string>) returns (a: Attribute)
      ensures fresh(a)
      ensures a.id == id && a.name == name && a.HasDefaults()
    {
      a := new Attribute(id, name);
    }

    /** `new Attribute(id)`: the two-argument constructor with a null name. */
    static method WithId(id: Option<string>) returns (a: Attribute)
      ensures fresh(a)
      ensures a.id == id && a.name.None? && a.HasDefaults()
    {
      a := new Attribute(id, None);
    }

    /** `Attribute.from(id)`: IllegalArgumentException for a null or empty
        id; otherwise an attribute whose name is its id. The Java exception
        is created without a message (null); the model gives it the empty
        message. */
    static method From(id: Option<string>) returns (r: Result<Attribute, Exception>)
      ensures r.Failure? <==> id.None? || id.value == ""
      ensures r.Failure? ==> r.error == IllegalArgument("")
      ensures r.Success? ==> fresh(r.value) && r.value.id == id && r.value.name == id && r.value.HasDefaults()
    {
      if id.None? || id.value == "" {
        return Failure(IllegalArgument(""));
      }
      var a := WithId(id);
      var _ := a.SetName(id);
      r := Success(a);
    }

    /** `hashCode()`: 17 * 5 + Objects.hashCode(id), in 32-bit arithmetic. */
    function HashCode(): int32
      reads this
    {
      Wrap32(17 * 5 + JavaText.ObjectsHashCode(id) as int)
    }

    /** `equals(o)`: the same object, or a non-null attribute whose
        non-reference fields are all equal. */
    function Equals(o: Attribute?): (r: bool)
      reads this, o
      ensures this == o ==> r
      ensures r ==> o != null && o.id == id && o.name == name && o.dataType == dataType
    {
      this == o || (o != null && SameScalars(State(), o.State()))
    }

    /** `setEntityFullname`: changes that one field and returns the same object. */
    method SetEntityFullname(entityFullname: Option<string>) returns (self: Attribute)
      modifies this
      ensures self == this
      ensures State() == old(State()).(entityFullname := entityFullname)
    {
      this.entityFullname := entityFullname;
      self := this;
    }

    /** `setId`: changes that one field and returns the same object. */
    method SetId(id: Option<string>) returns (self: Attribute)
      modifies this
      ensures self == this
      ensures State() == old(State()).(id := id)
    {
      this.id := id;
      self := this;
    }

    /** `setName`: changes that one field and returns the same object. */
    method SetName(name: Option<string>) returns (self: Attribute)
      modifies this
      ensures self == this
      ensures State() == old(State()).(name := name)
    {
      this.name := name;
      self := this;
    }

    /** `setDataType`: changes that one field and returns the same object. */
    method SetDataType(dataType: DataType) returns (self: Attribute)
      modifies this
      ensures self == this
      ensures State() == old(State()).(dataType := dataType)
    {
      this.dataType := dataType;
      self := this;
    }

    /** `setRefEntity`: changes that one field and returns the same object. */
    method SetRefEntity(refEntity: Option<Entity>) returns (self: Attribute)
      modifies this
      ensures self == this
      ensures State() == old(State()).(refEntity := refEntity)
    {
      this.refEntity := refEntity;
      self := this;
    }

    /** `setIdAttribute`: changes that one field and returns the same object. */
    method SetIdAttribute(idAttribute: bool) returns (self: Attribute)
      modifies this
      ensures self == this
      ensures State() == old(State()).(idAttribute := idAttribute)
    {
      this.idAttribute := idAttribute;
      self := this;
    }

    /** `setLookupAttribute`: changes that one field and returns the same object. */
    method SetLookupAttribute(lookupAttribute: bool) returns (self: Attribute)
      modifies this
      ensures self == this
      ensures State() == old(State()).(lookupAttribute := lookupAttribute)
    {
      this.lookupAttribute := lookupAttribute;
      self := this;
    }

    /** `setNilleble`: changes that one field and returns the same object. */
    method SetNillable(nillable: bool) returns (self: Attribute)
      modifies this
      ensures self == this
      ensures State() == old(State()).(nillable := nillable)
    {
      this.nillable := nillable;
      self := this;
    }

    /** `setAuto`: changes that one field and returns the same object. */
    method SetAuto(auto: bool) returns (self: Attribute)
      modifies this
      ensures self == this
      ensures State() == old(State()).(auto := auto)
    {
      this.auto := auto;
      self := this;
    }

    /** `setVisible`: changes that one field and returns the same object. */
    method SetVisible(visible: bool) returns (self: Attribute)
      modifies this
      ensures self == this
      ensures State() == old(State()).(visible := visible)
    {
      this.visible := visible;
      self := this;
    }

    /** `setReadOnly`: changes that one field and returns the same object. */
    method SetReadOnly(readOnly: bool) returns (self: Attribute)
      modifies this
      ensures self == this
      ensures State() == old(State()).(readOnly := readOnly)
    {
      this.readOnly := readOnly;
      self := this;
    }

    /** `setUnique`: changes that one field and returns the same object. */
    method SetUnique(unique: bool) returns (self: Attribute)
      modifies this
      ensures self == this
      ensures State() == old(State()).(unique := unique)
    {
      this.unique := unique;
      self := this;
    }

    /** `setAggregateable`: changes that one field and returns the same object. */
    method SetAggregateable(aggregateable: bool) returns (self: Attribute)
      modifies this
      ensures self == this
      ensures State() == old(State()).(aggregateable := aggregateable)
    {
      this.aggregateable := aggregateable;
      self := this;
    }

    /** `setLabelAttribute`: changes that one field and returns the same object. */
    method SetLabelAttribute(labelAttribute: bool) returns (self: Attribute)
      modifies this
      ensures self == this
      ensures State() == old(State()).(labelAttribute := labelAttribute)
    {
      this.labelAttribute := labelAttribute;
      self := this;
    }

    /** `setEnumOptions`: changes that one field and returns the same object. */
    method SetEnumOptions(enumOptions: Option<string>) returns (self: Attribute)
      modifies this
      ensures self == this
      ensures State() == old(State()).(enumOptions := enumOptions)
    {
      this.enumOptions := enumOptions;
      self := this;
    }

    /** `setExpression`: changes that one field and returns the same object. */
    method SetExpression(expression: Option<string>) returns (self: Attribute)
      modifies this
      ensures self == this
      ensures State() == old(State()).(expression := expression)
    {
      this.expression := expression;
      self := this;
    }

    /** `setLabel`: changes that one field and returns the same object. */
    method SetLabel(text: Option<string>) returns (self: Attribute)
      modifies this
      ensures self == this
      ensures State() == old(State()).(labelText := text)
    {
      this.labelText := text;
      self := this;
    }

    /** `setDescription`: changes that one field and returns the same object. */
    method SetDescription(description: Option<string>) returns (self: Attribute)
      modifies this
      ensures self == this
      ensures State() == old(State()).(description := description)
    {
      this.description := description;
      self := this;
    }

    /** `setVisibleExpression`: changes that one field and returns the same object. */
    method SetVisibleExpression(visibleExpression: Option<string>) returns (self: Attribute)
      modifies this
      ensures self == this
      ensures State() == old(State()).(visibleExpression := visibleExpression)
    {
      this.visibleExpression := visibleExpression;
      self := this;
    }

    /** `setValidationExpression`: changes that one field and returns the same object. */
    method SetValidationExpression(validationExpression: Option<string>) returns (self: Attribute)
      modifies this
      ensures self == this
      ensures State() == old(State()).(validationExpression := validationExpression)
    {
      this.validationExpression := validationExpression;
      self := this;
    }

    /** `setDefaultValue`: changes that one field and returns the same object. */
    method SetDefaultValue(defaultValue: Option<string>) returns (self: Attribute)
      modifies this
      ensures self == this
      ensures State() == old(State()).(defaultValue := defaultValue)
    {
      this.defaultValue := defaultValue;
      self := this;
    }

    /** `setOrderBy`. */
    method SetOrderBy(orderBy: Option<string>)
      modifies this
      ensures State() == old(State()).(orderBy := orderBy)
    {
      this.orderBy := orderBy;
    }

    /** `setMappedBy`. */
    method SetMappedBy(mappedBy: Attribute?)
      modifies this
      ensures State() == old(State()).(mappedBy := mappedBy)
    {
      this.mappedBy := mappedBy;
    }

    /** `setRangeMin`: changes that one field and returns the same object. */
    method SetRangeMin(rangeMin: Option<int32>) returns (self: Attribute)
      modifies this
      ensures self == this
      ensures State() == old(State()).(rangeMin := rangeMin)
    {
      this.rangeMin := rangeMin;
      self := this;
    }

    /** `setRangeMax`: changes that one field and returns the same object. */
    method SetRangeMax(rangeMax: Option<int32>) returns (self: Attribute)
      modifies this
      ensures self == this
      ensures State() == old(State()).(rangeMax := rangeMax)
    {
      this.rangeMax := rangeMax;
      self := this;
    }

    /** `setCompound`: changes that one field and returns the same object. */
    method SetCompound(compound: Attribute?) returns (self: Attribute)
      modifies this
      ensures self == this
      ensures State() == old(State()).(compound := compound)
    {
      this.compound := compound;
      self := this;
    }

    /** `addPart`: appends at the end; the same part twice gives two entries. */
    method AddPart(part: Attribute) returns (self: Attribute)
      modifies this
      ensures self == this
      ensures State() == old(State()).(parts := old(parts) + [part])
    {
      parts := parts + [part];
      self := this;
    }

    /** `addTag`: set insertion, so a tag already present changes nothing. */
    method AddTag(tag: Tag) returns (self: Attribute)
      modifies this
      ensures self == this
      ensures State() == old(State()).(tags := old(tags) + {tag})
      ensures old(tag in tags) ==> State() == old(State())
    {
      tags := tags + {tag};
      self := this;
    }

    /** `addDescription`: replaces the text for that language only. */
    method AddDescription(description: Option<string>, language: Language) returns (self: Attribute)
      modifies this
      ensures self == this
      ensures State() == old(State()).(descriptions := old(descriptions)[language := description])
    {
      descriptions := descriptions[language := description];
      self := this;
    }

    /** `addLabel`: replaces the text for that language only. */
    method AddLabel(text: Option<string>, language: Language)
      modifies this
      ensures State() == old(State()).(labels := old(labels)[language := text])
    {
      labels := labels[language := text];
    }
  }

  /** Equal attributes have equal hash codes, since both depend on the id. */
  lemma EqualsConsistentWithHashCode(a: Attribute, b: Attribute)
    requires a.Equals(b)
    ensures a.HashCode() == b.HashCode()
  {
  }

  lemma EqualsReflexive(a: Attribute)
    ensures a.Equals(a)
  {
  }

  lemma EqualsSymmetric(a: Attribute, b: Attribute)
    ensures a.Equals(b) <==> b.Equals(a)
  {
  }

  lemma EqualsTransitive(a: Attribute, b: Attribute, c: Attribute)
    requires a.Equals(b) && b.Equals(c)
    ensures a.Equals(c)
  {
  }
}
