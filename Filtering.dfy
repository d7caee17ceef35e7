/** The entity filter of the tabular export: the version-dependent key by
    which an entity is recognised, and the inclusion test on a list of names. */
module Filtering {
  import opened Schema

  /** A filter over a list of names for one schema version. Both are fixed
      at construction: a datatype value, so no test can change them. */
  datatype EntityFilter = EntityFilter(entities: seq<string>, version: Version) {

    /** The key an entity is looked up by: its full name before version 3,
        its id from version 3 on. */
    function EntityId(e: Entity): (key: string)
      ensures key == e.fullName || key == e.id
    {
      if version.SmallerThan(Version3) then e.fullName else e.id
    }

    /** As the code is written: an entity is included when its key is NOT
        one of the names. */
    predicate IsIncluded(e: Entity) {
      EntityId(e) !in entities
    }
  }

  lemma KeyBeforeVersion3(f: EntityFilter, e: Entity)
    requires f.version.SmallerThan(Version3)
    ensures f.EntityId(e) == e.fullName
  {
  }

  lemma KeyFromVersion3(f: EntityFilter, e: Entity)
    requires f.version.major >= 3
    ensures f.EntityId(e) == e.id
  {
  }

  /** Inclusion is the negation of list membership of the key. */
  lemma IncludedIffKeyNotListed(f: EntityFilter, e: Entity)
    ensures f.IsIncluded(e) <==> forall i :: 0 <= i < |f.entities| ==> f.entities[i] != f.EntityId(e)
  {
  }

  lemma EmptyListIncludesAll(version: Version, e: Entity)
    ensures EntityFilter([], version).IsIncluded(e)
  {
  }

  /** Only which names are listed matters: neither their order nor repeats. */
  lemma InclusionDependsOnlyOnNameSet(f: EntityFilter, g: EntityFilter, e: Entity)
    requires f.version == g.version
    requires forall n :: n in f.entities <==> n in g.entities
    ensures f.IsIncluded(e) == g.IsIncluded(e)
  {
  }
}
