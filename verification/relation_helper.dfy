/**
  The schema relation resolver of `src/relationHelper.ts`.

  In the source these are TypeScript conditional types over a generated
  `Database` type; here the schema is an explicit value and the types are
  sets of table names. The source applies each conditional to the whole
  union `Relationships[number]` of a table's descriptors rather than to each
  descriptor, so a table's references are all-or-nothing: an empty list
  gives nothing (`never`), and so does a list in which any descriptor lacks
  `referencedRelation`, because then the union as a whole does not extend
  `{ referencedRelation: infer R }`.
*/
module RelationHelper {
  import opened Wrappers

  /** One foreign-key descriptor; only the referenced table matters here. */
  datatype Descriptor = Descriptor(referencedRelation: Option<string>)

  /** A table: the names of its row fields and its relationship descriptors. */
  datatype Table = Table(row: set<string>, relationships: seq<Descriptor>)

  /** Table name to table; the keys are the schema's `TableName`s. */
  type Schema = map<string, Table>

  /** Every descriptor carries `referencedRelation`. */
  predicate AllReference(rels: seq<Descriptor>)
  {
    forall i :: 0 <= i < |rels| ==> rels[i].referencedRelation.Some?
  }

  /** Some descriptor references `target`. */
  predicate References(rels: seq<Descriptor>, target: string)
  {
    exists i :: 0 <= i < |rels| && rels[i].referencedRelation == Some(target)
  }

  /** The `R` that `Relationships[number] extends { referencedRelation: infer R }`
      binds, or nothing when the list is empty or the test fails. */
  function Inferred(rels: seq<Descriptor>): (r: set<string>)
    ensures forall k :: k in r <==> |rels| > 0 && AllReference(rels) && References(rels, k)
  {
    if |rels| == 0 || !AllReference(rels) then {}
    else set i | 0 <= i < |rels| :: rels[i].referencedRelation.value
  }

  /** Tables that `t` references through its own foreign keys. */
  function DirectRelations(schema: Schema, t: string): (r: set<string>)
    requires t in schema
    ensures r <= schema.Keys
    ensures forall k :: k in r <==>
      k in schema && |schema[t].relationships| > 0
      && AllReference(schema[t].relationships) && References(schema[t].relationships, k)
    ensures |schema[t].relationships| == 0 ==> r == {}
    ensures !AllReference(schema[t].relationships) ==> r == {}
  {
    set k | k in Inferred(schema[t].relationships) && k in schema
  }

  /** Tables whose foreign keys reference `t`. */
  function InverseRelations(schema: Schema, t: string): (r: set<string>)
    requires t in schema
    ensures r <= schema.Keys
    ensures forall k :: k in r <==>
      k in schema && |schema[k].relationships| > 0
      && AllReference(schema[k].relationships) && References(schema[k].relationships, t)
  {
    set k | k in schema && t in Inferred(schema[k].relationships)
  }

  /** The keys `include` accepts under `t`. */
  function AvailableRelations(schema: Schema, t: string): (r: set<string>)
    requires t in schema
    ensures r <= schema.Keys
    ensures forall k :: k in r <==> k in DirectRelations(schema, t) || k in InverseRelations(schema, t)
  {
    DirectRelations(schema, t) + InverseRelations(schema, t)
  }

  // ---------------------------------------------------------------------------
  // Properties
  // ---------------------------------------------------------------------------

  /** A table with no descriptors relates to nothing in either direction. */
  lemma EmptyTableIsolated(schema: Schema, t: string)
    requires t in schema && |schema[t].relationships| == 0
    ensures DirectRelations(schema, t) == {}
    ensures forall u :: u in schema ==> t !in InverseRelations(schema, u)
  {
  }

  /** One descriptor without `referencedRelation` hides all of the table's
      foreign keys, in both directions. */
  lemma IncompleteTableIsolated(schema: Schema, t: string)
    requires t in schema && !AllReference(schema[t].relationships)
    ensures DirectRelations(schema, t) == {}
    ensures forall u :: u in schema ==> t !in InverseRelations(schema, u)
  {
  }

  /** Inverse relations are the transpose of direct ones: `k` references `t`
      exactly when `t` is referenced by `k`. */
  lemma InverseIsTranspose(schema: Schema, t: string, k: string)
    requires t in schema && k in schema
    ensures k in InverseRelations(schema, t) <==> t in DirectRelations(schema, k)
  {
  }

  /** Nestability is symmetric: `k` may be included under `t` exactly when
      `t` may be included under `k`. */
  lemma {:induction false} AvailableSymmetric(schema: Schema, t: string, k: string)
    requires t in schema && k in schema
    ensures k in AvailableRelations(schema, t) <==> t in AvailableRelations(schema, k)
  {
    InverseIsTranspose(schema, t, k);
    InverseIsTranspose(schema, k, t);
  }

  /** A table whose complete descriptor list references itself is its own
      direct and inverse relation, hence available under itself. */
  lemma SelfReference(schema: Schema, t: string)
    requires t in schema && AllReference(schema[t].relationships)
    requires References(schema[t].relationships, t)
    ensures t in DirectRelations(schema, t) && t in InverseRelations(schema, t)
    ensures t in AvailableRelations(schema, t)
  {
  }

  // ---------------------------------------------------------------------------
  // The per-descriptor reading
  // ---------------------------------------------------------------------------

  /** The reading that drops only the descriptors lacking `referencedRelation`
      and keeps the rest: referenced names that are table names. */
  function DirectPerDescriptor(schema: Schema, t: string): (r: set<string>)
    requires t in schema
    ensures forall k :: k in r <==> k in schema && References(schema[t].relationships, k)
  {
    var rels := schema[t].relationships;
    set i | 0 <= i < |rels| && rels[i].referencedRelation.Some? && rels[i].referencedRelation.value in schema
      :: rels[i].referencedRelation.value
  }

  /** The source's union-level reading agrees with the per-descriptor one on
      complete descriptor lists and is empty otherwise. */
  lemma DirectAllOrNothing(schema: Schema, t: string)
    requires t in schema
    ensures AllReference(schema[t].relationships) ==> DirectRelations(schema, t) == DirectPerDescriptor(schema, t)
    ensures !AllReference(schema[t].relationships) ==> DirectRelations(schema, t) == {}
    ensures DirectRelations(schema, t) <= DirectPerDescriptor(schema, t)
  {
  }

  /** The two readings differ: table "a" references "b" through one descriptor,
      but a second descriptor without `referencedRelation` empties its direct
      relations under the source's reading. */
  lemma PartialDescriptorsDiffer()
    ensures var schema := map["a" := Table({}, [Descriptor(Some("b")), Descriptor(None)]), "b" := Table({}, [])];
      DirectRelations(schema, "a") == {} && DirectPerDescriptor(schema, "a") == {"b"}
  {
    var schema := map["a" := Table({}, [Descriptor(Some("b")), Descriptor(None)]), "b" := Table({}, [])];
    var rels := schema["a"].relationships;
    assert rels[0].referencedRelation == Some("b");
    assert rels[1].referencedRelation.None?;
  }
}
