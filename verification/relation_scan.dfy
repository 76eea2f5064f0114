/**
  The resolver of `src/relation-helper.ts`, the copy bound to the ambient
  `Database` type. The ambient schema becomes an explicit argument, and the
  three type-level computations become scans over that schema: one pass over
  a table's descriptors for its direct relations, one pass over all tables
  for its inverse relations. Each scan is proved to give exactly the sets of
  the generic resolver in `RelationHelper`.
*/
module RelationScan {
  import opened Wrappers
  import opened RelationHelper

  /** One pass over a descriptor list: whether every descriptor carries
      `referencedRelation`, and the names the union-level test binds. */
  method ScanDescriptors(rels: seq<Descriptor>) returns (complete: bool, targets: set<string>)
    ensures complete == AllReference(rels)
    ensures targets == Inferred(rels)
  {
    complete := true;
    var seen: set<string> := {};
    var i := 0;
    while i < |rels|
      invariant 0 <= i <= |rels|
      invariant complete == AllReference(rels[..i])
      invariant forall k :: k in seen <==> References(rels[..i], k)
    {
      match rels[i].referencedRelation {
        case None => complete := false;
        case Some(name) => seen := seen + {name};
      }
      assert rels[..i + 1] == rels[..i] + [rels[i]];
      i := i + 1;
    }
    assert rels[..i] == rels;
    targets := if |rels| == 0 || !complete then {} else seen;
  }

  /** `DirectRelations<T>`: the referenced names that are table names. */
  method DirectRelationsScan(schema: Schema, t: string) returns (r: set<string>)
    requires t in schema
    ensures r == DirectRelations(schema, t)
  {
    var _, targets := ScanDescriptors(schema[t].relationships);
    r := set k | k in targets && k in schema;
  }

  /** `InverseRelations<T>`: every table whose descriptors reference `t`. */
  method InverseRelationsScan(schema: Schema, t: string) returns (r: set<string>)
    requires t in schema
    ensures r == InverseRelations(schema, t)
  {
    r := {};
    var remaining := schema.Keys;
    while remaining != {}
      invariant remaining <= schema.Keys
      invariant forall k :: k in r <==> k in schema && k !in remaining && t in Inferred(schema[k].relationships)
      decreases remaining
    {
      var k :| k in remaining;
      var _, targets := ScanDescriptors(schema[k].relationships);
      if t in targets {
        r := r + {k};
      }
      remaining := remaining - {k};
    }
  }

  /** `AvailableRelations<T>`: direct and inverse relations together. */
  method AvailableRelationsScan(schema: Schema, t: string) returns (r: set<string>)
    requires t in schema
    ensures r == AvailableRelations(schema, t)
  {
    var direct := DirectRelationsScan(schema, t);
    var inverse := InverseRelationsScan(schema, t);
    r := direct + inverse;
  }
}
