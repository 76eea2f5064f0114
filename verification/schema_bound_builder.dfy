/**
  The schema-bound copy of the compiler in `src/query-builder.ts`. Its
  `IncludeRelations<T>` is the intersection of one mapped type over
  `DirectRelations<T>` and one over `InverseRelations<T>`, each with optional
  keys, so an `include` key may come from either set. Its `buildQuery` is the
  same algorithm as the generic copy; the model writes its `include`
  recursion out again and proves the two agree. As in the generic copy, the
  typing is a separate predicate that the compiler does not consult.
*/
module SchemaBoundBuilder {
  import opened Wrappers
  import opened Text
  import opened Grammar
  import opened RelationHelper
  import QueryBuilder

  /** `cfg` type-checks as this file's `QueryConfig<t>`. */
  predicate ValidConfigBound(schema: Schema, t: string, cfg: QueryBuilder.Config): (r: bool)
    ensures r ==> t in schema
    ensures r && cfg.includes.Present? ==> forall i :: 0 <= i < |cfg.includes.entries| ==>
      var k := cfg.includes.entries[i].name;
      k in schema && (k in DirectRelations(schema, t) || t in DirectRelations(schema, k))
    decreases cfg
  {
    && t in schema
    && (cfg.select.Some? ==>
          && QueryBuilder.DistinctNames(QueryBuilder.SelectKeys(cfg.select.value))
          && forall i :: 0 <= i < |cfg.select.value| ==> cfg.select.value[i].0 in schema[t].row)
    && (cfg.includes.Present? ==>
          && QueryBuilder.DistinctNames(QueryBuilder.EntryNames(cfg.includes.entries))
          && forall i :: 0 <= i < |cfg.includes.entries| ==>
               && (cfg.includes.entries[i].name in DirectRelations(schema, t)
                   || cfg.includes.entries[i].name in InverseRelations(schema, t))
               && ValidConfigBound(schema, cfg.includes.entries[i].name, cfg.includes.entries[i].config))
  }

  /** The intersection of the two mapped types accepts exactly the keys of
      `AvailableRelations`, so both typings accept the same configurations. */
  lemma {:induction false} ValidConfigBoundIffValid(schema: Schema, t: string, cfg: QueryBuilder.Config)
    ensures ValidConfigBound(schema, t, cfg) <==> QueryBuilder.ValidConfig(schema, t, cfg)
    decreases cfg
  {
    if cfg.includes.Present? {
      var es := cfg.includes.entries;
      forall i | 0 <= i < |es|
        ensures ValidConfigBound(schema, es[i].name, es[i].config) <==> QueryBuilder.ValidConfig(schema, es[i].name, es[i].config)
      {
        ValidConfigBoundIffValid(schema, es[i].name, es[i].config);
      }
    }
  }

  /** `buildQuery<T>(table, config)` of this file. It agrees with the generic
      copy on every configuration, well-typed or not: its recursive calls
      cast the nested configuration, and nothing is checked at run time. The
      main clause reuses `QueryBuilder.MainFields`, because the `select`
      branch of this file is token for token the one of `src/queryBuilder.ts`;
      only the `include` recursion is written out again. */
  function BuildQuery(table: string, cfg: QueryBuilder.Config): (r: string)
    ensures r == QueryBuilder.BuildQuery(table, cfg)
    decreases cfg, 1
  {
    var main := QueryBuilder.MainFields(cfg.select);
    if !QueryBuilder.HasRelations(cfg) then main
    else main + "," + Join(",", RelationClauses(cfg.includes.entries))
  }

  function RelationClauses(es: seq<QueryBuilder.Entry>): (r: seq<string>)
    ensures r == QueryBuilder.RelationClauses(es)
    decreases es, 0
  {
    if |es| == 0 then []
    else [es[0].name + "(" + BuildQuery(es[0].name, es[0].config) + ")"] + RelationClauses(es[1..])
  }

  /** Every relation named in the output, at every depth, is available under
      the table it is nested in, and with plain names the output reads back
      as the configuration's selection tree. */
  lemma OutputFollowsSchema(schema: Schema, table: string, cfg: QueryBuilder.Config)
    requires ValidConfigBound(schema, table, cfg)
    requires QueryBuilder.ConfigNames(cfg, PlainName)
    ensures Parse(BuildQuery(table, cfg)) == Some(QueryBuilder.ToItems(cfg))
    ensures QueryBuilder.FollowsSchema(schema, table, QueryBuilder.ToItems(cfg))
  {
    ValidConfigBoundIffValid(schema, table, cfg);
    QueryBuilder.ValidConfigFollowsSchema(schema, table, cfg);
    QueryBuilder.ParseBuildQuery(table, cfg);
  }
}
