# Supabase typed query builder — Dafny model

This project models the two pure components of the Supabase typed query builder.

1. **The selection compiler `buildQuery`.** It flattens a nested query configuration into the
   selection string that the Supabase/PostgREST client accepts. Example: `id,email,Org(name)`.
   A configuration has an optional `select` map from field name to boolean. It also has an
   optional `include` map from relation name to a nested configuration.
2. **The relation resolver.** These are `DirectRelations`, `InverseRelations` and
   `AvailableRelations`. They derive, from a database schema, which relation names a
   configuration may `include` under a given table.

The repository ships each component in several near-identical copies. Each copy has its own
module here:

| module | file | what it holds |
|---|---|---|
| `QueryBuilder` | `query_builder.dfy` | the configuration tree, `buildQuery` of `src/queryBuilder.ts`, and the typing `ValidConfig` of `QueryConfig<DB, T>` |
| `SchemaBoundBuilder` | `schema_bound_builder.dfy` | the copy in `src/query-builder.ts`, with its `IncludeRelations` built as an intersection of two mapped types |
| `CompiledBuilder` | `compiled_builder.dfy` | the emitted JavaScript in `dist/queryBuilder.js`, written with loops |
| `RelationHelper` | `relation_helper.dfy` | the schema and the three resolvers of `src/relationHelper.ts` |
| `RelationScan` | `relation_scan.dfy` | the resolvers of `src/relation-helper.ts`, written as scans over the schema |
| `Grammar` | `grammar.dfy` | the item tree the output denotes, a printer, a parser and balanced parentheses |
| `Text`, `Wrappers` | `text.dfy`, `wrappers.dfy` | `Array.prototype.join` and `Option` |

**Configuration.** A configuration is `Config(select, includes)`:

- `select` is `Option<seq<(string, bool)>>`.
- `includes` is `Absent` or `Present(entries)`. Each entry is an `Entry(name, config)`.
- Sequences of pairs replace JavaScript objects, because the output follows `Object.entries` order.
- `includes` has its own two-case datatype instead of an `Option`. This lets Dafny see that
  recursion descends into the nested configurations.

**The compiler's partner.** `ToItems(cfg)` is the tree of selected items:

- first the fields: `*`, the keys flagged `true`, or one empty field;
- then one `Relation(name, subtree)` per `include` entry.

`Grammar.Render` prints such a tree in the grammar `item ("," item)*`, where an item is
`name` or `name(selection)`. `Grammar.Parse` reads a tree back. The proved chain is:

- `BuildQuery(t, cfg) == Render(ToItems(cfg))`.
- `Parse(Render(items)) == items` for well-formed trees: plain names and no empty relation body.
- So the output determines the selected tree, and its parentheses balance.

**The schema.** A schema is a `map<string, Table>`. A table has the names of its row fields and a
sequence of descriptors. Each descriptor has an optional `referencedRelation`.

**Resolver semantics.** The resolver follows the TypeScript conditional types as written. The
conditional tests the union `Relationships[number]` of all of a table's descriptors, not each
descriptor on its own. So a table's foreign keys count all-or-nothing:

- an empty list gives `never`;
- a list in which any descriptor lacks `referencedRelation` also gives `never`.

A per-descriptor reading would drop malformed descriptors one by one; the code does not, and the
model follows the code. `DirectPerDescriptor` is that one-by-one reading. `DirectAllOrNothing` proves the
two readings agree when every descriptor carries `referencedRelation`. `PartialDescriptorsDiffer`
shows a schema on which they differ.

**The empty-`select` quirk.** One might expect an empty `select` to select everything. The code
instead prints an empty main clause when `select` is present but flags
nothing. With includes, the output then starts with `,`. The model reproduces the code
(`EmptySelectQuirk`).

**Compile-time typing.** The predicate `QueryBuilder.ValidConfig` is the constraint that
`QueryConfig<DB, T>` is meant to put on a configuration written as an object literal. It is
stricter than what the TypeScript compiler enforces in two corner cases, listed under "Left out".
It requires:

- the table is a table of the schema;
- `select` keys are row fields, and distinct;
- `include` keys are distinct;
- every `include` key, at every depth, is in `AvailableRelations` of the table it is nested under.

The compiler itself checks nothing at run time, as in the source.

## Model

| member | source | states |
|---|---|---|
| `QueryBuilder.TrueKeys` | src/queryBuilder.ts:108-111 | a key is kept exactly when some entry pairs it with `true`, so with distinct keys `false` keys never appear; never more keys than entries |
| `QueryBuilder.TrueKeysAppend` | src/queryBuilder.ts:109-111 | filtering distributes over concatenation, so kept keys stay in entry order |
| `QueryBuilder.MainFields` | src/queryBuilder.ts:108-113 | the main clause prints the field items; it is `*` when `select` is absent and `""` when `select` flags nothing |
| `QueryBuilder.BuildQuery` | src/queryBuilder.ts:98-131 | the output prints the selection tree: field items, then one `name(sub)` per include entry, in entry order; the table is not used |
| `QueryBuilder.RelationClauses` | src/queryBuilder.ts:121-129 | the clause list prints the relation items, one `name(sub)` per entry, in order |
| `QueryBuilder.EmptyConfigIsWildcard` | src/queryBuilder.ts:108-118 | no `select` and no include entry gives exactly `*` |
| `QueryBuilder.NoRelationsIsMainFields` | src/queryBuilder.ts:116-118 | an absent or empty `include` returns the main clause unchanged |
| `QueryBuilder.RelationsFollowMainFields` | src/queryBuilder.ts:121-131 | with include entries the output is main clause, `,`, then the comma-joined `name(buildQuery(name, sub))` clauses in entry order |
| `QueryBuilder.EmptySelectQuirk` | src/queryBuilder.ts:108-118 | a `select` with no `true` flag gives `""`, not `*`; with include entries the output starts with `,` |
| `QueryBuilder.SingleRelation` | src/queryBuilder.ts:121-131 | one include entry prints as main clause, `,` and `name(sub)` |
| `QueryBuilder.DocExample` | src/queryBuilder.ts:16-26 | the documented `User` example compiles to `id,email,UserOrganization(role,Organization(name))` |
| `QueryBuilder.BuildQueryIgnoresTable` | src/queryBuilder.ts:98-104 | the output does not depend on the `table` argument |
| `QueryBuilder.ParseBuildQuery` | src/queryBuilder.ts:121-131 | with plain names the output parses back to the configuration's selection tree |
| `QueryBuilder.BuildQueryInjective` | src/queryBuilder.ts:98-131 | two configurations with plain names give the same string only if they select the same tree |
| `QueryBuilder.BalancedOutput` | src/queryBuilder.ts:127 | parentheses in the output balance when no name contains one |
| `QueryBuilder.ToItemsWellFormed` | src/queryBuilder.ts:108-131 | plain names give a tree with no empty relation body, which the grammar reads unambiguously |
| `QueryBuilder.ValidConfig` | src/queryBuilder.ts:75-93 | a configuration that meets the intended `QueryConfig<DB, T>` constraint sits on a table of the schema, and each of its `include` keys is a table linked to that table by a foreign key in one direction or the other |
| `QueryBuilder.ValidConfigFollowsSchema` | src/queryBuilder.ts:75-93 | in a configuration satisfying `ValidConfig`, every nested relation at every depth is available under its parent table |
| `Grammar.ParseRender` | src/queryBuilder.ts:127-131 | the `,` and `name(...)` syntax the compiler prints reads back to the printed tree |
| `Grammar.RenderBalanced` | src/queryBuilder.ts:127 | printing a tree whose names avoid parentheses gives balanced parentheses |
| `Text.JoinAppend` | src/queryBuilder.ts:131 | joining two non-empty lists puts one separator between their joins |
| `SchemaBoundBuilder.ValidConfigBound` | src/query-builder.ts:18-28 | a configuration that meets the intended constraint of this file's `QueryConfig<T>` sits on a table of the schema, and each `include` key is a table that references it or that it references |
| `SchemaBoundBuilder.ValidConfigBoundIffValid` | src/query-builder.ts:18-28 | the intersection of the direct and inverse mapped types accepts exactly the configurations that the union `AvailableRelations` accepts |
| `SchemaBoundBuilder.BuildQuery` | src/query-builder.ts:60-89 | on every configuration, whether it satisfies `ValidConfigBound` or not, this copy returns the same string as the copy in src/queryBuilder.ts |
| `SchemaBoundBuilder.RelationClauses` | src/query-builder.ts:80-86 | this copy's relation clauses equal those of src/queryBuilder.ts |
| `SchemaBoundBuilder.OutputFollowsSchema` | src/query-builder.ts:60-89 | the output of a configuration satisfying `ValidConfigBound`, with plain names, reads back as its tree, and every relation in it is available under its parent |
| `CompiledBuilder.FilterTrueKeys` | dist/queryBuilder.js:37-39 | the filter-and-map pass keeps exactly the `true` keys, in order |
| `CompiledBuilder.JoinAll` | dist/queryBuilder.js:40 | the loop computes `Array.prototype.join` |
| `CompiledBuilder.MainFields` | dist/queryBuilder.js:36-41 | the emitted main-clause expression returns the main clause of src/queryBuilder.ts: `*` without `select`, the comma-joined `true` keys otherwise |
| `CompiledBuilder.BuildQuery` | dist/queryBuilder.js:33-52 | the compiled JavaScript returns the same string as src/queryBuilder.ts on every configuration |
| `RelationHelper.Inferred` | src/relationHelper.ts:13-17 | `infer R` binds the referenced names only when the list is non-empty and every descriptor has `referencedRelation` |
| `RelationHelper.DirectRelations` | src/relationHelper.ts:10-21 | K is a direct relation of T iff K is a table and T has a non-empty, complete descriptor list one of whose descriptors references K; so the set is empty for an empty or incomplete list |
| `RelationHelper.InverseRelations` | src/relationHelper.ts:26-39 | K is an inverse relation of T iff K has a non-empty, complete descriptor list and one descriptor references T |
| `RelationHelper.AvailableRelations` | src/relationHelper.ts:44-47 | available relations are exactly the union of direct and inverse relations, all of them table names |
| `RelationHelper.EmptyTableIsolated` | src/relationHelper.ts:13-14 | a table with no descriptors has no direct relations and is nobody's inverse relation |
| `RelationHelper.IncompleteTableIsolated` | src/relationHelper.ts:15-21 | one descriptor without `referencedRelation` removes the table's relations in both directions |
| `RelationHelper.InverseIsTranspose` | src/relationHelper.ts:26-39 | K is an inverse relation of T exactly when T is a direct relation of K |
| `RelationHelper.AvailableSymmetric` | src/relationHelper.ts:44-47 | K is available under T exactly when T is available under K |
| `RelationHelper.SelfReference` | src/relationHelper.ts:44-47 | a self-referencing table is its own direct, inverse and available relation |
| `RelationHelper.DirectAllOrNothing` | src/relationHelper.ts:13-21 | the union-level test agrees with a per-descriptor filter on complete lists, gives nothing otherwise, and never gives more |
| `RelationHelper.PartialDescriptorsDiffer` | src/relationHelper.ts:15-21 | on a concrete schema, an incomplete list loses a relation that the per-descriptor filter keeps |
| `RelationScan.ScanDescriptors` | src/relation-helper.ts:10-12 | one pass decides whether every descriptor has `referencedRelation` and collects the inferred names |
| `RelationScan.DirectRelationsScan` | src/relation-helper.ts:9-16 | the schema-bound direct relations equal those of src/relationHelper.ts |
| `RelationScan.InverseRelationsScan` | src/relation-helper.ts:21-30 | the schema-bound inverse relations equal those of src/relationHelper.ts |
| `RelationScan.AvailableRelationsScan` | src/relation-helper.ts:35-36 | the schema-bound available relations equal those of src/relationHelper.ts |

## Left out

- The Supabase client call `supabase.from(...).select(...)` is an external collaborator. Only the string handed to it is modelled.
- `Object.entries` lists integer-like keys first, in numeric order. The model takes insertion order, which matches for non-numeric names.
- An `include` entry whose value is `undefined` would make the JavaScript throw when it destructures `undefined`. Every modelled entry carries a configuration.
- `select` values other than booleans, such as an explicit `undefined`, are not modelled. The source drops them exactly like `false`.
- Descriptor fields other than `referencedRelation` (`foreignKeyName`, `columns`, `referencedColumns`) play no part in the resolver and are not modelled. Row field types are not modelled either; only field names are.
- A `referencedRelation` typed as plain `string` instead of a literal table name is not modelled. Every referenced name is treated as a literal.
- A `T` that is a union of several tables is not modelled; the model resolves one table at a time. For such a `T`, `DirectRelations` does not distribute: its checked type `Tables[T]["Relationships"][number]` is an indexed access, not a naked type parameter, so the descriptors of all the tables merge into one all-or-nothing test, and one incomplete descriptor in any of them empties the result for all. Only the `T extends R` test of `InverseRelations` distributes over `T`.
- `QueryBuilder.TrueKeys`, `QueryBuilder.MainFields` and the compilers are modelled on every sequence of pairs, including ones that repeat a key, which no `Object.entries` result does (in JavaScript `{a: true, a: false}` is `{a: false}`). On repeated keys the model can print a string that no source call produces; it agrees with the source when keys are distinct, which `ValidConfig` requires.
- The ambient `Database` in src/types/database.ts is a placeholder. The schema-bound copies take the schema as an explicit argument instead.
- The declaration file dist/queryBuilder.d.ts only repeats the signatures of src/queryBuilder.ts. It is not part of this model.
- `QueryBuilder.ValidConfig` is the intended constraint on object literals and is stricter than the TypeScript compiler in two cases. First, under a table whose `AvailableRelations` is `never`, `IncludeRelations` is a mapped type with no keys, i.e. `{}`, which the compiler does not check for extra keys: any `include` key type-checks there, and the configuration nested under it is not checked at all. Second, the compiler skips the extra-key check for objects that are not written as literals at the call site. The model rejects both; `ValidConfigFollowsSchema` is stated for the intended constraint.
- `SchemaBoundBuilder.ValidConfigBound` has the same two gaps: when both the direct and the inverse set of a table are `never`, the intersection of src/query-builder.ts:18-20 is `{} & {}` and accepts any `include` key, and non-literal objects escape the extra-key check. The model rejects both.
- The source does no escaping or quoting of names, so the model has none. The round-trip lemmas assume names free of `,`, `(` and `)`; the balance lemmas assume only names free of `(` and `)`.
