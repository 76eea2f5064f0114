/**
  The selection compiler `buildQuery` of `src/queryBuilder.ts`, with the
  compile-time shape `QueryConfig`/`IncludeRelations` it accepts.

  A configuration is a tree: an optional `select` list of field flags and an
  optional `include` list of nested configurations, one per relation. Entry
  order is `Object.entries` order. The compiler never fails; the typing that
  restricts `include` keys is the separate predicate `ValidConfig`.
*/
module QueryBuilder {
  import opened Wrappers
  import opened Text
  import opened Grammar
  import opened RelationHelper

  /** One `include` entry: a relation name and the configuration nested under it. */
  datatype Entry = Entry(name: string, config: Config)

  /** The `include` map, absent or present (possibly with no entries). */
  datatype Includes = Absent | Present(entries: seq<Entry>)

  /** `{ select?: { field: boolean }, include?: { relation: QueryConfig } }` */
  datatype Config = Config(select: Option<seq<(string, bool)>>, includes: Includes)

  /** `include` is present and has at least one entry. */
  predicate HasRelations(cfg: Config)
  {
    cfg.includes.Present? && |cfg.includes.entries| > 0
  }

  // ---------------------------------------------------------------------------
  // The selected-items tree the output denotes
  // ---------------------------------------------------------------------------

  /** The field items of one level: `*` when `select` is absent, the keys
      flagged `true` in entry order otherwise, and a single empty field when
      `select` is present but flags nothing (the source prints "" there). */
  function FieldItems(select: Option<seq<(string, bool)>>): (r: seq<Item>)
    ensures |r| > 0
  {
    match select
    case None => [Field("*")]
    case Some(s) =>
      var keys := TrueKeys(s);
      if |keys| == 0 then [Field("")] else seq(|keys|, i requires 0 <= i < |keys| => Field(keys[i]))
  }

  /** The selection tree of one configuration: its fields, then one
      relation item per `include` entry in entry order. */
  function ToItems(cfg: Config): (r: seq<Item>)
    ensures |r| > 0
    decreases cfg, 1
  {
    match cfg.includes
    case Absent => FieldItems(cfg.select)
    case Present(es) => FieldItems(cfg.select) + RelationItems(es)
  }

  function RelationItems(es: seq<Entry>): (r: seq<Item>)
    ensures |r| == |es|
    ensures forall i :: 0 <= i < |es| ==> r[i] == Relation(es[i].name, ToItems(es[i].config))
    decreases es, 0
  {
    if |es| == 0 then [] else [Relation(es[0].name, ToItems(es[0].config))] + RelationItems(es[1..])
  }

  // ---------------------------------------------------------------------------
  // The compiler
  // ---------------------------------------------------------------------------

  /** `Object.entries(select).filter(([_, v]) => v === true).map(([k]) => k)` */
  function TrueKeys(s: seq<(string, bool)>): (r: seq<string>)
    ensures |r| <= |s|
    ensures forall k :: k in r <==> (k, true) in s
  {
    if |s| == 0 then []
    else if s[0].1 then [s[0].0] + TrueKeys(s[1..])
    else TrueKeys(s[1..])
  }

  /** Filtering distributes over concatenation, so kept keys keep their entry order. */
  lemma {:induction false} TrueKeysAppend(a: seq<(string, bool)>, b: seq<(string, bool)>)
    ensures TrueKeys(a + b) == TrueKeys(a) + TrueKeys(b)
    decreases |a|
  {
    if |a| > 0 {
      assert (a + b)[1..] == a[1..] + b;
      TrueKeysAppend(a[1..], b);
    } else {
      assert a + b == b;
    }
  }

  /** The main fields clause, which is the rendering of the field items. */
  function MainFields(select: Option<seq<(string, bool)>>): (r: string)
    ensures r == Render(FieldItems(select))
    ensures select.None? ==> r == "*"
    ensures select.Some? && (forall i :: 0 <= i < |select.value| ==> !select.value[i].1) ==> r == ""
  {
    match select
    case None => "*"
    case Some(s) =>
      var keys := TrueKeys(s);
      if |keys| == 0 then
        assert forall i :: 0 <= i < |s| ==> s[i] in s;
        ""
      else
        var items := FieldItems(select);
        assert RenderEach(items) == keys;
        assert (keys[0], true) in s;
        Join(",", keys)
  }

  /** `buildQuery(table, config)`. The table argument is only threaded
      through the recursion; the result is the rendering of the config's
      selection tree, which mentions no table. */
  function BuildQuery(table: string, cfg: Config): (r: string)
    ensures r == Render(ToItems(cfg))
    decreases cfg, 1
  {
    var main := MainFields(cfg.select);
    if !HasRelations(cfg) then
      assert cfg.includes.Present? ==> RelationItems(cfg.includes.entries) == [];
      assert ToItems(cfg) == FieldItems(cfg.select);
      main
    else
      var es := cfg.includes.entries;
      var clauses := RelationClauses(es);
      RenderAppend(FieldItems(cfg.select), RelationItems(es));
      main + "," + Join(",", clauses)
  }

  /** `Object.entries(include).map(([name, sub]) => `${name}(${buildQuery(name, sub)})`)` */
  function RelationClauses(es: seq<Entry>): (r: seq<string>)
    ensures r == RenderEach(RelationItems(es))
    decreases es, 0
  {
    if |es| == 0 then []
    else
      var head := es[0].name + "(" + BuildQuery(es[0].name, es[0].config) + ")";
      assert RelationItems(es) == [RelationItems(es)[0]] + RelationItems(es[1..]);
      RenderEachAppend([RelationItems(es)[0]], RelationItems(es[1..]));
      [head] + RelationClauses(es[1..])
  }

  // ---------------------------------------------------------------------------
  // Properties of the output
  // ---------------------------------------------------------------------------

  /** With neither `select` nor any `include` entry the result is the wildcard. */
  lemma EmptyConfigIsWildcard(table: string, cfg: Config)
    requires cfg.select.None? && !HasRelations(cfg)
    ensures BuildQuery(table, cfg) == "*"
  {
  }

  /** Without `include` entries the result is the main fields clause alone. */
  lemma NoRelationsIsMainFields(table: string, cfg: Config)
    requires !HasRelations(cfg)
    ensures BuildQuery(table, cfg) == MainFields(cfg.select)
  {
  }

  /** With `include` entries the result is the main fields clause, a comma,
      and one `name(sub)` clause per entry, in entry order. */
  lemma RelationsFollowMainFields(table: string, cfg: Config)
    requires HasRelations(cfg)
    ensures var es := cfg.includes.entries;
      var clauses := RelationClauses(es);
      && |clauses| == |es|
      && (forall i :: 0 <= i < |es| ==>
            clauses[i] == es[i].name + "(" + BuildQuery(es[i].name, es[i].config) + ")")
      && BuildQuery(table, cfg) == MainFields(cfg.select) + "," + Join(",", clauses)
  {
    var es := cfg.includes.entries;
    forall i | 0 <= i < |es|
      ensures RelationClauses(es)[i] == es[i].name + "(" + BuildQuery(es[i].name, es[i].config) + ")"
    {
      assert RelationItems(es)[i] == Relation(es[i].name, ToItems(es[i].config));
    }
  }

  /** A present `select` that flags nothing gives an empty main clause, not
      `*`; with `include` entries the output then starts with a comma. */
  lemma EmptySelectQuirk(table: string, cfg: Config)
    requires cfg.select.Some?
    requires forall i :: 0 <= i < |cfg.select.value| ==> !cfg.select.value[i].1
    ensures !HasRelations(cfg) ==> BuildQuery(table, cfg) == ""
    ensures HasRelations(cfg) ==> |BuildQuery(table, cfg)| > 0 && BuildQuery(table, cfg)[0] == ','
  {
  }

  /** A level with a single `include` entry prints its main clause, a comma and one clause. */
  lemma SingleRelation(table: string, cfg: Config, entry: Entry)
    requires cfg.includes == Present([entry])
    ensures BuildQuery(table, cfg) == MainFields(cfg.select) + "," + entry.name + "(" + BuildQuery(entry.name, entry.config) + ")"
  {
    assert [entry][1..] == [];
  }

  // The usage example, built up one level at a time.

  lemma DocExampleOrganization(organization: Config)
    requires organization == Config(Some([("name", true)]), Absent)
    ensures BuildQuery("Organization", organization) == "name"
  {
    assert TrueKeys([("name", true)]) == ["name"];
  }

  lemma DocExampleRole(fields: seq<(string, bool)>)
    requires fields == [("role", true)]
    ensures MainFields(Some(fields)) == "role"
  {
    assert TrueKeys(fields) == ["role"];
  }

  /** The membership level's clause text, `role,Organization(name)`. */
  lemma MembershipClauseText(main: string, name: string, sub: string)
    requires main == "role" && name == "Organization" && sub == "name"
    ensures main + "," + name + "(" + sub + ")" == "role,Organization(name)"
  {
  }

  lemma DocExampleMembership(organization: Config, membership: Config)
    requires organization == Config(Some([("name", true)]), Absent)
    requires membership == Config(Some([("role", true)]), Present([Entry("Organization", organization)]))
    ensures BuildQuery("UserOrganization", membership) == "role,Organization(name)"
  {
    DocExampleOrganization(organization);
    DocExampleRole(membership.select.value);
    SingleRelation("UserOrganization", membership, Entry("Organization", organization));
    MembershipClauseText(MainFields(membership.select), "Organization", BuildQuery("Organization", organization));
  }

  lemma DocExampleUserKeys(fields: seq<(string, bool)>)
    requires fields == [("id", true), ("email", true)]
    ensures TrueKeys(fields) == ["id", "email"]
  {
    assert TrueKeys(fields[1..]) == ["email"];
  }

  lemma DocExampleUserFields(fields: seq<(string, bool)>)
    requires fields == [("id", true), ("email", true)]
    ensures MainFields(Some(fields)) == "id,email"
  {
    DocExampleUserKeys(fields);
    assert ["id", "email"][1..] == ["email"];
  }

  /** The user level's clause text, compared in two pieces that meet at the
      opening parenthesis. */
  lemma UserClauseText(main: string, name: string, sub: string)
    requires main == "id,email" && name == "UserOrganization" && sub == "role,Organization(name)"
    ensures main + "," + name + "(" + sub + ")" == "id,email,UserOrganization(role,Organization(name))"
  {
    var head := main + "," + name + "(";
    assert head == "id,email,UserOrganization(";
    assert sub + ")" == "role,Organization(name))";
    assert head + (sub + ")") == "id,email,UserOrganization(role,Organization(name))";
    assert head + sub + ")" == head + (sub + ")");
  }

  /** The usage example in the file's header comment: `User` selecting `id`
      and `email`, with its memberships' `role` and each membership's
      organization `name`. */
  lemma DocExample(organization: Config, membership: Config, user: Config)
    requires organization == Config(Some([("name", true)]), Absent)
    requires membership == Config(Some([("role", true)]), Present([Entry("Organization", organization)]))
    requires user == Config(Some([("id", true), ("email", true)]), Present([Entry("UserOrganization", membership)]))
    ensures BuildQuery("User", user) == "id,email,UserOrganization(role,Organization(name))"
  {
    DocExampleMembership(organization, membership);
    DocExampleUserFields(user.select.value);
    SingleRelation("User", user, Entry("UserOrganization", membership));
    UserClauseText(MainFields(user.select), "UserOrganization", BuildQuery("UserOrganization", membership));
  }

  /** The table argument never reaches the output. */
  lemma BuildQueryIgnoresTable(t1: string, t2: string, cfg: Config)
    ensures BuildQuery(t1, cfg) == BuildQuery(t2, cfg)
  {
  }

  // ---------------------------------------------------------------------------
  // Reading the output back
  // ---------------------------------------------------------------------------

  /** Every select key and include name, at every depth, satisfies `ok`. */
  predicate ConfigNames(cfg: Config, ok: string -> bool)
    decreases cfg
  {
    && (cfg.select.Some? ==> forall i :: 0 <= i < |cfg.select.value| ==> ok(cfg.select.value[i].0))
    && (cfg.includes.Present? ==>
          forall i :: 0 <= i < |cfg.includes.entries| ==>
            ok(cfg.includes.entries[i].name) && ConfigNames(cfg.includes.entries[i].config, ok))
  }

  lemma FieldItemsNames(select: Option<seq<(string, bool)>>, ok: string -> bool)
    requires ok("*") && ok("")
    requires select.Some? ==> forall i :: 0 <= i < |select.value| ==> ok(select.value[i].0)
    ensures forall i :: 0 <= i < |FieldItems(select)| ==> FieldItems(select)[i].Field? && ok(FieldItems(select)[i].name)
  {
    if select.Some? {
      var s := select.value;
      forall k | k in TrueKeys(s) ensures ok(k) {
        var i :| 0 <= i < |s| && s[i] == (k, true);
      }
    }
  }

  /** Configurations with plain names compile to well-formed trees. */
  lemma {:induction false} ToItemsWellFormed(cfg: Config)
    requires ConfigNames(cfg, PlainName)
    ensures WellFormed(ToItems(cfg))
    decreases cfg
  {
    var fields := FieldItems(cfg.select);
    FieldItemsNames(cfg.select, PlainName);
    if cfg.includes.Present? {
      var es := cfg.includes.entries;
      var rels := RelationItems(es);
      forall i | 0 <= i < |rels| ensures WellFormedItem(rels[i]) {
        ToItemsWellFormed(es[i].config);
      }
      assert ToItems(cfg) == fields + rels;
    }
  }

  /** Configurations whose names avoid parentheses compile to trees whose names avoid them. */
  lemma {:induction false} ToItemsParenFree(cfg: Config)
    requires ConfigNames(cfg, ParenFree)
    ensures ParenFreeNames(ToItems(cfg))
    decreases cfg
  {
    var fields := FieldItems(cfg.select);
    FieldItemsNames(cfg.select, ParenFree);
    if cfg.includes.Present? {
      var es := cfg.includes.entries;
      var rels := RelationItems(es);
      forall i | 0 <= i < |rels| ensures ParenFreeItem(rels[i]) {
        ToItemsParenFree(es[i].config);
      }
      assert ToItems(cfg) == fields + rels;
    }
  }

  /** The output parses back to the configuration's selection tree. */
  lemma ParseBuildQuery(table: string, cfg: Config)
    requires ConfigNames(cfg, PlainName)
    ensures Parse(BuildQuery(table, cfg)) == Some(ToItems(cfg))
  {
    ToItemsWellFormed(cfg);
    ParseRender(ToItems(cfg));
  }

  /** Two configurations with plain names compile to the same string only
      when they select the same tree. */
  lemma BuildQueryInjective(t1: string, c1: Config, t2: string, c2: Config)
    requires ConfigNames(c1, PlainName) && ConfigNames(c2, PlainName)
    requires BuildQuery(t1, c1) == BuildQuery(t2, c2)
    ensures ToItems(c1) == ToItems(c2)
  {
    ParseBuildQuery(t1, c1);
    ParseBuildQuery(t2, c2);
  }

  /** Parentheses in the output are balanced when no name contains one. */
  lemma BalancedOutput(table: string, cfg: Config)
    requires ConfigNames(cfg, ParenFree)
    ensures Balanced(BuildQuery(table, cfg))
  {
    ToItemsParenFree(cfg);
    RenderBalanced(ToItems(cfg));
  }

  // ---------------------------------------------------------------------------
  // The compile-time typing of `QueryConfig<DB, T>`
  // ---------------------------------------------------------------------------

  /** Object keys are distinct. */
  predicate DistinctNames(names: seq<string>)
  {
    forall i, j :: 0 <= i < j < |names| ==> names[i] != names[j]
  }

  function SelectKeys(s: seq<(string, bool)>): (r: seq<string>)
    ensures |r| == |s| && forall i :: 0 <= i < |s| ==> r[i] == s[i].0
  {
    seq(|s|, i requires 0 <= i < |s| => s[i].0)
  }

  function EntryNames(es: seq<Entry>): (r: seq<string>)
    ensures |r| == |es| && forall i :: 0 <= i < |es| ==> r[i] == es[i].name
  {
    seq(|es|, i requires 0 <= i < |es| => es[i].name)
  }

  /** `cfg` type-checks as `QueryConfig<DB, t>`: `t` is a table, `select` keys
      are fields of its row, and every `include` key, at every depth, is one
      of the current table's available relations with a config valid for it. */
  predicate ValidConfig(schema: Schema, t: string, cfg: Config): (r: bool)
    ensures r ==> t in schema
    ensures r && cfg.includes.Present? ==> forall i :: 0 <= i < |cfg.includes.entries| ==>
      var k := cfg.includes.entries[i].name;
      k in schema && (k in DirectRelations(schema, t) || t in DirectRelations(schema, k))
    decreases cfg
  {
    && t in schema
    && (cfg.select.Some? ==>
          && DistinctNames(SelectKeys(cfg.select.value))
          && forall i :: 0 <= i < |cfg.select.value| ==> cfg.select.value[i].0 in schema[t].row)
    && (cfg.includes.Present? ==>
          && DistinctNames(EntryNames(cfg.includes.entries))
          && forall i :: 0 <= i < |cfg.includes.entries| ==>
               && cfg.includes.entries[i].name in AvailableRelations(schema, t)
               && ValidConfig(schema, cfg.includes.entries[i].name, cfg.includes.entries[i].config))
  }

  /** Every relation in the tree, at every depth, is a table available under its parent. */
  predicate FollowsSchema(schema: Schema, t: string, items: seq<Item>)
    decreases items
  {
    t in schema
    && forall i :: 0 <= i < |items| && items[i].Relation? ==>
         && items[i].name in AvailableRelations(schema, t)
         && FollowsSchema(schema, items[i].name, items[i].sub)
  }

  /** A relation item of a level's tree comes from the `include` entry at
      position `j`, which follows the field items. */
  lemma RelationItemAt(cfg: Config, i: int) returns (j: int)
    requires 0 <= i < |ToItems(cfg)| && ToItems(cfg)[i].Relation?
    ensures cfg.includes.Present? && 0 <= j < |cfg.includes.entries|
    ensures ToItems(cfg)[i].name == cfg.includes.entries[j].name
    ensures ToItems(cfg)[i].sub == ToItems(cfg.includes.entries[j].config)
  {
    var fields := FieldItems(cfg.select);
    FieldItemsAreFields(cfg.select);
    j := i - |fields|;
    if cfg.includes.Present? {
      assert ToItems(cfg) == fields + RelationItems(cfg.includes.entries);
    }
  }

  lemma FieldItemsAreFields(select: Option<seq<(string, bool)>>)
    ensures forall i :: 0 <= i < |FieldItems(select)| ==> FieldItems(select)[i].Field?
  {
  }

  /** A valid configuration compiles to a tree whose every nested relation is
      legal under the table it is nested in. */
  lemma {:induction false} ValidConfigFollowsSchema(schema: Schema, t: string, cfg: Config)
    requires ValidConfig(schema, t, cfg)
    ensures FollowsSchema(schema, t, ToItems(cfg))
    decreases cfg
  {
    var items := ToItems(cfg);
    forall i | 0 <= i < |items| && items[i].Relation?
      ensures items[i].name in AvailableRelations(schema, t)
      ensures FollowsSchema(schema, items[i].name, items[i].sub)
    {
      var j := RelationItemAt(cfg, i);
      var e := cfg.includes.entries[j];
      ValidConfigFollowsSchema(schema, e.name, e.config);
    }
  }
}
