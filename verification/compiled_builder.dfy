/**
  The compiled `buildQuery` of `dist/queryBuilder.js`, written the way the
  emitted JavaScript runs: a filter pass over the `select` entries, a map
  pass over the `include` entries with one recursive call each, and
  `Array.prototype.join`. It is proved to compute exactly the function of
  `src/queryBuilder.ts`.
*/
module CompiledBuilder {
  import opened Wrappers
  import opened Text
  import QueryBuilder

  /** `Object.entries(select).filter(([_, v]) => v === true).map(([k]) => k)` */
  method FilterTrueKeys(s: seq<(string, bool)>) returns (kept: seq<string>)
    ensures kept == QueryBuilder.TrueKeys(s)
  {
    kept := [];
    var i := 0;
    while i < |s|
      invariant 0 <= i <= |s|
      invariant kept == QueryBuilder.TrueKeys(s[..i])
    {
      QueryBuilder.TrueKeysAppend(s[..i], [s[i]]);
      assert s[..i + 1] == s[..i] + [s[i]];
      if s[i].1 {
        kept := kept + [s[i].0];
      }
      i := i + 1;
    }
    assert s[..i] == s;
  }

  /** `xs.join(sep)` */
  method JoinAll(sep: string, xs: seq<string>) returns (r: string)
    ensures r == Join(sep, xs)
  {
    if |xs| == 0 {
      return "";
    }
    r := xs[0];
    var i := 1;
    while i < |xs|
      invariant 1 <= i <= |xs|
      invariant r == Join(sep, xs[..i])
    {
      JoinAppend(sep, xs[..i], [xs[i]]);
      assert xs[..i + 1] == xs[..i] + [xs[i]];
      r := r + sep + xs[i];
      i := i + 1;
    }
    assert xs[..i] == xs;
  }

  /** The main clause: `"*"` without `select`, else the joined `true` keys. */
  method MainFields(select: Option<seq<(string, bool)>>) returns (m: string)
    ensures m == QueryBuilder.MainFields(select)
  {
    match select {
      case None => m := "*";
      case Some(s) =>
        var kept := FilterTrueKeys(s);
        m := JoinAll(",", kept);
    }
  }

  /** `buildQuery(table, config)` as compiled to JavaScript. */
  method BuildQuery(table: string, cfg: QueryBuilder.Config) returns (r: string)
    ensures r == QueryBuilder.BuildQuery(table, cfg)
    decreases cfg
  {
    var mainFields := MainFields(cfg.select);
    if !QueryBuilder.HasRelations(cfg) {
      return mainFields;
    }
    var es := cfg.includes.entries;
    var relations: seq<string> := [];
    var i := 0;
    while i < |es|
      invariant 0 <= i <= |es|
      invariant |relations| == i
      invariant forall j :: 0 <= j < i ==>
        relations[j] == es[j].name + "(" + QueryBuilder.BuildQuery(es[j].name, es[j].config) + ")"
    {
      var relationQuery := BuildQuery(es[i].name, es[i].config);
      relations := relations + [es[i].name + "(" + relationQuery + ")"];
      i := i + 1;
    }
    QueryBuilder.RelationsFollowMainFields(table, cfg);
    assert relations == QueryBuilder.RelationClauses(es);
    var joined := JoinAll(",", relations);
    r := mainFields + "," + joined;
  }
}
