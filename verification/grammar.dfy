/**
  The selection grammar the compiler targets:

    selection := item ("," item)*
    item      := name | name "(" selection ")"

  `Item` is the abstract syntax of one comma-separated item, `Render` prints
  a list of items, `Parse` reads one back. The round trip `Parse(Render(t))`
  gives `t` back for every well-formed tree, so a rendered string determines
  the tree it came from.
*/
module Grammar {
  import opened Wrappers
  import opened Text

  datatype Item = Field(name: string) | Relation(name: string, sub: seq<Item>)

  /** The characters the grammar reserves; names never contain them. */
  predicate IsDelimiter(c: char)
  {
    c == ',' || c == '(' || c == ')'
  }

  predicate PlainName(n: string)
  {
    forall i :: 0 <= i < |n| ==> !IsDelimiter(n[i])
  }

  // ---------------------------------------------------------------------------
  // Printing
  // ---------------------------------------------------------------------------

  function RenderItem(it: Item): string
    decreases it, 2
  {
    match it
    case Field(n) => n
    case Relation(n, sub) => n + "(" + Render(sub) + ")"
  }

  function Render(items: seq<Item>): string
    decreases items, 1
  {
    Join(",", RenderEach(items))
  }

  /** The printed form of every item, in order. */
  function RenderEach(items: seq<Item>): (r: seq<string>)
    ensures |r| == |items|
    ensures forall i :: 0 <= i < |items| ==> r[i] == RenderItem(items[i])
    decreases items, 0
  {
    if |items| == 0 then [] else [RenderItem(items[0])] + RenderEach(items[1..])
  }

  lemma RenderEachAppend(a: seq<Item>, b: seq<Item>)
    ensures RenderEach(a + b) == RenderEach(a) + RenderEach(b)
  {
  }

  /** Rendering a concatenation of two non-empty lists joins their renderings with ",". */
  lemma RenderAppend(a: seq<Item>, b: seq<Item>)
    requires |a| > 0 && |b| > 0
    ensures Render(a + b) == Render(a) + "," + Render(b)
  {
    RenderEachAppend(a, b);
    JoinAppend(",", RenderEach(a), RenderEach(b));
  }

  /** A tree the grammar can express unambiguously: plain names and no
      empty relation body (`R()` reads back as `R` holding one empty field). */
  predicate WellFormedItem(it: Item)
    decreases it, 1
  {
    match it
    case Field(n) => PlainName(n)
    case Relation(n, sub) => PlainName(n) && WellFormed(sub)
  }

  predicate WellFormed(items: seq<Item>)
    decreases items, 0
  {
    |items| > 0 && forall i :: 0 <= i < |items| ==> WellFormedItem(items[i])
  }

  // ---------------------------------------------------------------------------
  // Parsing
  // ---------------------------------------------------------------------------

  /** Length of the longest delimiter-free prefix of `s`. */
  function ScanName(s: string): (k: nat)
    ensures k <= |s|
    ensures PlainName(s[..k])
    ensures k < |s| ==> IsDelimiter(s[k])
  {
    if |s| == 0 || IsDelimiter(s[0]) then 0
    else
      var k := 1 + ScanName(s[1..]);
      assert s[..k] == [s[0]] + s[1..][..k - 1];
      k
  }

  /** Reads one item from the front of `s`, returning it and the unread rest. */
  function ParseItem(s: string): (r: Option<(Item, string)>)
    ensures r.Some? ==> |r.value.1| <= |s|
    decreases |s|, 0
  {
    var k := ScanName(s);
    var rest := s[k..];
    if |rest| > 0 && rest[0] == '(' then
      match ParseItems(rest[1..])
      case None => None
      case Some((sub, after)) =>
        if |after| > 0 && after[0] == ')' then Some((Relation(s[..k], sub), after[1..]))
        else None
    else Some((Field(s[..k]), rest))
  }

  /** Reads a comma-separated list of items from the front of `s`. */
  function ParseItems(s: string): (r: Option<(seq<Item>, string)>)
    ensures r.Some? ==> |r.value.1| <= |s|
    decreases |s|, 1
  {
    match ParseItem(s)
    case None => None
    case Some((it, rest)) =>
      if |rest| > 0 && rest[0] == ',' then
        match ParseItems(rest[1..])
        case None => None
        case Some((more, after)) => Some(([it] + more, after))
      else Some(([it], rest))
  }

  /** Reads a whole selection expression; `None` when it is malformed or has trailing text. */
  function Parse(s: string): Option<seq<Item>>
  {
    match ParseItems(s)
    case None => None
    case Some((items, rest)) => if rest == "" then Some(items) else None
  }

  // ---------------------------------------------------------------------------
  // Round trip
  // ---------------------------------------------------------------------------

  lemma ScanPlainName(n: string, rest: string)
    requires PlainName(n)
    requires rest == [] || IsDelimiter(rest[0])
    ensures ScanName(n + rest) == |n|
    decreases |n|
  {
    if |n| > 0 {
      assert (n + rest)[1..] == n[1..] + rest;
      ScanPlainName(n[1..], rest);
    }
  }

  lemma {:induction false} ParseRenderItem(it: Item, rest: string)
    requires WellFormedItem(it)
    requires rest == [] || rest[0] == ',' || rest[0] == ')'
    ensures ParseItem(RenderItem(it) + rest) == Some((it, rest))
    decreases it, 2
  {
    match it
    case Field(n) =>
      var s := RenderItem(it) + rest;
      ScanPlainName(n, rest);
      assert s[..|n|] == n && s[|n|..] == rest;
    case Relation(n, sub) =>
      ParseRenderRelation(n, sub, rest);
  }

  /** A relation item reads back: its name, then its body up to the matching `)`. */
  lemma {:induction false} ParseRenderRelation(n: string, sub: seq<Item>, rest: string)
    requires WellFormedItem(Relation(n, sub))
    requires rest == [] || rest[0] == ',' || rest[0] == ')'
    ensures ParseItem(RenderItem(Relation(n, sub)) + rest) == Some((Relation(n, sub), rest))
    decreases Relation(n, sub), 1
  {
    var body := Render(sub);
    var s := RenderItem(Relation(n, sub)) + rest;
    RelationRegroup(n, body, rest);
    ScanPlainName(n, "(" + body + (")" + rest));
    ParseRenderItems(sub, ")" + rest);
    ParseItemOpen(s, |n|, sub, ")" + rest);
  }

  /** Where the pieces of a printed relation item sit in the text. */
  lemma RelationRegroup(n: string, body: string, rest: string)
    ensures var s := n + "(" + body + ")" + rest;
      && s == n + ("(" + body + (")" + rest))
      && s[..|n|] == n
      && s[|n|] == '('
      && s[|n| + 1..] == body + (")" + rest)
      && (")" + rest)[1..] == rest
  {
    var s := n + "(" + body + ")" + rest;
    assert s == n + ("(" + body + (")" + rest));
    assert s[|n| + 1..] == body + (")" + rest);
  }

  /** One step of `ParseItem` on a relation: a name, `(`, a list, `)`. */
  lemma ParseItemOpen(s: string, k: nat, sub: seq<Item>, after: string)
    requires k == ScanName(s) && k < |s| && s[k] == '('
    requires ParseItems(s[k + 1..]) == Some((sub, after))
    requires |after| > 0 && after[0] == ')'
    ensures ParseItem(s) == Some((Relation(s[..k], sub), after[1..]))
  {
    assert s[k..][1..] == s[k + 1..];
  }

  lemma {:induction false} ParseRenderItems(items: seq<Item>, rest: string)
    requires WellFormed(items)
    requires rest == [] || rest[0] == ')'
    ensures ParseItems(Render(items) + rest) == Some((items, rest))
    decreases items, 1
  {
    if |items| == 1 {
      assert Render(items) == RenderItem(items[0]);
      ParseRenderItem(items[0], rest);
      assert [items[0]] == items;
    } else {
      assert items == [items[0]] + items[1..];
      ParseRenderCons(items[0], items[1..], rest);
    }
  }

  /** A list of two or more items prints as its head, a comma and the rest. */
  lemma RenderCons(head: Item, tail: seq<Item>, rest: string)
    requires |tail| > 0
    ensures Render([head] + tail) + rest == RenderItem(head) + ("," + Render(tail) + rest)
    ensures ("," + Render(tail) + rest)[1..] == Render(tail) + rest
  {
    RenderAppend([head], tail);
    assert Render([head]) == RenderItem(head);
    CommaRegroup(RenderItem(head), Render(tail), rest);
  }

  lemma CommaRegroup(a: string, b: string, rest: string)
    ensures a + "," + b + rest == a + ("," + b + rest)
    ensures ("," + b + rest)[1..] == b + rest
  {
  }

  /** A list of two or more items reads back: its head, a comma, then the rest. */
  lemma {:induction false} ParseRenderCons(head: Item, tail: seq<Item>, rest: string)
    requires WellFormedItem(head) && WellFormed(tail)
    requires rest == [] || rest[0] == ')'
    ensures ParseItems(Render([head] + tail) + rest) == Some(([head] + tail, rest))
    decreases [head] + tail, 0
  {
    var more := "," + Render(tail) + rest;
    RenderCons(head, tail, rest);
    ParseRenderItem(head, more);
    ParseRenderItems(tail, rest);
    ParseItemsStep(Render([head] + tail) + rest, head, more, tail, rest);
  }

  /** One step of `ParseItems`: an item, a comma, and the list after it. */
  lemma ParseItemsStep(s: string, it: Item, more: string, tail: seq<Item>, rest: string)
    requires ParseItem(s) == Some((it, more))
    requires |more| > 0 && more[0] == ','
    requires ParseItems(more[1..]) == Some((tail, rest))
    ensures ParseItems(s) == Some(([it] + tail, rest))
  {
  }

  /** Parsing undoes printing on every well-formed tree. */
  lemma ParseRender(items: seq<Item>)
    requires WellFormed(items)
    ensures Parse(Render(items)) == Some(items)
  {
    ParseRenderItems(items, "");
    assert Render(items) + "" == Render(items);
  }

  /** Printing is injective on well-formed trees. */
  lemma RenderInjective(a: seq<Item>, b: seq<Item>)
    requires WellFormed(a) && WellFormed(b)
    requires Render(a) == Render(b)
    ensures a == b
  {
    ParseRender(a);
    ParseRender(b);
  }

  // ---------------------------------------------------------------------------
  // Balanced parentheses
  // ---------------------------------------------------------------------------

  function Depth(c: char): int
  {
    if c == '(' then 1 else if c == ')' then -1 else 0
  }

  /** Opening minus closing parentheses in `s`. */
  function Net(s: string): int
    decreases |s|
  {
    if |s| == 0 then 0 else Net(s[..|s| - 1]) + Depth(s[|s| - 1])
  }

  predicate Balanced(s: string)
  {
    Net(s) == 0 && forall k :: 0 <= k <= |s| ==> Net(s[..k]) >= 0
  }

  predicate ParenFree(n: string)
  {
    forall i :: 0 <= i < |n| ==> n[i] != '(' && n[i] != ')'
  }

  predicate ParenFreeItem(it: Item)
    decreases it, 1
  {
    match it
    case Field(n) => ParenFree(n)
    case Relation(n, sub) => ParenFree(n) && ParenFreeNames(sub)
  }

  predicate ParenFreeNames(items: seq<Item>)
    decreases items, 0
  {
    forall i :: 0 <= i < |items| ==> ParenFreeItem(items[i])
  }

  lemma {:induction false} NetAppend(a: string, b: string)
    ensures Net(a + b) == Net(a) + Net(b)
    decreases |b|
  {
    if |b| > 0 {
      var b' := b[..|b| - 1];
      assert (a + b)[..|a + b| - 1] == a + b';
      NetAppend(a, b');
    } else {
      assert a + b == a;
    }
  }

  lemma {:induction false} NetParenFree(s: string)
    requires ParenFree(s)
    ensures Net(s) == 0
    decreases |s|
  {
    if |s| > 0 {
      NetParenFree(s[..|s| - 1]);
    }
  }

  lemma BalancedParenFree(s: string)
    requires ParenFree(s)
    ensures Balanced(s)
  {
    NetParenFree(s);
    forall k | 0 <= k <= |s|
      ensures Net(s[..k]) >= 0
    {
      NetParenFree(s[..k]);
    }
  }

  lemma BalancedConcat(a: string, b: string)
    requires Balanced(a) && Balanced(b)
    ensures Balanced(a + b)
  {
    NetAppend(a, b);
    forall k | 0 <= k <= |a + b|
      ensures Net((a + b)[..k]) >= 0
    {
      if k <= |a| {
        assert (a + b)[..k] == a[..k];
      } else {
        assert (a + b)[..k] == a + b[..k - |a|];
        NetAppend(a, b[..k - |a|]);
      }
    }
  }

  lemma BalancedWrap(a: string)
    requires Balanced(a)
    ensures Balanced("(" + a + ")")
  {
    var s := "(" + a + ")";
    NetAppend("(", a);
    NetAppend("(" + a, ")");
    forall k | 0 <= k <= |s|
      ensures Net(s[..k]) >= 0
    {
      if k == 0 {
      } else if k <= |a| + 1 {
        assert s[..k] == "(" + a[..k - 1];
        NetAppend("(", a[..k - 1]);
      } else {
        assert s[..k] == s;
      }
    }
  }

  lemma {:induction false} BalancedJoin(xs: seq<string>)
    requires forall i :: 0 <= i < |xs| ==> Balanced(xs[i])
    ensures Balanced(Join(",", xs))
    decreases |xs|
  {
    if |xs| == 0 {
      assert Net("") == 0;
    } else if |xs| > 1 {
      BalancedJoin(xs[1..]);
      BalancedParenFree(",");
      BalancedConcat(xs[0], ",");
      BalancedConcat(xs[0] + ",", Join(",", xs[1..]));
    }
  }

  lemma {:induction false} RenderItemBalanced(it: Item)
    requires ParenFreeItem(it)
    ensures Balanced(RenderItem(it))
    decreases it, 1
  {
    match it
    case Field(n) =>
      BalancedParenFree(n);
    case Relation(n, sub) =>
      RenderBalanced(sub);
      BalancedParenFree(n);
      BalancedWrap(Render(sub));
      BalancedConcat(n, "(" + Render(sub) + ")");
      assert RenderItem(it) == n + ("(" + Render(sub) + ")");
  }

  /** Every rendering of a tree whose names avoid parentheses is balanced. */
  lemma {:induction false} RenderBalanced(items: seq<Item>)
    requires ParenFreeNames(items)
    ensures Balanced(Render(items))
    decreases items, 0
  {
    var each := RenderEach(items);
    forall i | 0 <= i < |each|
      ensures Balanced(each[i])
    {
      RenderItemBalanced(items[i]);
    }
    BalancedJoin(each);
  }
}
