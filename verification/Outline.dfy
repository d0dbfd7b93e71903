/**
 Document symbols: the capped outline of internal/tools/get_outline.go and the
 name lookup of internal/tools/resolve.go, both one walk over the symbol forest,
 parents before children.
 */
module Outline {
  import opened Wrappers

  /** What the walks read of a symbol; `id` stands for the rest of it. */
  datatype Symbol = Symbol(name: string, line: int, character: int, id: nat)

  datatype Node = Node(symbol: Symbol, children: seq<Node>)

  datatype Entry = Entry(symbol: Symbol, depth: nat)

  /** The forest as a list, every symbol with its depth. */
  function Preorder(forest: seq<Node>, depth: nat): seq<Entry> {
    if forest == [] then []
    else [Entry(forest[0].symbol, depth)] + Preorder(forest[0].children, depth + 1) + Preorder(forest[1..], depth)
  }

  /** One unfolding of the definition. */
  lemma {:induction false} PreorderOf(forest: seq<Node>, depth: nat)
    ensures Preorder(forest, depth)
         == if forest == [] then []
            else
              [Entry(forest[0].symbol, depth)] + Preorder(forest[0].children, depth + 1) + Preorder(forest[1..], depth)
  {
  }

  lemma {:induction false} PreorderSplit(a: seq<Node>, b: seq<Node>, depth: nat)
    ensures Preorder(a + b, depth) == Preorder(a, depth) + Preorder(b, depth)
  {
    PreorderOf(a, depth);
    PreorderOf(a + b, depth);
    hide Preorder;
    if a == [] {
      assert a + b == b;
    } else {
      PreorderSplit(a[1..], b, depth);
      assert (a + b)[0] == a[0] && (a + b)[1..] == a[1..] + b;
    }
  }

  function Take<T>(s: seq<T>, n: nat): seq<T> {
    if |s| <= n then s else s[..n]
  }

  // ------------------------------------------------------------------ outline

  /** The captured struct of flattenSymbols, filled by its recursive closure. */
  class Flattener {
    const cap: nat
    var outline: seq<Entry>
    var originals: seq<Symbol>

    constructor (limit: nat)
      ensures cap == limit && outline == [] && originals == []
    {
      cap, outline, originals := limit, [], [];
    }

    /** Appends the forest below `depth` as far as the cap allows, and says whether
        something did not fit. */
    method Walk(forest: seq<Node>, depth: nat) returns (r: Scan<bool>)
      requires |outline| <= cap && originals == Symbols(outline)
      modifies this
      ensures originals == Symbols(outline)
      ensures r.Done? ==>
                var all := old(outline) + Preorder(forest, depth);
                outline == Take(all, cap) && (r.result <==> |all| > cap)
      decreases forest
    {
      ghost var start := outline;
      var i := 0;
      PreorderOf(forest[..0], depth);
      PreorderOf([], depth + 1);
      hide Preorder;
      assert forest[..0] == [] && start + [] == start;
      while i < |forest|
        invariant 0 <= i <= |forest| && |outline| <= cap && originals == Symbols(outline)
        invariant outline == start + Preorder(forest[..i], depth)
      {
        if * { return Cancelled; }
        var node := forest[i];
        WalkFrom(start, forest, i, depth);
        if |outline| == cap {
          return Done(true);
        }
        outline := outline + [Entry(node.symbol, depth)];
        originals := originals + [node.symbol];
        if |node.children| > 0 {
          var inner := Walk(node.children, depth + 1);
          if inner.Cancelled? { return Cancelled; }
          if inner.result {
            return Done(true);
          }
        } else {
          assert outline + [] == outline;
        }
        i := i + 1;
      }
      assert forest[..i] == forest;
      return Done(false);
    }
  }

  function Symbols(entries: seq<Entry>): (r: seq<Symbol>)
    ensures |r| == |entries| && forall i :: 0 <= i < |r| ==> r[i] == entries[i].symbol
  {
    seq(|entries|, i requires 0 <= i < |entries| => entries[i].symbol)
  }

  /** Node number `i` and what is below it come next in the list. */
  lemma WalkStep(forest: seq<Node>, i: nat, depth: nat)
    requires i < |forest|
    ensures var node := forest[i];
            var next := [Entry(node.symbol, depth)] + Preorder(node.children, depth + 1);
            && Preorder(forest[..i + 1], depth) == Preorder(forest[..i], depth) + next
            && Preorder(forest, depth) == Preorder(forest[..i], depth) + next + Preorder(forest[i + 1..], depth)
  {
    var node := forest[i];
    PreorderSplit(forest[..i], [node], depth);
    assert forest[..i + 1] == forest[..i] + [node];
    assert [node][1..] == [];
    assert Preorder([node], depth) == [Entry(node.symbol, depth)] + Preorder(node.children, depth + 1);
    PreorderSplit(forest[..i + 1], forest[i + 1..], depth);
    assert forest == forest[..i + 1] + forest[i + 1..];
  }

  /** The same behind what the walk started with. */
  lemma WalkFrom(start: seq<Entry>, forest: seq<Node>, i: nat, depth: nat)
    requires i < |forest|
    ensures var upTo := start + Preorder(forest[..i], depth);
            var next := upTo + [Entry(forest[i].symbol, depth)] + Preorder(forest[i].children, depth + 1);
            && start + Preorder(forest[..i + 1], depth) == next
            && upTo <= start + Preorder(forest, depth) && |upTo| < |start + Preorder(forest, depth)|
            && next <= start + Preorder(forest, depth)
  {
    WalkStep(forest, i, depth);
    hide Preorder;
  }

  /** flattenSymbols: the first entries of the preorder, and whether it was cut. */
  method Flatten(forest: seq<Node>, cap: nat) returns (r: Scan<(seq<Entry>, seq<Symbol>, bool)>)
    ensures r.Done? ==>
              var all := Preorder(forest, 0);
              && r.result.0 == Take(all, cap)
              && r.result.1 == Symbols(Take(all, cap))
              && (r.result.2 <==> |all| > cap)
  {
    if * { return Cancelled; }
    var flat := new Flattener(cap);
    var truncated := flat.Walk(forest, 0);
    if truncated.Cancelled? { return Cancelled; }
    assert [] + Preorder(forest, 0) == Preorder(forest, 0);
    return Done((flat.outline, flat.originals, truncated.result));
  }

  lemma {:induction false} PreorderDepths(forest: seq<Node>, depth: nat)
    ensures forall i :: 0 <= i < |Preorder(forest, depth)| ==> Preorder(forest, depth)[i].depth >= depth
    ensures forest != [] ==> Preorder(forest, depth) != [] && Preorder(forest, depth)[0].depth == depth
  {
    if forest != [] {
      PreorderDepths(forest[0].children, depth + 1);
      PreorderDepths(forest[1..], depth);
    }
  }

  /** A node with its children ends where the depth first comes back. */
  lemma SplitIsUnique(c: seq<Entry>, r: seq<Entry>, d: seq<Entry>, t: seq<Entry>, depth: nat)
    requires c + r == d + t && c != [] && d != [] && c[0].depth == d[0].depth == depth
    requires forall i :: 1 <= i < |c| ==> c[i].depth > depth
    requires forall i :: 1 <= i < |d| ==> d[i].depth > depth
    requires r != [] ==> r[0].depth == depth
    requires t != [] ==> t[0].depth == depth
    ensures c == d && r == t
  {
    var all := c + r;
    assert forall i :: 0 <= i < |c| ==> all[i] == c[i];
    assert forall i :: 0 <= i < |d| ==> all[i] == d[i];
    assert r != [] ==> all[|c|] == r[0];
    assert t != [] ==> all[|d|] == t[0];
    assert |c| == |d|;
    assert c == all[..|c|] && d == all[..|c|];
    assert r == all[|c|..] && t == all[|c|..];
  }

  /** A node and everything below it. */
  function Subtree(node: Node, depth: nat): seq<Entry> {
    [Entry(node.symbol, depth)] + Preorder(node.children, depth + 1)
  }

  lemma SubtreeDepths(node: Node, depth: nat)
    ensures Subtree(node, depth)[0].depth == depth
    ensures forall i :: 1 <= i < |Subtree(node, depth)| ==> Subtree(node, depth)[i].depth > depth
  {
    PreorderDepths(node.children, depth + 1);
    hide Preorder;
  }

  lemma HeadsAgree(f: seq<Node>, g: seq<Node>, depth: nat)
    requires f != [] && g != [] && Preorder(f, depth) == Preorder(g, depth)
    ensures Subtree(f[0], depth) == Subtree(g[0], depth) && Preorder(f[1..], depth) == Preorder(g[1..], depth)
  {
    SubtreeDepths(f[0], depth);
    SubtreeDepths(g[0], depth);
    PreorderDepths(f[1..], depth);
    PreorderDepths(g[1..], depth);
    PreorderOf(f, depth);
    PreorderOf(g, depth);
    PreorderOf([], depth);
    assert Preorder(f, depth) == Subtree(f[0], depth) + Preorder(f[1..], depth);
    assert Preorder(g, depth) == Subtree(g[0], depth) + Preorder(g[1..], depth);
    hide Preorder, Subtree;
    SplitIsUnique(Subtree(f[0], depth), Preorder(f[1..], depth), Subtree(g[0], depth), Preorder(g[1..], depth), depth);
  }

  /** An outline that was not cut determines the forest: symbols and depths are all
      there is to it. */
  lemma {:induction false} PreorderIsInjective(f: seq<Node>, g: seq<Node>, depth: nat)
    requires Preorder(f, depth) == Preorder(g, depth)
    ensures f == g
    decreases f
  {
    PreorderDepths(f, depth);
    PreorderDepths(g, depth);
    PreorderOf([], depth);
    hide Preorder;
    if f != [] && g != [] {
      HeadsAgree(f, g, depth);
      assert Subtree(f[0], depth)[0] == Subtree(g[0], depth)[0];
      assert Subtree(f[0], depth)[1..] == Preorder(f[0].children, depth + 1);
      assert Subtree(g[0], depth)[1..] == Preorder(g[0].children, depth + 1);
      PreorderIsInjective(f[0].children, g[0].children, depth + 1);
      PreorderIsInjective(f[1..], g[1..], depth);
      assert f == [f[0]] + f[1..] && g == [g[0]] + g[1..];
    }
  }

  // ------------------------------------------------------------------- lookup

  predicate Matches(s: Symbol, name: string, line: Option<int>) {
    s.name == name && (line.None? || s.line == line.value)
  }

  /** The first entry that matches. */
  function FirstMatch(entries: seq<Entry>, name: string, line: Option<int>): Option<Symbol> {
    if entries == [] then None
    else if Matches(entries[0].symbol, name, line) then Some(entries[0].symbol)
    else FirstMatch(entries[1..], name, line)
  }

  function Else<T>(a: Option<T>, b: Option<T>): Option<T> {
    if a.Some? then a else b
  }

  lemma {:induction false} FirstMatchSplit(a: seq<Entry>, b: seq<Entry>, name: string, line: Option<int>)
    ensures FirstMatch(a + b, name, line) == Else(FirstMatch(a, name, line), FirstMatch(b, name, line))
  {
    if a == [] {
      assert a + b == b;
    } else {
      FirstMatchSplit(a[1..], b, name, line);
      assert (a + b)[1..] == a[1..] + b;
    }
  }

  /** A match on name and line is a match on the name. */
  lemma {:induction false} LineMatchIsNamed(entries: seq<Entry>, name: string, line: Option<int>)
    ensures FirstMatch(entries, name, line).Some? ==> FirstMatch(entries, name, None).Some?
  {
    if entries != [] {
      LineMatchIsNamed(entries[1..], name, line);
    }
  }

  /** The captured variables of resolveSymbolPosition and its recursive closure. */
  class Resolver {
    const name: string
    const line: Option<int>
    var first: Option<Symbol>
    var lineMatch: Option<Symbol>

    constructor (wanted: string, at: Option<int>)
      ensures name == wanted && line == at && first == None && lineMatch == None
    {
      name, line, first, lineMatch := wanted, at, None, None;
    }

    /** The walk may stop as soon as nothing further could change the answer. */
    predicate Settled()
      reads this
    {
      if line.None? then first.Some? else lineMatch.Some?
    }

    method Walk(forest: seq<Node>, ghost depth: nat) returns (r: Scan<bool>)
      requires !Settled() && lineMatch.None?
      modifies this
      ensures r.Done? ==>
                var all := Preorder(forest, depth);
                && first == Else(old(first), FirstMatch(all, name, None))
                && lineMatch == (if line.None? then None else FirstMatch(all, name, line))
                && r.result == Settled()
      decreases forest
    {
      ghost var firstBefore := first;
      var i := 0;
      assert forest[..0] == [];
      while i < |forest|
        invariant 0 <= i <= |forest| && !Settled() && lineMatch.None?
        invariant first == Else(firstBefore, FirstMatch(Preorder(forest[..i], depth), name, None))
        invariant line.Some? ==> FirstMatch(Preorder(forest[..i], depth), name, line) == None
      {
        if * { return Cancelled; }
        var node := forest[i];
        LookupStep(forest, i, depth, name, None);
        LookupStep(forest, i, depth, name, line);
        if node.symbol.name == name {
          if first.None? {
            first := Some(node.symbol);
          }
          if line.None? {
            return Done(true);
          }
          if node.symbol.line == line.value {
            lineMatch := Some(node.symbol);
            return Done(true);
          }
        }
        if |node.children| > 0 {
          var inner := Walk(node.children, depth + 1);
          if inner.Cancelled? { return Cancelled; }
          if inner.result {
            LineMatchIsNamed(Preorder(node.children, depth + 1), name, line);
            return Done(true);
          }
        }
        i := i + 1;
      }
      assert forest[..i] == forest;
      return Done(false);
    }
  }

  lemma LookupStep(forest: seq<Node>, i: nat, depth: nat, name: string, line: Option<int>)
    requires i < |forest|
    ensures var node := forest[i];
            var here := if Matches(node.symbol, name, line) then Some(node.symbol)
                        else FirstMatch(Preorder(node.children, depth + 1), name, line);
            var upTo := Else(FirstMatch(Preorder(forest[..i], depth), name, line), here);
            && FirstMatch(Preorder(forest[..i + 1], depth), name, line) == upTo
            && FirstMatch(Preorder(forest, depth), name, line)
               == Else(upTo, FirstMatch(Preorder(forest[i + 1..], depth), name, line))
  {
    WalkStep(forest, i, depth);
    var node := forest[i];
    var below := Preorder(node.children, depth + 1);
    var next := [Entry(node.symbol, depth)] + below;
    assert next[1..] == below;
    FirstMatchSplit(Preorder(forest[..i], depth), next, name, line);
    FirstMatchSplit(Preorder(forest[..i], depth) + next, Preorder(forest[i + 1..], depth), name, line);
  }

  /** resolveSymbolPosition: the first symbol in preorder with that name and line,
      or else the first with that name. */
  method Resolve(forest: seq<Node>, name: string, line: Option<int>) returns (r: Scan<Option<Symbol>>)
    ensures r.Done? ==>
              var all := Preorder(forest, 0);
              r.result == Else(FirstMatch(all, name, line), FirstMatch(all, name, None))
  {
    if * { return Cancelled; }
    var resolver := new Resolver(name, line);
    var done := resolver.Walk(forest, 0);
    if done.Cancelled? { return Cancelled; }
    return Done(Else(resolver.lineMatch, resolver.first));
  }
}
