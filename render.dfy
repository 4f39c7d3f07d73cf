/** The expansion of the two attribute macros: the parsed expression is
    written back in Rust's `cfg` predicate syntax (`any(..)`, `all(..)`,
    `not(..)`) inside a `#[cfg(..)]` or `#[cfg_attr(..)]` attribute that is
    put in front of the annotated item. */
module Render {
  import opened Tokens
  import opened Expr

  /** An identifier the macro creates itself. */
  function Keyword(name: string): IdentToken
  {
    TokenTree.Ident(name, CallSite)
  }

  const Comma: TokenTree := Punct(',', Alone, CallSite)
  const Pound: TokenTree := Punct('#', Alone, CallSite)

  /** No token at the top level of `ts` is a comma. */
  predicate CommaFree(ts: seq<TokenTree>)
  {
    forall i | 0 <= i < |ts| :: !IsPunct(ts[i], ',')
  }

  /** The `cfg` predicate for a tree. An identifier and a `key = "value"`
      pair are emitted with their own tokens; the operators become
      `not(..)`, `any(..)` and `all(..)` groups. */
  function RenderNode(n: Node): (ts: seq<TokenTree>)
    ensures 1 <= |ts| <= 3 && ts[0].Ident? && !ts[|ts| - 1].Punct?
    ensures WellFormed(n) ==> CommaFree(ts)
    decreases n, 1
  {
    match n
    case Ident(ident) => [ident]
    case Equal(ident, punct, literal) => [ident, punct, literal]
    case Not(inner) => [Keyword("not"), NewGroup(Parenthesis, RenderNode(inner))]
    case Or(nodes) => [Keyword("any"), NewGroup(Parenthesis, RenderList(nodes))]
    case And(nodes) => [Keyword("all"), NewGroup(Parenthesis, RenderList(nodes))]
  }

  /** The renders of the operands, in order, separated by commas. */
  function RenderList(ns: seq<Node>): (ts: seq<TokenTree>)
    ensures |ts| == 0 <==> |ns| == 0
    ensures |ns| >= 1 ==> ts[0].Ident? && !ts[|ts| - 1].Punct?
    decreases ns, 0
  {
    if |ns| == 0 then []
    else if |ns| == 1 then RenderNode(ns[0])
    else RenderNode(ns[0]) + [Comma] + RenderList(ns[1..])
  }

  /** `render_expr`: the predicate followed by the unparsed rest unchanged. */
  function RenderExpr(e: Expr): (ts: seq<TokenTree>)
    ensures |ts| == |RenderNode(e.node)| + |e.rest| && ts[|RenderNode(e.node)|..] == e.rest
  {
    RenderNode(e.node) + e.rest
  }

  /** `render`: `#[head(predicate)]` followed by the item unchanged. */
  function Render(head: string, e: Expr, input: seq<TokenTree>): (ts: seq<TokenTree>)
    ensures |ts| == 2 + |input| && ts[2..] == input
  {
    [Pound, NewGroup(Bracket, [Keyword(head), NewGroup(Parenthesis, RenderExpr(e))])] + input
  }

  /** What a macro invocation expands to: tokens, or the diagnostic that
      `compile_error` turns into tokens. */
  datatype Expansion = Tokens(tokens: seq<TokenTree>) | CompileError(error: Error)

  /** The expansion for the attribute `head`: the item behind the rendered
      attribute when the arguments parse, and only the diagnostic when they
      do not (the item is dropped). */
  function Expand(head: string, args: seq<TokenTree>, input: seq<TokenTree>): (x: Expansion)
    ensures x.Tokens? <==> Expression(args).Ok?
    ensures x.Tokens? ==> |x.tokens| == 2 + |input| && x.tokens[2..] == input
    ensures x.CompileError? ==> x.error == Expression(args).error
  {
    match Expression(args)
    case Ok(e) => Tokens(Render(head, e, input))
    case Err(error) => CompileError(error)
  }

  // ---------------------------------------------------------------------
  // The macros, building the token stream step by step

  /** `render_node`: the operand renders are appended one by one, with a
      comma before every one but the first. */
  method RenderNodeTokens(node: Node) returns (tokens: seq<TokenTree>)
    ensures tokens == RenderNode(node)
    decreases node
  {
    match node
    case Ident(ident) =>
      tokens := [ident];
    case Equal(ident, punct, literal) =>
      tokens := [ident] + [punct] + [literal];
    case Not(inner) =>
      var rendered := RenderNodeTokens(inner);
      tokens := [Keyword("not"), NewGroup(Parenthesis, rendered)];
    case Or(nodes) =>
      var inner := RenderOperands(nodes);
      tokens := [Keyword("any"), NewGroup(Parenthesis, inner)];
    case And(nodes) =>
      var inner := RenderOperands(nodes);
      tokens := [Keyword("all"), NewGroup(Parenthesis, inner)];
  }

  /** The `for (i, node) in nodes.into_iter().enumerate()` loop shared by
      the `Or` and `And` arms. */
  method RenderOperands(nodes: seq<Node>) returns (inner: seq<TokenTree>)
    ensures inner == RenderList(nodes)
    decreases nodes, 0
  {
    inner := [];
    for i := 0 to |nodes|
      invariant inner == RenderList(nodes[..i])
    {
      RenderListSnoc(nodes[..i], nodes[i]);
      assert nodes[..i + 1] == nodes[..i] + [nodes[i]];
      if i > 0 {
        inner := inner + [Comma];
      } else {
        assert inner == [];
      }
      var rendered := RenderNodeTokens(nodes[i]);
      inner := inner + rendered;
    }
    assert nodes[..|nodes|] == nodes;
  }

  method RenderExprTokens(e: Expr) returns (tokens: seq<TokenTree>)
    ensures tokens == RenderExpr(e)
  {
    tokens := RenderNodeTokens(e.node);
    tokens := tokens + e.rest;
  }

  /** `efg`: `#[efg(args)] item` expands to `#[cfg(..)] item`. */
  method Efg(args: seq<TokenTree>, input: seq<TokenTree>) returns (out: Expansion)
    ensures out == Expand("cfg", args, input)
  {
    out := Attribute("cfg", args, input);
  }

  /** `efg_attr`: `#[efg_attr(args)] item` expands to `#[cfg_attr(..)] item`. */
  method EfgAttr(args: seq<TokenTree>, input: seq<TokenTree>) returns (out: Expansion)
    ensures out == Expand("cfg_attr", args, input)
  {
    out := Attribute("cfg_attr", args, input);
  }

  method Attribute(head: string, args: seq<TokenTree>, input: seq<TokenTree>) returns (out: Expansion)
    ensures out == Expand(head, args, input)
  {
    var parsed := Parse(args);
    match parsed
    case Ok(e) =>
      var rendered := RenderExprTokens(e);
      out := Tokens([Pound, NewGroup(Bracket, [Keyword(head), NewGroup(Parenthesis, rendered)])] + input);
    case Err(error) =>
      out := CompileError(error);
  }

  // ---------------------------------------------------------------------
  // Properties of the rendering

  /** Appending an operand appends a comma (unless it is the first) and
      its render: the step the rendering loop takes. */
  lemma {:induction false} RenderListSnoc(ns: seq<Node>, m: Node)
    ensures RenderList(ns + [m]) ==
      if |ns| == 0 then RenderNode(m) else RenderList(ns) + [Comma] + RenderNode(m)
    decreases |ns|
  {
    var longer := ns + [m];
    if |ns| == 0 {
      assert longer == [m];
    } else if |ns| == 1 {
      assert longer[0] == ns[0] && longer[1..] == [m];
      assert RenderList(longer) == RenderNode(ns[0]) + [Comma] + RenderList([m]);
    } else {
      assert longer[0] == ns[0] && longer[1..] == ns[1..] + [m];
      RenderListSnoc(ns[1..], m);
      assert RenderList(longer) == RenderNode(ns[0]) + [Comma] + RenderList(ns[1..] + [m]);
      assert RenderList(ns) == RenderNode(ns[0]) + [Comma] + RenderList(ns[1..]);
    }
  }

  /** The number of commas at the top level of `ts`. */
  function CommaCount(ts: seq<TokenTree>): nat
  {
    if |ts| == 0 then 0 else (if IsPunct(ts[0], ',') then 1 else 0) + CommaCount(ts[1..])
  }

  /** The pieces of `ts` between its top-level commas, in order: the way a
      `cfg` list is read back. */
  function SplitCommas(ts: seq<TokenTree>): (chunks: seq<seq<TokenTree>>)
    ensures |chunks| == CommaCount(ts) + 1
    ensures forall k | 0 <= k < |chunks| :: CommaFree(chunks[k])
  {
    if |ts| == 0 then [[]]
    else
      var later := SplitCommas(ts[1..]);
      if IsPunct(ts[0], ',') then [[]] + later
      else [[ts[0]] + later[0]] + later[1..]
  }

  lemma {:induction false} SplitCommaFree(a: seq<TokenTree>)
    requires CommaFree(a)
    ensures SplitCommas(a) == [a]
    decreases |a|
  {
    if |a| > 0 {
      SplitCommaFree(a[1..]);
      assert [a[0]] + a[1..] == a;
    }
  }

  lemma {:induction false} SplitAfter(a: seq<TokenTree>, b: seq<TokenTree>)
    requires CommaFree(a)
    ensures SplitCommas(a + [Comma] + b) == [a] + SplitCommas(b)
    decreases |a|
  {
    if |a| == 0 {
      assert a + [Comma] + b == [Comma] + b;
      assert ([Comma] + b)[1..] == b;
    } else {
      assert (a + [Comma] + b)[1..] == a[1..] + [Comma] + b;
      SplitAfter(a[1..], b);
      assert [a[0]] + a[1..] == a;
    }
  }

  /** The operand renders, one per operand. */
  function Renders(ns: seq<Node>): (parts: seq<seq<TokenTree>>)
    ensures |parts| == |ns|
  {
    seq(|ns|, i requires 0 <= i < |ns| => RenderNode(ns[i]))
  }

  /** The inside of an `any(..)` or `all(..)` group holds the operand
      renders in order, separated by single commas: `|ns| - 1` of them, none
      leading and none trailing. */
  lemma {:induction false} RenderListChunks(ns: seq<Node>)
    requires |ns| >= 1 && AllWellFormed(ns)
    ensures SplitCommas(RenderList(ns)) == Renders(ns)
    ensures CommaCount(RenderList(ns)) == |ns| - 1
    decreases |ns|
  {
    assert WellFormed(ns[0]);
    if |ns| == 1 {
      SplitCommaFree(RenderNode(ns[0]));
    } else {
      var head := RenderNode(ns[0]);
      var rest := RenderList(ns[1..]);
      assert RenderList(ns) == head + [Comma] + rest;
      RenderListChunks(ns[1..]);
      SplitAfter(head, rest);
      assert [head] + Renders(ns[1..]) == Renders(ns);
    }
  }
}
