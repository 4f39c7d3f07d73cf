/** What the expansion means: a tree is true or false under a build
    configuration, and a `cfg` predicate made of `any(..)`, `all(..)`,
    `not(..)`, options and `key = "value"` pairs evaluates, as the compiler
    reads it, to a truth value too. The rendered predicate of every tree
    evaluates to the tree's own value, and `!(E)` to its complement. */
module CfgEval {
  import opened Tokens
  import opened Expr
  import opened ExprFacts
  import opened Render
  import Unparse

  /** A build configuration: the options that are set (`unix`) and the
      `key = "value"` pairs that hold (`feature = "std"`), a value being the
      literal as written. */
  datatype Cfg = Cfg(options: set<string>, pairs: set<(string, string)>)

  function EvalNode(n: Node, cfg: Cfg): bool
    decreases n, 1
  {
    match n
    case Ident(ident) => ident.name in cfg.options
    case Equal(ident, _, literal) => (ident.name, literal.text) in cfg.pairs
    case Not(inner) => !EvalNode(inner, cfg)
    case Or(nodes) => AnyHolds(nodes, cfg)
    case And(nodes) => AllHold(nodes, cfg)
  }

  function AnyHolds(ns: seq<Node>, cfg: Cfg): (b: bool)
    ensures b <==> exists i | 0 <= i < |ns| :: EvalNode(ns[i], cfg)
    decreases ns, 0
  {
    if |ns| == 0 then false
    else
      assert forall i | 1 <= i < |ns| :: ns[i] == ns[1..][i - 1];
      EvalNode(ns[0], cfg) || AnyHolds(ns[1..], cfg)
  }

  function AllHold(ns: seq<Node>, cfg: Cfg): (b: bool)
    ensures b <==> forall i | 0 <= i < |ns| :: EvalNode(ns[i], cfg)
    decreases ns, 0
  {
    if |ns| == 0 then true
    else
      assert forall i | 1 <= i < |ns| :: ns[i] == ns[1..][i - 1];
      EvalNode(ns[0], cfg) && AllHold(ns[1..], cfg)
  }

  // ---------------------------------------------------------------------
  // Reading a `cfg` predicate from tokens

  /** A predicate's truth value and the position after it. */
  datatype Value = Value(holds: bool, pos: nat)

  /** The predicate starting at `pos`: `name`, `name = "lit"`, or
      `any(..)`, `all(..)`, `not(..)` with a parenthesised list. */
  function Predicate(ts: seq<TokenTree>, pos: nat, cfg: Cfg): (r: Option<Value>)
    requires pos <= |ts|
    ensures r.Some? ==> pos < r.value.pos <= |ts|
    decreases ts, |ts| - pos, 0
  {
    if pos == |ts| || !ts[pos].Ident? then None
    else if pos + 1 < |ts| && IsPunct(ts[pos + 1], '=') then
      if pos + 2 < |ts| && ts[pos + 2].Literal? then
        Some(Value((ts[pos].name, ts[pos + 2].text) in cfg.pairs, pos + 3))
      else None
    else if pos + 1 < |ts| && ts[pos + 1].Group? && ts[pos + 1].delimiter == Parenthesis
      && ts[pos].name in {"any", "all", "not"}
    then
      var stream := ts[pos + 1].stream;
      var holds :=
        if ts[pos].name == "any" then List(stream, 0, cfg, false)
        else if ts[pos].name == "all" then List(stream, 0, cfg, true)
        else match Predicate(stream, 0, cfg)
          case Some(v) => if v.pos == |stream| then Some(!v.holds) else None
          case None => None;
      match holds
      case Some(b) => Some(Value(b, pos + 2))
      case None => None
    else Some(Value(ts[pos].name in cfg.options, pos + 1))
  }

  /** A comma-separated list of predicates up to the end of `ts` (a
      trailing comma allowed): their conjunction when `all`, otherwise their
      disjunction; `all()` holds and `any()` does not. */
  function List(ts: seq<TokenTree>, pos: nat, cfg: Cfg, all: bool): Option<bool>
    requires pos <= |ts|
    decreases ts, |ts| - pos, 1
  {
    if pos == |ts| then Some(all)
    else
      match Predicate(ts, pos, cfg)
      case None => None
      case Some(v) =>
        if v.pos < |ts| && !IsPunct(ts[v.pos], ',') then None
        else
          var more := if v.pos == |ts| then Some(all) else List(ts, v.pos + 1, cfg, all);
          match more
          case None => None
          case Some(b) => Some(if all then v.holds && b else v.holds || b)
  }

  /** Whether the attribute group `[cfg(P)]` keeps the item it annotates. */
  function CfgEnabled(attr: TokenTree, cfg: Cfg): Option<bool>
  {
    if attr.Group? && attr.delimiter == Bracket && |attr.stream| == 2
      && attr.stream[0].Ident? && attr.stream[0].name == "cfg"
      && attr.stream[1].Group? && attr.stream[1].delimiter == Parenthesis
    then
      var inner := attr.stream[1].stream;
      match Predicate(inner, 0, cfg)
      case Some(v) => if v.pos == |inner| then Some(v.holds) else None
      case None => None
    else None
  }

  // ---------------------------------------------------------------------
  // Where the rendered predicate of a tree lies inside a stream

  predicate NodeAt(ts: seq<TokenTree>, pos: nat, n: Node)
    decreases n, 1
  {
    match n
    case Ident(ident) => pos < |ts| && ts[pos] == ident
    case Equal(ident, punct, literal) =>
      pos + 2 < |ts| && ts[pos] == ident && ts[pos + 1] == punct && ts[pos + 2] == literal
    case Not(inner) =>
      pos + 1 < |ts| && ts[pos] == Keyword("not") && ts[pos + 1].Group? && ts[pos + 1].delimiter == Parenthesis
      && |ts[pos + 1].stream| == |RenderNode(inner)| && NodeAt(ts[pos + 1].stream, 0, inner)
    case Or(nodes) =>
      pos + 1 < |ts| && ts[pos] == Keyword("any") && ts[pos + 1].Group? && ts[pos + 1].delimiter == Parenthesis
      && |ts[pos + 1].stream| == |RenderList(nodes)| && ListAt(ts[pos + 1].stream, 0, nodes)
    case And(nodes) =>
      pos + 1 < |ts| && ts[pos] == Keyword("all") && ts[pos + 1].Group? && ts[pos + 1].delimiter == Parenthesis
      && |ts[pos + 1].stream| == |RenderList(nodes)| && ListAt(ts[pos + 1].stream, 0, nodes)
  }

  predicate ListAt(ts: seq<TokenTree>, pos: nat, ns: seq<Node>)
    decreases ns, 0
  {
    |ns| == 0 ||
    (NodeAt(ts, pos, ns[0]) &&
     (|ns| == 1 ||
      (pos + |RenderNode(ns[0])| < |ts| && ts[pos + |RenderNode(ns[0])|] == Comma &&
       ListAt(ts, pos + |RenderNode(ns[0])| + 1, ns[1..]))))
  }

  lemma {:induction false} NodePrinted(n: Node, ts: seq<TokenTree>, pos: nat)
    requires Occurs(ts, pos, RenderNode(n))
    ensures NodeAt(ts, pos, n)
    decreases n, 1
  {
    var r := RenderNode(n);
    OccursAt(ts, pos, r, 0);
    if |r| > 1 {
      OccursAt(ts, pos, r, 1);
    }
    if |r| > 2 {
      OccursAt(ts, pos, r, 2);
    }
    match n
    case Ident(_) =>
    case Equal(_, _, _) =>
    case Not(inner) =>
      OccursSuffix(RenderNode(inner), 0);
      NodePrinted(inner, RenderNode(inner), 0);
    case Or(nodes) =>
      OccursSuffix(RenderList(nodes), 0);
      ListPrinted(nodes, RenderList(nodes), 0);
    case And(nodes) =>
      OccursSuffix(RenderList(nodes), 0);
      ListPrinted(nodes, RenderList(nodes), 0);
  }

  lemma {:induction false} ListPrinted(ns: seq<Node>, ts: seq<TokenTree>, pos: nat)
    requires Occurs(ts, pos, RenderList(ns))
    ensures ListAt(ts, pos, ns)
    decreases ns, 0
  {
    if |ns| == 1 {
      NodePrinted(ns[0], ts, pos);
    } else if |ns| > 1 {
      var head := RenderNode(ns[0]);
      var rest := RenderList(ns[1..]);
      assert RenderList(ns) == head + ([Comma] + rest);
      OccursThree(ts, pos, head, [Comma], rest);
      OccursAt(ts, pos + |head|, [Comma], 0);
      NodePrinted(ns[0], ts, pos);
      ListPrinted(ns[1..], ts, pos + |head| + 1);
    }
  }

  // ---------------------------------------------------------------------
  // The rendered predicate means what the tree means

  /** At the end of a list or of the stream. */
  predicate ItemStop(ts: seq<TokenTree>, pos: nat)
    requires pos <= |ts|
  {
    pos == |ts| || IsPunct(ts[pos], ',')
  }

  lemma {:induction false} NodeEvaluates(n: Node, ts: seq<TokenTree>, pos: nat, cfg: Cfg)
    requires WellFormed(n) && NodeAt(ts, pos, n)
    requires pos + |RenderNode(n)| <= |ts| && ItemStop(ts, pos + |RenderNode(n)|)
    ensures Predicate(ts, pos, cfg) == Some(Value(EvalNode(n, cfg), pos + |RenderNode(n)|))
    decreases n, 1
  {
    match n
    case Ident(_) =>
    case Equal(_, _, _) =>
    case Not(inner) =>
      NodeEvaluates(inner, ts[pos + 1].stream, 0, cfg);
    case Or(nodes) =>
      ListEvaluates(nodes, ts[pos + 1].stream, 0, cfg, false);
    case And(nodes) =>
      ListEvaluates(nodes, ts[pos + 1].stream, 0, cfg, true);
  }

  lemma {:induction false} ListEvaluates(ns: seq<Node>, ts: seq<TokenTree>, pos: nat, cfg: Cfg, all: bool)
    requires |ns| >= 1 && AllWellFormed(ns) && ListAt(ts, pos, ns)
    requires pos + |RenderList(ns)| == |ts|
    ensures List(ts, pos, cfg, all) == Some(if all then AllHold(ns, cfg) else AnyHolds(ns, cfg))
    decreases ns, 0
  {
    var end := pos + |RenderNode(ns[0])|;
    assert WellFormed(ns[0]);
    if |ns| == 1 {
      NodeEvaluates(ns[0], ts, pos, cfg);
      assert ns[1..] == [];
    } else {
      assert |RenderList(ns)| == |RenderNode(ns[0])| + 1 + |RenderList(ns[1..])|;
      NodeEvaluates(ns[0], ts, pos, cfg);
      ListEvaluates(ns[1..], ts, end + 1, cfg, all);
    }
  }

  /** The rendered predicate of a tree evaluates to the tree's value, under
      every configuration. */
  lemma RenderedPredicate(n: Node, cfg: Cfg)
    requires WellFormed(n)
    ensures Predicate(RenderNode(n), 0, cfg) == Some(Value(EvalNode(n, cfg), |RenderNode(n)|))
  {
    OccursSuffix(RenderNode(n), 0);
    NodePrinted(n, RenderNode(n), 0);
    NodeEvaluates(n, RenderNode(n), 0, cfg);
  }

  /** `#[efg(E)] item` keeps the item exactly when `E` holds: the attribute
      in front of it is a `cfg` whose predicate has the value of the parsed
      tree, and the item follows unchanged. */
  lemma EfgAgreesWithCfg(args: seq<TokenTree>, input: seq<TokenTree>, n: Node, cfg: Cfg)
    requires Expression(args) == Ok(Expr(n, []))
    ensures Expand("cfg", args, input).Tokens?
    ensures Expand("cfg", args, input).tokens[2..] == input
    ensures CfgEnabled(Expand("cfg", args, input).tokens[1], cfg) == Some(EvalNode(n, cfg))
  {
    var ts := Expand("cfg", args, input).tokens;
    assert RenderExpr(Expr(n, [])) == RenderNode(n);
    RenderedPredicate(n, cfg);
    assert ts[1].stream[1].stream == RenderNode(n);
  }

  /** The two items of the test harness, `#[efg(E)]` and `#[efg(!(E))]`:
      exactly one of them is kept, under every configuration. */
  lemma NegationComplement(bang: PunctToken, group: GroupToken, args: seq<TokenTree>, input: seq<TokenTree>, n: Node, cfg: Cfg)
    requires bang.ch == '!' && group.delimiter == Parenthesis && group.stream == args
    requires Expression(args) == Ok(Expr(n, []))
    ensures Expand("cfg", Negated(bang, group, args), input).Tokens?
    ensures CfgEnabled(Expand("cfg", Negated(bang, group, args), input).tokens[1], cfg) ==
      Some(!EvalNode(n, cfg))
    ensures CfgEnabled(Expand("cfg", args, input).tokens[1], cfg) == Some(EvalNode(n, cfg))
  {
    NegatedExpression(bang, group, args, n);
    EfgAgreesWithCfg(Negated(bang, group, args), input, Not(n), cfg);
    EfgAgreesWithCfg(args, input, n, cfg);
  }

  /** `#[efg(unix || windows)]`, written with any `||` the parser accepts,
      renders as `#[cfg(any(unix, windows))]` and holds when either option
      is set. */
  lemma UnixOrWindows(unix: IdentToken, or: seq<TokenTree>, windows: IdentToken, cfg: Cfg)
    requires unix.name == "unix" && windows.name == "windows"
    requires |or| == 2 && Unparse.OperatorAt(or, 0, '|')
    ensures Expression([unix] + or + [windows]) ==
      Ok(Expr(Or([Node.Ident(unix), Node.Ident(windows)]), []))
    ensures RenderNode(Or([Node.Ident(unix), Node.Ident(windows)])) ==
      [Keyword("any"), NewGroup(Parenthesis, [unix, Comma, windows])]
    ensures EvalNode(Or([Node.Ident(unix), Node.Ident(windows)]), cfg) <==>
      "unix" in cfg.options || "windows" in cfg.options
  {
    var ts := [unix] + or + [windows];
    var ns := [Node.Ident(unix), Node.Ident(windows)];
    assert ts == [unix, or[0], or[1], windows];
    assert AllWellFormed(ns);
    assert ns[1..] == [Node.Ident(windows)] && ns[1..][1..] == [];
    assert Unparse.UnparseConjunction(ns[0]) == [unix] && Unparse.AtomAt(ts, 0, ns[0]);
    assert Unparse.UnparseConjunction(ns[1]) == [windows] && Unparse.AtomAt(ts, 3, ns[1]);
    assert |Unparse.OrTail(ns[1..])| == 3 by {
      assert Unparse.OrTail(ns[1..]) == Unparse.OrOp + ([windows] + Unparse.OrTail([]));
    }
    assert |Unparse.JoinOr(ns)| == 4;
    assert Unparse.OrTailAt(ts, 4, ns[1..][1..]);
    assert Unparse.OrTailAt(ts, 1, ns[1..]);
    assert Unparse.JoinOrAt(ts, 0, ns);
    Unparse.JoinOrRoundTrip(ns, ts, 0, TopLevel);
    assert ts[4..] == [];
    assert RenderList(ns[1..]) == [windows];
    assert RenderList(ns) == [unix, Comma, windows];
  }

  /** The condition of a `[cfg_attr(P, attrs..)]` attribute group: the
      value of `P` and where it ends, when `P` is followed by the end of the
      group or a comma. */
  function CfgAttrCondition(attr: TokenTree, cfg: Cfg): Option<Value>
  {
    if attr.Group? && attr.delimiter == Bracket && |attr.stream| == 2
      && attr.stream[0].Ident? && attr.stream[0].name == "cfg_attr"
      && attr.stream[1].Group? && attr.stream[1].delimiter == Parenthesis
    then
      var inner := attr.stream[1].stream;
      match Predicate(inner, 0, cfg)
      case Some(v) => if ItemStop(inner, v.pos) then Some(v) else None
      case None => None
    else None
  }

  /** `#[efg_attr(E, attrs..)] item` applies `attrs..` exactly when `E`
      holds: the attribute in front of the item is a `cfg_attr` whose
      condition has the value of the parsed tree, followed by the unparsed
      rest of the arguments unchanged, and the item follows unchanged. */
  lemma EfgAttrAgreesWithCfg(args: seq<TokenTree>, input: seq<TokenTree>, n: Node, rest: seq<TokenTree>, cfg: Cfg)
    requires Expression(args) == Ok(Expr(n, rest))
    ensures Expand("cfg_attr", args, input).Tokens?
    ensures Expand("cfg_attr", args, input).tokens[2..] == input
    ensures CfgAttrCondition(Expand("cfg_attr", args, input).tokens[1], cfg) ==
      Some(Value(EvalNode(n, cfg), |RenderNode(n)|))
    ensures Expand("cfg_attr", args, input).tokens[1].stream[1].stream[|RenderNode(n)|..] == rest
  {
    var ts := Expand("cfg_attr", args, input).tokens;
    var inner := RenderNode(n) + rest;
    assert RenderExpr(Expr(n, rest)) == inner;
    assert ts[1].stream[1].stream == inner;
    OccursSuffix(inner, 0);
    OccursSplit(inner, 0, RenderNode(n), rest);
    NodePrinted(n, inner, 0);
    NodeEvaluates(n, inner, 0, cfg);
    assert inner[|RenderNode(n)|..] == rest;
  }
}
