/** An inverse of the parser: `UnparseDisjunction` writes a well-formed
    tree back as boolean expression tokens (`||`, `&&`, `!`, parentheses
    where an operand is itself an `Or` or `And`), and the round-trip lemmas
    prove that the parser reads exactly that tree back, whatever follows it
    as long as it is a place where the parser stops. */
module Unparse {
  import opened Tokens
  import opened Expr
  import opened ExprFacts

  /** The number of nodes in a tree: the measure for the mutual recursion
      between a tree and its operand lists. */
  function NodeSize(n: Node): (size: nat)
    ensures size >= 1
  {
    match n
    case Ident(_) => 1
    case Equal(_, _, _) => 1
    case Not(inner) => 1 + NodeSize(inner)
    case Or(nodes) => 1 + ListSize(nodes)
    case And(nodes) => 1 + ListSize(nodes)
  }

  function ListSize(nodes: seq<Node>): nat
  {
    if |nodes| == 0 then 0 else NodeSize(nodes[0]) + ListSize(nodes[1..])
  }

  const Bang: TokenTree := Punct('!', Alone, CallSite)
  const OrOp: seq<TokenTree> := [Punct('|', Joint, CallSite), Punct('|', Alone, CallSite)]
  const AndOp: seq<TokenTree> := [Punct('&', Joint, CallSite), Punct('&', Alone, CallSite)]

  function UnparseDisjunction(n: Node): seq<TokenTree>
    decreases NodeSize(n), 3
  {
    if n.Or? then JoinOr(n.nodes) else UnparseConjunction(n)
  }

  /** The operands separated by `||`. */
  function JoinOr(ns: seq<Node>): seq<TokenTree>
    decreases ListSize(ns), 2
  {
    if |ns| == 0 then [] else UnparseConjunction(ns[0]) + OrTail(ns[1..])
  }

  /** `|| m` for every operand `m`. */
  function OrTail(ms: seq<Node>): seq<TokenTree>
    decreases ListSize(ms), 2
  {
    if |ms| == 0 then [] else OrOp + (UnparseConjunction(ms[0]) + OrTail(ms[1..]))
  }

  function UnparseConjunction(n: Node): seq<TokenTree>
    decreases NodeSize(n), 1
  {
    if n.And? then JoinAnd(n.nodes) else UnparseAtom(n)
  }

  /** The operands separated by `&&`. */
  function JoinAnd(ns: seq<Node>): seq<TokenTree>
    decreases ListSize(ns), 1
  {
    if |ns| == 0 then [] else UnparseAtom(ns[0]) + AndTail(ns[1..])
  }

  /** `&& m` for every operand `m`. */
  function AndTail(ms: seq<Node>): seq<TokenTree>
    decreases ListSize(ms), 1
  {
    if |ms| == 0 then [] else AndOp + (UnparseAtom(ms[0]) + AndTail(ms[1..]))
  }

  /** An operand that is itself an `Or` or `And` is parenthesised. */
  function UnparseAtom(n: Node): (ts: seq<TokenTree>)
    ensures |ts| >= 1
    decreases NodeSize(n), 0
  {
    match n
    case Ident(ident) => [ident]
    case Equal(ident, punct, literal) => [ident, punct, literal]
    case Not(inner) => [Bang] + UnparseAtom(inner)
    case Or(nodes) => [NewGroup(Parenthesis, JoinOr(nodes))]
    case And(nodes) => [NewGroup(Parenthesis, JoinAnd(nodes))]
  }

  /** Where an atom ends, no `=` follows (it would extend an identifier). */
  predicate AtomStop(ts: seq<TokenTree>, pos: nat)
    requires pos <= |ts|
  {
    pos == |ts| || !IsPunct(ts[pos], '=')
  }

  /** Where a conjunction ends, neither `&` nor `=` follows. */
  predicate ConjunctionStop(ts: seq<TokenTree>, pos: nat)
    requires pos <= |ts|
  {
    pos == |ts| || (!IsPunct(ts[pos], '&') && !IsPunct(ts[pos], '='))
  }

  lemma HeadThenTail(operands: seq<Node>, ms: seq<Node>)
    requires |ms| > 0
    ensures operands + [ms[0]] + ms[1..] == operands + ms
  {
  }

  /** An operator `cc` as the parser accepts it at `pos`: two punctuation
      tokens `c`, the first one `Joint`; their spans are not looked at. */
  predicate OperatorAt(ts: seq<TokenTree>, pos: nat, c: char)
  {
    pos + 1 < |ts| && IsPunct(ts[pos], c) && ts[pos].spacing == Joint && IsPunct(ts[pos + 1], c)
  }

  /** Splits an occurrence of a two-token operator, an operand and the rest. */
  lemma TailParts(ts: seq<TokenTree>, pos: nat, op: seq<TokenTree>, x: seq<TokenTree>, rest: seq<TokenTree>)
    requires |op| == 2 && Occurs(ts, pos, op + (x + rest))
    ensures pos + 1 < |ts| && ts[pos] == op[0] && ts[pos + 1] == op[1]
    ensures Occurs(ts, pos + 2, x) && Occurs(ts, pos + 2 + |x|, rest)
  {
    OccursThree(ts, pos, op, x, rest);
    OccursAt(ts, pos, op, 0);
    OccursAt(ts, pos, op, 1);
  }

  // ---------------------------------------------------------------------
  // Printings in place: where the tokens of a tree lie inside a stream

  /** The tokens of `UnparseAtom(n)` lie in `ts` from `pos` on, up to the
      operator tokens (any `!`, `&&` or `||` the parser accepts, wherever
      they are spanned), a group's stream being any printing of its
      operands. */
  predicate AtomAt(ts: seq<TokenTree>, pos: nat, n: Node)
    decreases NodeSize(n), 0
  {
    match n
    case Ident(ident) => pos < |ts| && ts[pos] == ident
    case Equal(ident, punct, literal) =>
      pos + 2 < |ts| && ts[pos] == ident && ts[pos + 1] == punct && ts[pos + 2] == literal
    case Not(inner) => pos < |ts| && IsPunct(ts[pos], '!') && AtomAt(ts, pos + 1, inner)
    case Or(nodes) =>
      pos < |ts| && ts[pos].Group? && ts[pos].delimiter == Parenthesis &&
      |ts[pos].stream| == |JoinOr(nodes)| && JoinOrAt(ts[pos].stream, 0, nodes)
    case And(nodes) =>
      pos < |ts| && ts[pos].Group? && ts[pos].delimiter == Parenthesis &&
      |ts[pos].stream| == |JoinAnd(nodes)| && JoinAndAt(ts[pos].stream, 0, nodes)
  }

  predicate ConjunctionAt(ts: seq<TokenTree>, pos: nat, n: Node)
    decreases NodeSize(n), 1
  {
    if n.And? then JoinAndAt(ts, pos, n.nodes) else AtomAt(ts, pos, n)
  }

  predicate JoinAndAt(ts: seq<TokenTree>, pos: nat, ns: seq<Node>)
    decreases ListSize(ns), 1
  {
    |ns| == 0 || (AtomAt(ts, pos, ns[0]) && AndTailAt(ts, pos + |UnparseAtom(ns[0])|, ns[1..]))
  }

  predicate AndTailAt(ts: seq<TokenTree>, pos: nat, ms: seq<Node>)
    decreases ListSize(ms), 1
  {
    |ms| == 0 ||
    (OperatorAt(ts, pos, '&') &&
     AtomAt(ts, pos + 2, ms[0]) && AndTailAt(ts, pos + 2 + |UnparseAtom(ms[0])|, ms[1..]))
  }

  predicate DisjunctionAt(ts: seq<TokenTree>, pos: nat, n: Node)
    decreases NodeSize(n), 3
  {
    if n.Or? then JoinOrAt(ts, pos, n.nodes) else ConjunctionAt(ts, pos, n)
  }

  predicate JoinOrAt(ts: seq<TokenTree>, pos: nat, ns: seq<Node>)
    decreases ListSize(ns), 2
  {
    |ns| == 0 || (ConjunctionAt(ts, pos, ns[0]) && OrTailAt(ts, pos + |UnparseConjunction(ns[0])|, ns[1..]))
  }

  predicate OrTailAt(ts: seq<TokenTree>, pos: nat, ms: seq<Node>)
    decreases ListSize(ms), 2
  {
    |ms| == 0 ||
    (OperatorAt(ts, pos, '|') &&
     ConjunctionAt(ts, pos + 2, ms[0]) && OrTailAt(ts, pos + 2 + |UnparseConjunction(ms[0])|, ms[1..]))
  }

  // ---------------------------------------------------------------------
  // Unparsed tokens are a printing in place

  lemma {:induction false} AtomPrinted(n: Node, ts: seq<TokenTree>, pos: nat)
    requires Occurs(ts, pos, UnparseAtom(n))
    ensures AtomAt(ts, pos, n)
    decreases NodeSize(n), 0
  {
    match n
    case Ident(_) =>
      OccursAt(ts, pos, UnparseAtom(n), 0);
    case Equal(_, _, _) =>
      OccursAt(ts, pos, UnparseAtom(n), 0);
      OccursAt(ts, pos, UnparseAtom(n), 1);
      OccursAt(ts, pos, UnparseAtom(n), 2);
    case Not(inner) =>
      OccursSplit(ts, pos, [Bang], UnparseAtom(inner));
      OccursAt(ts, pos, [Bang], 0);
      AtomPrinted(inner, ts, pos + 1);
    case Or(nodes) =>
      OccursAt(ts, pos, UnparseAtom(n), 0);
      OccursSuffix(JoinOr(nodes), 0);
      JoinOrPrinted(nodes, JoinOr(nodes), 0);
    case And(nodes) =>
      OccursAt(ts, pos, UnparseAtom(n), 0);
      OccursSuffix(JoinAnd(nodes), 0);
      JoinAndPrinted(nodes, JoinAnd(nodes), 0);
  }

  lemma {:induction false} ConjunctionPrinted(n: Node, ts: seq<TokenTree>, pos: nat)
    requires Occurs(ts, pos, UnparseConjunction(n))
    ensures ConjunctionAt(ts, pos, n)
    decreases NodeSize(n), 1
  {
    if n.And? {
      JoinAndPrinted(n.nodes, ts, pos);
    } else {
      AtomPrinted(n, ts, pos);
    }
  }

  lemma {:induction false} JoinAndPrinted(ns: seq<Node>, ts: seq<TokenTree>, pos: nat)
    requires Occurs(ts, pos, JoinAnd(ns))
    ensures JoinAndAt(ts, pos, ns)
    decreases ListSize(ns), 1
  {
    if |ns| > 0 {
      var head := UnparseAtom(ns[0]);
      var tail := AndTail(ns[1..]);
      assert JoinAnd(ns) == head + tail;
      OccursSplit(ts, pos, head, tail);
      AtomPrinted(ns[0], ts, pos);
      AndTailPrinted(ns[1..], ts, pos + |head|);
    }
  }

  lemma {:induction false} AndTailPrinted(ms: seq<Node>, ts: seq<TokenTree>, pos: nat)
    requires Occurs(ts, pos, AndTail(ms))
    ensures AndTailAt(ts, pos, ms)
    decreases ListSize(ms), 1
  {
    if |ms| > 0 {
      var atom := UnparseAtom(ms[0]);
      var rest := AndTail(ms[1..]);
      assert AndTail(ms) == AndOp + (atom + rest);
      TailParts(ts, pos, AndOp, atom, rest);
      AtomPrinted(ms[0], ts, pos + 2);
      AndTailPrinted(ms[1..], ts, pos + 2 + |atom|);
    }
  }

  lemma {:induction false} DisjunctionPrinted(n: Node, ts: seq<TokenTree>, pos: nat)
    requires Occurs(ts, pos, UnparseDisjunction(n))
    ensures DisjunctionAt(ts, pos, n)
    decreases NodeSize(n), 3
  {
    if n.Or? {
      JoinOrPrinted(n.nodes, ts, pos);
    } else {
      ConjunctionPrinted(n, ts, pos);
    }
  }

  lemma {:induction false} JoinOrPrinted(ns: seq<Node>, ts: seq<TokenTree>, pos: nat)
    requires Occurs(ts, pos, JoinOr(ns))
    ensures JoinOrAt(ts, pos, ns)
    decreases ListSize(ns), 2
  {
    if |ns| > 0 {
      var head := UnparseConjunction(ns[0]);
      var tail := OrTail(ns[1..]);
      assert JoinOr(ns) == head + tail;
      OccursSplit(ts, pos, head, tail);
      ConjunctionPrinted(ns[0], ts, pos);
      OrTailPrinted(ns[1..], ts, pos + |head|);
    }
  }

  lemma {:induction false} OrTailPrinted(ms: seq<Node>, ts: seq<TokenTree>, pos: nat)
    requires Occurs(ts, pos, OrTail(ms))
    ensures OrTailAt(ts, pos, ms)
    decreases ListSize(ms), 2
  {
    if |ms| > 0 {
      var conjunction := UnparseConjunction(ms[0]);
      var rest := OrTail(ms[1..]);
      assert OrTail(ms) == OrOp + (conjunction + rest);
      TailParts(ts, pos, OrOp, conjunction, rest);
      ConjunctionPrinted(ms[0], ts, pos + 2);
      OrTailPrinted(ms[1..], ts, pos + 2 + |conjunction|);
    }
  }

  // ---------------------------------------------------------------------
  // Round trip, level by level

  lemma {:induction false} AtomRoundTrip(n: Node, ts: seq<TokenTree>, pos: nat, ctx: Ctx)
    requires WellFormed(n) && AtomAt(ts, pos, n)
    requires pos + |UnparseAtom(n)| <= |ts| && AtomStop(ts, pos + |UnparseAtom(n)|)
    ensures Atom(ts, pos, ctx) == Ok(Parsed(n, pos + |UnparseAtom(n)|))
    decreases NodeSize(n), 0
  {
    match n
    case Ident(ident) =>
    case Equal(ident, punct, literal) =>
    case Not(inner) =>
      AtomRoundTrip(inner, ts, pos + 1, ctx);
    case Or(nodes) =>
      var stream := ts[pos].stream;
      JoinOrRoundTrip(nodes, stream, 0, InGroup(ts[pos]));
    case And(nodes) =>
      var stream := ts[pos].stream;
      JoinAndRoundTrip(nodes, stream, 0, InGroup(ts[pos]));
      DisjunctionFirst(stream, 0, InGroup(ts[pos]), Parsed(n, |stream|));
      DisjunctionLoopStop(stream, |stream|, InGroup(ts[pos]), [n]);
  }

  lemma {:induction false} ConjunctionRoundTrip(n: Node, ts: seq<TokenTree>, pos: nat, ctx: Ctx)
    requires WellFormed(n) && ConjunctionAt(ts, pos, n)
    requires pos + |UnparseConjunction(n)| <= |ts| && ConjunctionStop(ts, pos + |UnparseConjunction(n)|)
    ensures Conjunction(ts, pos, ctx) == Ok(Parsed(n, pos + |UnparseConjunction(n)|))
    decreases NodeSize(n), 2
  {
    if n.And? {
      JoinAndRoundTrip(n.nodes, ts, pos, ctx);
    } else {
      var end := pos + |UnparseAtom(n)|;
      AtomRoundTrip(n, ts, pos, ctx);
      ConjunctionFirst(ts, pos, ctx, Parsed(n, end));
      ConjunctionLoopStop(ts, end, ctx, [n]);
    }
  }

  /** `n1 && n2 && ...` parses to one flat `And`. */
  lemma {:induction false} JoinAndRoundTrip(ns: seq<Node>, ts: seq<TokenTree>, pos: nat, ctx: Ctx)
    requires |ns| >= 2 && AllWellFormed(ns) && JoinAndAt(ts, pos, ns)
    requires pos + |JoinAnd(ns)| <= |ts| && ConjunctionStop(ts, pos + |JoinAnd(ns)|)
    ensures Conjunction(ts, pos, ctx) == Ok(Parsed(And(ns), pos + |JoinAnd(ns)|))
    decreases ListSize(ns), 1
  {
    var end := pos + |UnparseAtom(ns[0])|;
    assert |JoinAnd(ns)| == |UnparseAtom(ns[0])| + |AndTail(ns[1..])|;
    assert WellFormed(ns[0]);
    AtomRoundTrip(ns[0], ts, pos, ctx);
    ConjunctionFirst(ts, pos, ctx, Parsed(ns[0], end));
    AndTailRoundTrip(ns[1..], ts, end, ctx, [ns[0]]);
    assert [ns[0]] + ns[1..] == ns;
  }

  /** The first step of a printed `&& m ...`: an accepted `&&` and the
      operand's atom, which the loop appends; after it comes the rest of
      the tail or the stop. */
  lemma {:induction false} AndTailStep(ms: seq<Node>, ts: seq<TokenTree>, pos: nat, ctx: Ctx, operands: seq<Node>)
    requires |ms| > 0 && AllWellFormed(ms) && |operands| >= 1 && AllWellFormed(operands) && AndTailAt(ts, pos, ms)
    requires pos + |AndTail(ms)| <= |ts| && ConjunctionStop(ts, pos + |AndTail(ms)|)
    ensures AllWellFormed(operands + [ms[0]])
    ensures |AndTail(ms)| == 2 + |UnparseAtom(ms[0])| + |AndTail(ms[1..])|
    ensures AndTailAt(ts, pos + 2 + |UnparseAtom(ms[0])|, ms[1..])
    ensures ConjunctionLoop(ts, pos, ctx, operands) ==
      ConjunctionLoop(ts, pos + 2 + |UnparseAtom(ms[0])|, ctx, operands + [ms[0]])
    decreases ListSize(ms), 1
  {
    var end := pos + 2 + |UnparseAtom(ms[0])|;
    assert |AndTail(ms)| == 2 + |UnparseAtom(ms[0])| + |AndTail(ms[1..])|;
    assert WellFormed(ms[0]);
    if |ms| > 1 {
      assert IsPunct(ts[end], '&');
    } else {
      assert end == pos + |AndTail(ms)|;
    }
    AtomRoundTrip(ms[0], ts, pos + 2, ctx);
    ConjunctionLoopStep(ts, pos, ctx, operands, Parsed(ms[0], end));
  }

  lemma {:induction false} AndTailRoundTrip(ms: seq<Node>, ts: seq<TokenTree>, pos: nat, ctx: Ctx, operands: seq<Node>)
    requires AllWellFormed(ms) && |operands| >= 1 && AllWellFormed(operands) && AndTailAt(ts, pos, ms)
    requires pos + |AndTail(ms)| <= |ts| && ConjunctionStop(ts, pos + |AndTail(ms)|)
    ensures ConjunctionLoop(ts, pos, ctx, operands) == Ok(Parsed(AndOf(operands + ms), pos + |AndTail(ms)|))
    decreases ListSize(ms), 2
  {
    if |ms| == 0 {
      assert operands + ms == operands;
      ConjunctionLoopStop(ts, pos, ctx, operands);
    } else {
      var end := pos + 2 + |UnparseAtom(ms[0])|;
      var next := operands + [ms[0]];
      AndTailStep(ms, ts, pos, ctx, operands);
      AndTailRoundTrip(ms[1..], ts, end, ctx, next);
      HeadThenTail(operands, ms);
      calc {
        ConjunctionLoop(ts, pos, ctx, operands);
        ConjunctionLoop(ts, end, ctx, next);
        Ok(Parsed(AndOf(next + ms[1..]), end + |AndTail(ms[1..])|));
        Ok(Parsed(AndOf(operands + ms), pos + |AndTail(ms)|));
      }
    }
  }

  lemma {:induction false} DisjunctionRoundTrip(n: Node, ts: seq<TokenTree>, pos: nat, ctx: Ctx)
    requires WellFormed(n) && DisjunctionAt(ts, pos, n)
    requires pos + |UnparseDisjunction(n)| <= |ts| && DisjunctionStop(ts, pos + |UnparseDisjunction(n)|)
    ensures Disjunction(ts, pos, ctx) == Ok(Parsed(n, pos + |UnparseDisjunction(n)|))
    decreases NodeSize(n), 4
  {
    if n.Or? {
      JoinOrRoundTrip(n.nodes, ts, pos, ctx);
    } else {
      var end := pos + |UnparseConjunction(n)|;
      ConjunctionRoundTrip(n, ts, pos, ctx);
      DisjunctionFirst(ts, pos, ctx, Parsed(n, end));
      DisjunctionLoopStop(ts, end, ctx, [n]);
    }
  }

  /** `n1 || n2 || ...` parses to one flat `Or`. */
  lemma {:induction false} JoinOrRoundTrip(ns: seq<Node>, ts: seq<TokenTree>, pos: nat, ctx: Ctx)
    requires |ns| >= 2 && AllWellFormed(ns) && JoinOrAt(ts, pos, ns)
    requires pos + |JoinOr(ns)| <= |ts| && DisjunctionStop(ts, pos + |JoinOr(ns)|)
    ensures Disjunction(ts, pos, ctx) == Ok(Parsed(Or(ns), pos + |JoinOr(ns)|))
    decreases ListSize(ns), 3
  {
    var end := pos + |UnparseConjunction(ns[0])|;
    assert |JoinOr(ns)| == |UnparseConjunction(ns[0])| + |OrTail(ns[1..])|;
    assert WellFormed(ns[0]);
    ConjunctionRoundTrip(ns[0], ts, pos, ctx);
    DisjunctionFirst(ts, pos, ctx, Parsed(ns[0], end));
    OrTailRoundTrip(ns[1..], ts, end, ctx, [ns[0]]);
    assert [ns[0]] + ns[1..] == ns;
  }

  /** The first step of a printed `|| m ...`: an accepted `||` and the
      operand's conjunction, which the loop appends; after it comes the
      rest of the tail or the stop. */
  lemma {:induction false} OrTailStep(ms: seq<Node>, ts: seq<TokenTree>, pos: nat, ctx: Ctx, operands: seq<Node>)
    requires |ms| > 0 && AllWellFormed(ms) && |operands| >= 1 && AllWellFormed(operands) && OrTailAt(ts, pos, ms)
    requires pos + |OrTail(ms)| <= |ts| && DisjunctionStop(ts, pos + |OrTail(ms)|)
    ensures AllWellFormed(operands + [ms[0]])
    ensures |OrTail(ms)| == 2 + |UnparseConjunction(ms[0])| + |OrTail(ms[1..])|
    ensures OrTailAt(ts, pos + 2 + |UnparseConjunction(ms[0])|, ms[1..])
    ensures DisjunctionLoop(ts, pos, ctx, operands) ==
      DisjunctionLoop(ts, pos + 2 + |UnparseConjunction(ms[0])|, ctx, operands + [ms[0]])
    decreases ListSize(ms), 3
  {
    var end := pos + 2 + |UnparseConjunction(ms[0])|;
    assert |OrTail(ms)| == 2 + |UnparseConjunction(ms[0])| + |OrTail(ms[1..])|;
    assert WellFormed(ms[0]);
    ConjunctionRoundTrip(ms[0], ts, pos + 2, ctx);
    DisjunctionLoopStep(ts, pos, ctx, operands, Parsed(ms[0], end));
  }

  lemma {:induction false} OrTailRoundTrip(ms: seq<Node>, ts: seq<TokenTree>, pos: nat, ctx: Ctx, operands: seq<Node>)
    requires AllWellFormed(ms) && |operands| >= 1 && AllWellFormed(operands) && OrTailAt(ts, pos, ms)
    requires pos + |OrTail(ms)| <= |ts| && DisjunctionStop(ts, pos + |OrTail(ms)|)
    ensures DisjunctionLoop(ts, pos, ctx, operands) == Ok(Parsed(OrOf(operands + ms), pos + |OrTail(ms)|))
    decreases ListSize(ms), 4
  {
    if |ms| == 0 {
      assert operands + ms == operands;
      DisjunctionLoopStop(ts, pos, ctx, operands);
    } else {
      var end := pos + 2 + |UnparseConjunction(ms[0])|;
      var next := operands + [ms[0]];
      OrTailStep(ms, ts, pos, ctx, operands);
      OrTailRoundTrip(ms[1..], ts, end, ctx, next);
      HeadThenTail(operands, ms);
      calc {
        DisjunctionLoop(ts, pos, ctx, operands);
        DisjunctionLoop(ts, end, ctx, next);
        Ok(Parsed(OrOf(next + ms[1..]), end + |OrTail(ms[1..])|));
        Ok(Parsed(OrOf(operands + ms), pos + |OrTail(ms)|));
      }
    }
  }


  /** Every well-formed tree is what the parser makes of its unparsed
      tokens, with nothing left over. */
  lemma ParseUnparse(n: Node)
    requires WellFormed(n)
    ensures Expression(UnparseDisjunction(n)) == Ok(Expr(n, []))
  {
    var ts := UnparseDisjunction(n);
    OccursSuffix(ts, 0);
    DisjunctionPrinted(n, ts, 0);
    DisjunctionRoundTrip(n, ts, 0, TopLevel);
    assert ts[|ts|..] == [];
  }

  /** An unparenthesised chain `a || b || c`, written with any `||` the
      parser accepts, is one flat `Or` of three. */
  lemma FlatChain(a: IdentToken, b: IdentToken, c: IdentToken, or1: seq<TokenTree>, or2: seq<TokenTree>)
    requires |or1| == 2 && OperatorAt(or1, 0, '|')
    requires |or2| == 2 && OperatorAt(or2, 0, '|')
    ensures Expression([a] + or1 + [b] + or2 + [c]) ==
      Ok(Expr(Or([Node.Ident(a), Node.Ident(b), Node.Ident(c)]), []))
  {
    var ts := [a] + or1 + [b] + or2 + [c];
    var ns := [Node.Ident(a), Node.Ident(b), Node.Ident(c)];
    assert ts == [a, or1[0], or1[1], b, or2[0], or2[1], c];
    assert AllWellFormed(ns);
    assert ns[1..][1..] == ns[2..] && ns[2..][1..] == [];
    assert UnparseConjunction(ns[0]) == [a] && AtomAt(ts, 0, ns[0]);
    assert UnparseConjunction(ns[1]) == [b] && AtomAt(ts, 3, ns[1]);
    assert UnparseConjunction(ns[2]) == [c] && AtomAt(ts, 6, ns[2]);
    assert |OrTail(ns[2..])| == 3 by {
      assert OrTail(ns[2..]) == OrOp + ([c] + OrTail([]));
    }
    assert |OrTail(ns[1..])| == 6;
    assert |JoinOr(ns)| == 7;
    assert OrTailAt(ts, 7, ns[2..][1..]);
    assert OrTailAt(ts, 4, ns[2..]);
    assert OrTailAt(ts, 1, ns[1..]);
    assert JoinOrAt(ts, 0, ns);
    JoinOrRoundTrip(ns, ts, 0, TopLevel);
    assert ts[7..] == [];
  }
}
