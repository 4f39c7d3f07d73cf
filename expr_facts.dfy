/** Properties of the parser in module `Expr`, stated about its
    specification functions (which the parsing methods are proved to follow). */
module ExprFacts {
  import opened Tokens
  import opened Expr

  // ---------------------------------------------------------------------
  // The context only chooses the span of one error

  /** The context (top level or inside a group) only changes where an
      "end of input" error points: a successful parse is the same in any
      context. */
  lemma {:induction false} DisjunctionContextFree(ts: seq<TokenTree>, pos: nat, c1: Ctx, c2: Ctx)
    requires pos <= |ts| && Disjunction(ts, pos, c1).Ok?
    ensures Disjunction(ts, pos, c2) == Disjunction(ts, pos, c1)
    decreases |ts| - pos, 2
  {
    ConjunctionContextFree(ts, pos, c1, c2);
    var first := Conjunction(ts, pos, c1).value;
    DisjunctionLoopContextFree(ts, first.pos, c1, c2, [first.node]);
  }

  lemma {:induction false} DisjunctionLoopContextFree(ts: seq<TokenTree>, pos: nat, c1: Ctx, c2: Ctx, operands: seq<Node>)
    requires pos <= |ts| && |operands| >= 1 && AllWellFormed(operands)
    requires DisjunctionLoop(ts, pos, c1, operands).Ok?
    ensures DisjunctionLoop(ts, pos, c2, operands) == DisjunctionLoop(ts, pos, c1, operands)
    decreases |ts| - pos, 0
  {
    if pos < |ts| && IsPunct(ts[pos], '|') && !MalformedOperator(ts, pos, '|') {
      ConjunctionContextFree(ts, pos + 2, c1, c2);
      var next := Conjunction(ts, pos + 2, c1).value;
      AppendWellFormed(operands, next.node);
      DisjunctionLoopContextFree(ts, next.pos, c1, c2, operands + [next.node]);
    }
  }

  lemma {:induction false} ConjunctionContextFree(ts: seq<TokenTree>, pos: nat, c1: Ctx, c2: Ctx)
    requires pos <= |ts| && Conjunction(ts, pos, c1).Ok?
    ensures Conjunction(ts, pos, c2) == Conjunction(ts, pos, c1)
    decreases |ts| - pos, 1
  {
    AtomContextFree(ts, pos, c1, c2);
    var first := Atom(ts, pos, c1).value;
    ConjunctionLoopContextFree(ts, first.pos, c1, c2, [first.node]);
  }

  lemma {:induction false} ConjunctionLoopContextFree(ts: seq<TokenTree>, pos: nat, c1: Ctx, c2: Ctx, operands: seq<Node>)
    requires pos <= |ts| && |operands| >= 1 && AllWellFormed(operands)
    requires ConjunctionLoop(ts, pos, c1, operands).Ok?
    ensures ConjunctionLoop(ts, pos, c2, operands) == ConjunctionLoop(ts, pos, c1, operands)
    decreases |ts| - pos, 0
  {
    if pos < |ts| && IsPunct(ts[pos], '&') && !MalformedOperator(ts, pos, '&') {
      AtomContextFree(ts, pos + 2, c1, c2);
      var next := Atom(ts, pos + 2, c1).value;
      AppendWellFormed(operands, next.node);
      ConjunctionLoopContextFree(ts, next.pos, c1, c2, operands + [next.node]);
    }
  }

  lemma {:induction false} AtomContextFree(ts: seq<TokenTree>, pos: nat, c1: Ctx, c2: Ctx)
    requires pos <= |ts| && Atom(ts, pos, c1).Ok?
    ensures Atom(ts, pos, c2) == Atom(ts, pos, c1)
    decreases |ts| - pos, 0
  {
    if pos < |ts| && IsPunct(ts[pos], '!') {
      AtomContextFree(ts, pos + 1, c1, c2);
    }
  }

  // ---------------------------------------------------------------------
  // Negation of a whole argument list, as the test harness writes `!(E)`

  /** The tokens `! ( args )`. */
  function Negated(bang: PunctToken, group: GroupToken, args: seq<TokenTree>): seq<TokenTree>
    requires bang.ch == '!' && group.delimiter == Parenthesis && group.stream == args
  {
    [bang, group]
  }

  /** Wrapping a complete expression as `!(E)` parses to the negation of
      what `E` parses to. */
  lemma NegatedExpression(bang: PunctToken, group: GroupToken, args: seq<TokenTree>, n: Node)
    requires bang.ch == '!' && group.delimiter == Parenthesis && group.stream == args
    requires Expression(args) == Ok(Expr(n, []))
    ensures Expression(Negated(bang, group, args)) == Ok(Expr(Not(n), []))
  {
    var ts := Negated(bang, group, args);
    var inner := Disjunction(args, 0, TopLevel).value;
    assert args[inner.pos..] == [];
    assert inner == Parsed(n, |args|);
    DisjunctionContextFree(args, 0, TopLevel, InGroup(group));
    assert ts[1] == group;
    assert Atom(ts, 1, TopLevel) == Ok(Parsed(n, 2));
    assert Atom(ts, 0, TopLevel) == Ok(Parsed(Not(n), 2));
    assert ConjunctionLoop(ts, 2, TopLevel, [Not(n)]) == Ok(Parsed(Not(n), 2));
    assert Conjunction(ts, 0, TopLevel) == Ok(Parsed(Not(n), 2));
    assert DisjunctionLoop(ts, 2, TopLevel, [Not(n)]) == Ok(Parsed(Not(n), 2));
  }

  /** When `E` stops at a top-level comma, `!(E)` is rejected at that comma:
      inside parentheses nothing may follow the expression. */
  lemma NegatedExpressionWithRest(bang: PunctToken, group: GroupToken, args: seq<TokenTree>, n: Node, rest: seq<TokenTree>)
    requires bang.ch == '!' && group.delimiter == Parenthesis && group.stream == args
    requires Expression(args) == Ok(Expr(n, rest)) && rest != []
    ensures IsPunct(rest[0], ',')
    ensures Expression(Negated(bang, group, args)) == Err(Error(rest[0].span, Unexpected))
  {
    var ts := Negated(bang, group, args);
    var inner := Disjunction(args, 0, TopLevel).value;
    assert args[inner.pos..] == rest;
    assert args[inner.pos] == rest[0];
    DisjunctionContextFree(args, 0, TopLevel, InGroup(group));
    assert ts[1] == group;
    assert Atom(ts, 1, TopLevel) == Err(Error(rest[0].span, Unexpected));
    assert Atom(ts, 0, TopLevel) == Err(Error(rest[0].span, Unexpected));
    assert Conjunction(ts, 0, TopLevel) == Err(Error(rest[0].span, Unexpected));
    assert Disjunction(ts, 0, TopLevel) == Err(Error(rest[0].span, Unexpected));
  }

  // ---------------------------------------------------------------------
  // Operators

  /** `||` is accepted only as a `Joint` `|` followed by another `|`;
      otherwise the error points at the first `|`. */
  lemma OrOperator(ts: seq<TokenTree>, pos: nat, ctx: Ctx, operands: seq<Node>)
    requires pos < |ts| && IsPunct(ts[pos], '|')
    requires |operands| >= 1 && AllWellFormed(operands)
    ensures DisjunctionLoop(ts, pos, ctx, operands).Ok? ==>
      ts[pos].spacing == Joint && pos + 1 < |ts| && IsPunct(ts[pos + 1], '|')
    ensures MalformedOperator(ts, pos, '|') ==>
      DisjunctionLoop(ts, pos, ctx, operands) == Err(Error(ts[pos].span, ExpectedOr))
  {
  }

  /** `&&` is accepted only as a `Joint` `&` followed by another `&`. */
  lemma AndOperator(ts: seq<TokenTree>, pos: nat, ctx: Ctx, operands: seq<Node>)
    requires pos < |ts| && IsPunct(ts[pos], '&')
    requires |operands| >= 1 && AllWellFormed(operands)
    ensures ConjunctionLoop(ts, pos, ctx, operands).Ok? ==>
      ts[pos].spacing == Joint && pos + 1 < |ts| && IsPunct(ts[pos + 1], '&')
    ensures MalformedOperator(ts, pos, '&') ==>
      ConjunctionLoop(ts, pos, ctx, operands) == Err(Error(ts[pos].span, ExpectedAnd))
  {
  }

  /** At the disjunction level, a token other than `|` and `,` after an
      operand is an "unexpected token" error at that token; the conjunction
      level leaves every token other than `&` to the disjunction level. */
  lemma UnexpectedAfterOperand(ts: seq<TokenTree>, pos: nat, ctx: Ctx, operands: seq<Node>)
    requires pos < |ts| && !IsPunct(ts[pos], '|') && !IsPunct(ts[pos], ',')
    requires |operands| >= 1 && AllWellFormed(operands)
    ensures DisjunctionLoop(ts, pos, ctx, operands) == Err(Error(ts[pos].span, Unexpected))
    ensures !IsPunct(ts[pos], '&') ==> ConjunctionLoop(ts, pos, ctx, operands) == Ok(Parsed(AndOf(operands), pos))
  {
  }

  // ---------------------------------------------------------------------
  // Atoms

  /** An identifier is a `Node.Ident` unless an `=` follows it; after `=`
      a literal completes an `Equal` that keeps the `=` token, anything else
      is an error. The token after a plain identifier is not consumed. */
  lemma IdentifierAtom(ts: seq<TokenTree>, pos: nat, ctx: Ctx)
    requires pos < |ts| && ts[pos].Ident?
    ensures (pos + 1 == |ts| || !IsPunct(ts[pos + 1], '=')) ==>
      Atom(ts, pos, ctx) == Ok(Parsed(Node.Ident(ts[pos]), pos + 1))
    ensures pos + 1 < |ts| && IsPunct(ts[pos + 1], '=') && pos + 2 == |ts| ==>
      Atom(ts, pos, ctx) == Err(Error(CallSite, ExpectedLiteral))
    ensures pos + 2 < |ts| && IsPunct(ts[pos + 1], '=') && ts[pos + 2].Literal? ==>
      Atom(ts, pos, ctx) == Ok(Parsed(Equal(ts[pos], ts[pos + 1], ts[pos + 2]), pos + 3))
    ensures pos + 2 < |ts| && IsPunct(ts[pos + 1], '=') && !ts[pos + 2].Literal? ==>
      Atom(ts, pos, ctx) == Err(Error(ts[pos + 2].span, UnexpectedNotLiteral))
  {
  }

  /** `!` applies to exactly the atom after it. */
  lemma NotAtom(ts: seq<TokenTree>, pos: nat, ctx: Ctx)
    requires pos < |ts| && IsPunct(ts[pos], '!')
    ensures Atom(ts, pos + 1, ctx).Ok? ==>
      Atom(ts, pos, ctx) == Ok(Parsed(Not(Atom(ts, pos + 1, ctx).value.node), Atom(ts, pos + 1, ctx).value.pos))
    ensures Atom(ts, pos + 1, ctx).Err? ==> Atom(ts, pos, ctx) == Atom(ts, pos + 1, ctx)
  {
  }

  /** `!!a` is a double negation of `a`, not a cancelled one. */
  lemma DoubleNegation(b1: PunctToken, b2: PunctToken, a: IdentToken)
    requires b1.ch == '!' && b2.ch == '!'
    ensures Expression([b1, b2, a]) == Ok(Expr(Not(Not(Node.Ident(a))), []))
  {
    var ts: seq<TokenTree> := [b1, b2, a];
    assert Atom(ts, 2, TopLevel) == Ok(Parsed(Node.Ident(a), 3));
    assert Atom(ts, 1, TopLevel) == Ok(Parsed(Not(Node.Ident(a)), 3));
    assert Atom(ts, 0, TopLevel) == Ok(Parsed(Not(Not(Node.Ident(a))), 3));
    assert Conjunction(ts, 0, TopLevel) == Ok(Parsed(Not(Not(Node.Ident(a))), 3));
    assert Disjunction(ts, 0, TopLevel) == Ok(Parsed(Not(Not(Node.Ident(a))), 3));
    assert ts[3..] == [];
  }

  /** A missing operand points at the closing delimiter of the enclosing
      group, or at the macro call site at top level. */
  lemma MissingOperand(ts: seq<TokenTree>, ctx: Ctx)
    ensures ctx.InGroup? ==> Atom(ts, |ts|, ctx) == Err(Error(ctx.group.spanClose, ExpectedIdent))
    ensures ctx.TopLevel? ==> Atom(ts, |ts|, ctx) == Err(Error(CallSite, UnexpectedEnd))
  {
  }

  /** Empty arguments and empty parentheses are both rejected. */
  lemma EmptyInput(group: GroupToken)
    requires group.delimiter == Parenthesis && group.stream == []
    ensures Expression([]) == Err(Error(CallSite, UnexpectedEnd))
    ensures Expression([group]) == Err(Error(group.spanClose, ExpectedIdent))
  {
    assert Conjunction([], 0, TopLevel) == Err(Error(CallSite, UnexpectedEnd));
    assert Disjunction([], 0, InGroup(group)) == Err(Error(group.spanClose, ExpectedIdent));
    assert Atom([group], 0, TopLevel) == Err(Error(group.spanClose, ExpectedIdent));
    assert Conjunction([group], 0, TopLevel) == Err(Error(group.spanClose, ExpectedIdent));
  }

  /** A parenthesis group must hold exactly one expression: what its inner
      parse leaves over (always a comma) is an "unexpected token" there. */
  lemma ParenthesisGroup(ts: seq<TokenTree>, pos: nat, ctx: Ctx)
    requires pos < |ts| && ts[pos].Group? && ts[pos].delimiter == Parenthesis
    requires Disjunction(ts[pos].stream, 0, InGroup(ts[pos])).Ok?
    ensures var inner := Disjunction(ts[pos].stream, 0, InGroup(ts[pos])).value;
      if inner.pos < |ts[pos].stream| then
        IsPunct(ts[pos].stream[inner.pos], ',') &&
        Atom(ts, pos, ctx) == Err(Error(ts[pos].stream[inner.pos].span, Unexpected))
      else
        Atom(ts, pos, ctx) == Ok(Parsed(inner.node, pos + 1))
  {
  }

  /** In operand position, anything but a parenthesis group, an identifier
      or `!` is rejected at its own span; for a group that is the span of
      the whole group. */
  lemma NotAnOperand(ts: seq<TokenTree>, pos: nat, ctx: Ctx)
    requires pos < |ts| && !ts[pos].Ident? && !IsPunct(ts[pos], '!')
    requires !(ts[pos].Group? && ts[pos].delimiter == Parenthesis)
    ensures Atom(ts, pos, ctx) == Err(Error(ts[pos].span, UnexpectedNotIdent))
  {
  }

  /** `a & b` is rejected at the lone `&`. */
  lemma SingleAmpersand(a: IdentToken, amp: PunctToken, b: IdentToken)
    requires amp.ch == '&' && amp.spacing == Alone
    ensures Expression([a, amp, b]) == Err(Error(amp.span, ExpectedAnd))
  {
    var ts: seq<TokenTree> := [a, amp, b];
    assert Atom(ts, 0, TopLevel) == Ok(Parsed(Node.Ident(a), 1));
    assert Conjunction(ts, 0, TopLevel) == Err(Error(amp.span, ExpectedAnd));
  }

  // ---------------------------------------------------------------------
  // One step of each loop, for proofs that walk a token stream

  lemma DisjunctionFirst(ts: seq<TokenTree>, pos: nat, ctx: Ctx, first: Parsed)
    requires pos <= |ts| && Conjunction(ts, pos, ctx) == Ok(first)
    ensures Disjunction(ts, pos, ctx) == DisjunctionLoop(ts, first.pos, ctx, [first.node])
  {
  }

  lemma DisjunctionLoopStep(ts: seq<TokenTree>, pos: nat, ctx: Ctx, operands: seq<Node>, next: Parsed)
    requires |operands| >= 1 && AllWellFormed(operands)
    requires pos + 1 < |ts| && IsPunct(ts[pos], '|') && ts[pos].spacing == Joint && IsPunct(ts[pos + 1], '|')
    requires Conjunction(ts, pos + 2, ctx) == Ok(next)
    ensures AllWellFormed(operands + [next.node])
    ensures DisjunctionLoop(ts, pos, ctx, operands) == DisjunctionLoop(ts, next.pos, ctx, operands + [next.node])
  {
    AppendWellFormed(operands, next.node);
  }

  lemma DisjunctionLoopStop(ts: seq<TokenTree>, pos: nat, ctx: Ctx, operands: seq<Node>)
    requires pos <= |ts| && DisjunctionStop(ts, pos)
    requires |operands| >= 1 && AllWellFormed(operands)
    ensures DisjunctionLoop(ts, pos, ctx, operands) == Ok(Parsed(OrOf(operands), pos))
  {
  }

  lemma ConjunctionFirst(ts: seq<TokenTree>, pos: nat, ctx: Ctx, first: Parsed)
    requires pos <= |ts| && Atom(ts, pos, ctx) == Ok(first)
    ensures Conjunction(ts, pos, ctx) == ConjunctionLoop(ts, first.pos, ctx, [first.node])
  {
  }

  lemma ConjunctionLoopStep(ts: seq<TokenTree>, pos: nat, ctx: Ctx, operands: seq<Node>, next: Parsed)
    requires |operands| >= 1 && AllWellFormed(operands)
    requires pos + 1 < |ts| && IsPunct(ts[pos], '&') && ts[pos].spacing == Joint && IsPunct(ts[pos + 1], '&')
    requires Atom(ts, pos + 2, ctx) == Ok(next)
    ensures AllWellFormed(operands + [next.node])
    ensures ConjunctionLoop(ts, pos, ctx, operands) == ConjunctionLoop(ts, next.pos, ctx, operands + [next.node])
  {
    AppendWellFormed(operands, next.node);
  }

  lemma ConjunctionLoopStop(ts: seq<TokenTree>, pos: nat, ctx: Ctx, operands: seq<Node>)
    requires pos <= |ts| && (pos == |ts| || !IsPunct(ts[pos], '&'))
    requires |operands| >= 1 && AllWellFormed(operands)
    ensures ConjunctionLoop(ts, pos, ctx, operands) == Ok(Parsed(AndOf(operands), pos))
  {
  }
}
